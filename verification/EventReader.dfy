/** Reading the journal through its cursor: what a client that polls for events sees, and how it can
    tell that a reset has taken events away. */
module EventReader {
  import opened Prelude
  import opened EngineModel
  import opened EngineJournal
  import opened EngineInvariants
  import opened EngineRuns
  import M = EngineModel

  // ---------------------------------------------------------------- one read

  datatype Reading = Reading(events: seq<Event>, generation: nat, cursor: nat)

  /** The events beyond a cursor. */
  function Beyond(events: seq<Event>, after: nat): seq<Event> {
    if events == [] then []
    else (if events[0].cursor > after then [events[0]] else []) + Beyond(events[1..], after)
  }

  function ReadEvents(s: Snapshot, after: nat): Reading {
    Reading(Beyond(s.events, after), s.generation, if s.events == [] then after else s.events[|s.events| - 1].cursor)
  }

  /** The journal's cursors are consecutive up to the next one to be given, and once an event has been
      logged there is always one. */
  predicate Numbered(s: Snapshot) {
    && 1 <= s.nextEvent && |s.events| < s.nextEvent && (s.nextEvent > 1 ==> s.events != [])
    && forall i :: 0 <= i < |s.events| ==> s.events[i].cursor == s.nextEvent - |s.events| + i
  }

  lemma {:induction false} BeyondConsecutive(events: seq<Event>, first: nat, after: nat)
    requires forall i :: 0 <= i < |events| ==> events[i].cursor == first + i
    ensures Beyond(events, after)
         == events[if after < first then 0 else Min(after - first + 1, |events|)..]
  {
    if events != [] {
      forall i | 0 <= i < |events[1..]| ensures events[1..][i].cursor == first + 1 + i {
        assert events[1..][i] == events[i + 1];
      }
      BeyondConsecutive(events[1..], first + 1, after);
      var rest := events[1..];
      assert events == [events[0]] + rest;
      if after < first {
        assert rest[0..] == rest && events[0..] == events;
      } else {
        var m := if after < first + 1 then 0 else Min(after - first, |rest|);
        assert Min(after - first + 1, |events|) == m + 1 && rest[m..] == events[m + 1..];
        assert [] + rest[m..] == rest[m..];
      }
    }
  }

  // ---------------------------------------------------------------- reads between calls

  /** The journal after `h` more events is an end of the one before with `h` appended. */
  ghost predicate Extends(s: Snapshot, h: seq<Event>, t: Snapshot) {
    && t.nextEvent == s.nextEvent + |h| && |t.events| <= |s.events| + |h|
    && (forall i :: 0 <= i < |h| ==> h[i].cursor == s.nextEvent + i)
    && t.events == (s.events + h)[|s.events| + |h| - |t.events|..]
  }

  lemma GrowthExtends(s: Snapshot, t: Snapshot)
    requires Numbered(s) && Grows(s, t)
    ensures Numbered(t) && Extends(s, t.events[|s.events|..], t)
  {
    var h := t.events[|s.events|..];
    assert t.events == s.events + h;
    forall i | 0 <= i < |t.events| ensures t.events[i].cursor == t.nextEvent - |t.events| + i {
      if i < |s.events| { assert t.events[..|s.events|][i] == s.events[i]; }
    }
  }

  lemma CallExtends(s: Snapshot, c: Call)
    requires Settled(s) && Possible(s, c) && Numbered(s)
    ensures Numbered(Apply(s, c).after) && Extends(s, Emitted(s, c), Apply(s, c).after)
  {
    hide Settled;
    if !c.ResetCall? {
      CallGrows(s, c);
      hide Apply;
      GrowthExtends(s, Apply(s, c).after);
    } else {
      var t := Apply(s, c).after;
      assert (s.events + t.events)[|s.events|..] == t.events;
    }
  }

  lemma ExtendsTransitive(s: Snapshot, h: seq<Event>, t: Snapshot, k: seq<Event>, u: Snapshot)
    requires Extends(s, h, t) && Extends(t, k, u)
    ensures Extends(s, h + k, u)
  {
    var cut := |s.events| + |h| - |t.events|;
    assert t.events + k == ((s.events + h) + k)[cut..];
    assert (s.events + h) + k == s.events + (h + k);
    var skip := |t.events| + |k| - |u.events|;
    assert (s.events + (h + k))[cut..][skip..] == (s.events + (h + k))[cut + skip..];
  }

  lemma {:induction false} RunExtends(s: Snapshot, calls: seq<Call>)
    requires Settled(s) && Legal(s, calls) && Numbered(s)
    ensures Numbered(Run(s, calls)) && Extends(s, History(s, calls), Run(s, calls))
    decreases |calls|
  {
    hide Settled;
    hide Apply;
    hide Emitted;
    hide Numbered;
    if calls == [] {
      assert s.events + [] == s.events;
    } else {
      var t := Apply(s, calls[0]).after;
      ApplySettles(s, calls[0]);
      CallExtends(s, calls[0]);
      RunExtends(t, calls[1..]);
      hide Extends;
      ExtendsTransitive(s, Emitted(s, calls[0]), t, History(t, calls[1..]), Run(t, calls[1..]));
    }
  }

  /** A client that has read up to date and reads again after any calls, resets included: it gets an end
      of what was logged in between and is up to date again; and it has missed events exactly when the
      first cursor it gets is not the one after its last. */
  lemma ReadCatchesUp(s: Snapshot, calls: seq<Call>)
    requires Settled(s) && Legal(s, calls) && Numbered(s)
    ensures var t := Run(s, calls); var r := ReadEvents(t, s.nextEvent - 1); var h := History(s, calls);
      && Numbered(t) && r.cursor == t.nextEvent - 1 && |r.events| <= |h| && r.events == h[|h| - |r.events|..]
      && (r.events == h <==> (r.events == [] || r.events[0].cursor == s.nextEvent))
  {
    RunExtends(s, calls);
    var t, h := Run(s, calls), History(s, calls);
    hide Run;
    hide History;
    hide Legal;
    hide Settled;
    ExtendedRead(s, h, t);
  }

  lemma ExtendedRead(s: Snapshot, h: seq<Event>, t: Snapshot)
    requires Numbered(s) && Numbered(t) && Extends(s, h, t)
    ensures var r := ReadEvents(t, s.nextEvent - 1);
      && r.cursor == t.nextEvent - 1 && |r.events| <= |h| && r.events == h[|h| - |r.events|..]
      && (r.events == h <==> (r.events == [] || r.events[0].cursor == s.nextEvent))
  {
    var r, n := ReadEvents(t, s.nextEvent - 1), Min(|h|, |t.events|);
    ExtendedTail(s, h, t);
    assert h[0..] == h;
    hide Beyond;
    if n > 0 {
      assert r.events[0] == t.events[|t.events| - n];
    }
  }

  lemma ExtendedTail(s: Snapshot, h: seq<Event>, t: Snapshot)
    requires Numbered(s) && Numbered(t) && Extends(s, h, t)
    ensures var n := Min(|h|, |t.events|);
      Beyond(t.events, s.nextEvent - 1) == t.events[|t.events| - n..] == h[|h| - n..]
  {
    var n, cut := Min(|h|, |t.events|), |s.events| + |h| - |t.events|;
    BeyondConsecutive(t.events, t.nextEvent - |t.events|, s.nextEvent - 1);
    hide Beyond;
    hide Numbered;
    TailOfTail(s.events + h, cut, |t.events| - n);
    TailOfSum(s.events, h, n);
  }

  lemma TailOfTail(all: seq<Event>, a: nat, b: nat)
    requires a + b <= |all|
    ensures all[a..][b..] == all[a + b..]
  {
  }

  lemma TailOfSum(x: seq<Event>, h: seq<Event>, n: nat)
    requires n <= |h|
    ensures (x + h)[|x| + |h| - n..] == h[|h| - n..]
  {
  }

  // ---------------------------------------------------------------- when a reset takes events away

  /** Every reset among the calls finds nothing logged since the read, `unread` events to begin with. */
  ghost predicate ResetsFindNothing(s: Snapshot, calls: seq<Call>, unread: nat)
    requires Settled(s) && Legal(s, calls)
    decreases |calls|
  {
    if calls == [] then true
    else
      ApplySettles(s, calls[0]);
      (calls[0].ResetCall? ==> unread == 0)
      && ResetsFindNothing(Apply(s, calls[0]).after, calls[1..], unread + |Emitted(s, calls[0])|)
  }

  lemma CallLengthens(s: Snapshot, c: Call)
    requires Settled(s) && Possible(s, c)
    ensures var t := Apply(s, c).after;
      if c.ResetCall? then |t.events| == |Emitted(s, c)| == 1 else |t.events| == |s.events| + |Emitted(s, c)|
  {
    hide Settled;
    if !c.ResetCall? {
      CallGrows(s, c);
      hide Apply;
    }
  }

  /** The journal still holds everything unread and everything logged since exactly then. */
  lemma {:induction false} JournalHoldsAllExactly(s: Snapshot, calls: seq<Call>, unread: nat)
    requires Settled(s) && Legal(s, calls) && Numbered(s) && unread <= |s.events|
    ensures ResetsFindNothing(s, calls, unread) <==> unread + |History(s, calls)| <= |Run(s, calls).events|
    decreases |calls|
  {
    hide Settled;
    hide Numbered;
    hide Apply;
    hide Emitted;
    if calls != [] {
      var t, n := Apply(s, calls[0]).after, |Emitted(s, calls[0])|;
      ApplySettles(s, calls[0]);
      CallExtends(s, calls[0]);
      CallLengthens(s, calls[0]);
      if calls[0].ResetCall? && unread > 0 {
        RunExtends(t, calls[1..]);
      } else {
        JournalHoldsAllExactly(t, calls[1..], unread + n);
      }
    }
  }

  /** A client that has read up to date and reads again after any calls gets everything that was logged in
      between if and only if every reset among them found nothing logged since its read. */
  lemma ReadIsWholeExactly(s: Snapshot, calls: seq<Call>)
    requires Settled(s) && Legal(s, calls) && Numbered(s)
    ensures ReadEvents(Run(s, calls), s.nextEvent - 1).events == History(s, calls) <==> ResetsFindNothing(s, calls, 0)
  {
    hide Settled;
    hide Legal;
    hide Run;
    hide History;
    hide ResetsFindNothing;
    JournalHoldsAllExactly(s, calls, 0);
    RunExtends(s, calls);
    var t, h := Run(s, calls), History(s, calls);
    ExtendedTail(s, h, t);
    hide Extends;
    hide Numbered;
    assert h[0..] == h;
  }

  // ---------------------------------------------------------------- a whole session

  /** What a client collects that reads once after each batch of calls, from a cursor onwards. */
  ghost function Collected(s: Snapshot, batches: seq<seq<Call>>, after: nat): seq<Event>
    requires Settled(s) && AllLegal(s, batches)
    decreases |batches|
  {
    if batches == [] then []
    else
      var t := Run(s, batches[0]);
      var r := ReadEvents(t, after);
      r.events + Collected(t, batches[1..], r.cursor)
  }

  ghost predicate AllLegal(s: Snapshot, batches: seq<seq<Call>>)
    requires Settled(s)
    decreases |batches|
  {
    batches == [] || (Legal(s, batches[0]) && AllLegal(Run(s, batches[0]), batches[1..]))
  }

  /** The state after all batches. */
  ghost function Last(s: Snapshot, batches: seq<seq<Call>>): (end: Snapshot)
    requires Settled(s) && AllLegal(s, batches)
    ensures Settled(end)
    decreases |batches|
  {
    if batches == [] then s else Last(Run(s, batches[0]), batches[1..])
  }

  predicate NoReset(calls: seq<Call>) { forall i :: 0 <= i < |calls| ==> !calls[i].ResetCall? }

  lemma {:induction false} JournalOnlyGrows(s: Snapshot, calls: seq<Call>)
    requires Settled(s) && Legal(s, calls) && NoReset(calls)
    ensures Run(s, calls).events == s.events + History(s, calls)
    decreases |calls|
  {
    hide Settled;
    hide Apply;
    if calls == [] {
      assert s.events + [] == s.events;
    } else {
      var t := Apply(s, calls[0]).after;
      ApplySettles(s, calls[0]);
      CallGrows(s, calls[0]);
      JournalOnlyGrows(t, calls[1..]);
      GrownJournal(s, t);
      hide Grows;
      var h := t.events[|s.events|..];
      assert (s.events + h) + History(t, calls[1..]) == s.events + (h + History(t, calls[1..]));
    }
  }

  lemma GrownJournal(s: Snapshot, t: Snapshot)
    requires Grows(s, t)
    ensures |s.events| <= |t.events| && t.events == s.events + t.events[|s.events|..]
  {
  }

  /** Without a reset, polling misses nothing and repeats nothing, however the reads are spaced: from an
      up-to-date client on, what it collects is exactly what the journal has gained. */
  lemma {:induction false} PollingCollectsTheJournal(s: Snapshot, batches: seq<seq<Call>>)
    requires Settled(s) && AllLegal(s, batches) && Numbered(s)
    requires forall i :: 0 <= i < |batches| ==> NoReset(batches[i])
    ensures Last(s, batches).events == s.events + Collected(s, batches, s.nextEvent - 1)
    decreases |batches|
  {
    hide Settled;
    hide Numbered;
    hide NoReset;
    hide Run;
    hide Legal;
    hide History;
    hide ReadEvents;
    NumberedHasNext(s);
    if batches == [] {
      assert s.events + [] == s.events;
    } else {
      var t := Run(s, batches[0]);
      var r := ReadEvents(t, s.nextEvent - 1);
      JournalOnlyGrows(s, batches[0]);
      ReadCatchesUp(s, batches[0]);
      WholeRead(s, batches[0]);
      var rest := Collected(t, batches[1..], r.cursor);
      PollingCollectsTheJournal(t, batches[1..]);
      assert Collected(s, batches, s.nextEvent - 1) == r.events + rest;
      assert (s.events + r.events) + rest == s.events + (r.events + rest);
    }
  }

  lemma NumberedHasNext(s: Snapshot)
    requires Numbered(s)
    ensures s.nextEvent >= 1
  {
  }

  /** Without a reset a read is whole. */
  lemma WholeRead(s: Snapshot, calls: seq<Call>)
    requires Settled(s) && Legal(s, calls) && NoReset(calls) && Numbered(s)
    ensures ReadEvents(Run(s, calls), s.nextEvent - 1).events == History(s, calls)
  {
    hide Settled;
    hide Legal;
    hide Run;
    hide History;
    RunExtends(s, calls);
    JournalOnlyGrows(s, calls);
    var t, h := Run(s, calls), History(s, calls);
    ExtendedTail(s, h, t);
    hide Extends;
    hide Numbered;
    assert h[0..] == h;
  }

  // ---------------------------------------------------------------- from a new engine on

  lemma FreshIsNumbered(epoch: Option<nat>)
    ensures Numbered(Fresh(epoch, 1, 1))
  {
  }

  /** Every journal that can be reached is numbered. */
  lemma ReachedIsNumbered(epoch: Option<nat>, calls: seq<Call>)
    requires Settled(Fresh(epoch, 1, 1)) && Legal(Fresh(epoch, 1, 1), calls)
    ensures Numbered(Run(Fresh(epoch, 1, 1), calls))
  {
    FreshIsNumbered(epoch);
    hide Settled;
    hide Numbered;
    RunExtends(Fresh(epoch, 1, 1), calls);
  }

  /** A client that polls from the start, cursor 0, collects the whole journal of an engine that is never
      reset, each event once and in order. */
  lemma ClientSeesTheWholeJournal(epoch: Option<nat>, batches: seq<seq<Call>>)
    requires Settled(Fresh(epoch, 1, 1)) && AllLegal(Fresh(epoch, 1, 1), batches)
    requires forall i :: 0 <= i < |batches| ==> NoReset(batches[i])
    ensures Collected(Fresh(epoch, 1, 1), batches, 0) == Last(Fresh(epoch, 1, 1), batches).events
  {
    var s := Fresh(epoch, 1, 1);
    FreshIsNumbered(epoch);
    hide Settled;
    PollingCollectsTheJournal(s, batches);
    hide *;
    assert [] + Collected(s, batches, 0) == Collected(s, batches, 0);
  }

  /** After any run, a client that reads, and reads again after more calls, resets included, gets an end
      of what was logged in between, is up to date again, and has missed events exactly when the first
      cursor it gets is not the one after its last. */
  lemma LossShowsAsAGap(epoch: Option<nat>, past: seq<Call>, calls: seq<Call>)
    requires Settled(Fresh(epoch, 1, 1)) && Legal(Fresh(epoch, 1, 1), past)
    requires Legal(Run(Fresh(epoch, 1, 1), past), calls)
    ensures var s := Run(Fresh(epoch, 1, 1), past); var last := ReadEvents(s, 0).cursor;
      var t := Run(s, calls); var r := ReadEvents(t, last); var h := History(s, calls);
      && r.cursor == ReadEvents(t, 0).cursor && |r.events| <= |h| && r.events == h[|h| - |r.events|..]
      && (r.events == h <==> (r.events == [] || r.events[0].cursor == last + 1))
  {
    ReachedIsNumbered(epoch, past);
    hide *;
    NextReadTellsLoss(Run(Fresh(epoch, 1, 1), past), calls);
  }

  lemma NextReadTellsLoss(s: Snapshot, calls: seq<Call>)
    requires Settled(s) && Legal(s, calls) && Numbered(s)
    ensures var last := ReadEvents(s, 0).cursor;
      var t := Run(s, calls); var r := ReadEvents(t, last); var h := History(s, calls);
      && r.cursor == ReadEvents(t, 0).cursor && |r.events| <= |h| && r.events == h[|h| - |r.events|..]
      && (r.events == h <==> (r.events == [] || r.events[0].cursor == last + 1))
  {
    hide Settled;
    hide Legal;
    hide Run;
    hide History;
    hide ReadEvents;
    CursorOfNumbered(s, 0);
    ReadCatchesUp(s, calls);
    CursorOfNumbered(Run(s, calls), 0);
    hide Numbered;
  }

  /** And it misses none, after any run of a new engine, if and only if every reset between the two reads
      found nothing logged since the first. */
  lemma ResetsLoseExactly(epoch: Option<nat>, past: seq<Call>, calls: seq<Call>)
    requires Settled(Fresh(epoch, 1, 1)) && Legal(Fresh(epoch, 1, 1), past)
    requires Legal(Run(Fresh(epoch, 1, 1), past), calls)
    ensures var s := Run(Fresh(epoch, 1, 1), past);
      ReadEvents(Run(s, calls), ReadEvents(s, 0).cursor).events == History(s, calls) <==> ResetsFindNothing(s, calls, 0)
  {
    ReachedIsNumbered(epoch, past);
    hide *;
    ResetsLoseFrom(Run(Fresh(epoch, 1, 1), past), calls);
  }

  lemma ResetsLoseFrom(s: Snapshot, calls: seq<Call>)
    requires Settled(s) && Legal(s, calls) && Numbered(s)
    ensures ReadEvents(Run(s, calls), ReadEvents(s, 0).cursor).events == History(s, calls) <==> ResetsFindNothing(s, calls, 0)
  {
    hide Settled;
    hide Legal;
    hide Run;
    hide History;
    hide ResetsFindNothing;
    hide ReadEvents;
    CursorOfNumbered(s, 0);
    ReadIsWholeExactly(s, calls);
    hide Numbered;
  }

  /** The cursor a read gives is the last one handed out. */
  lemma CursorOfNumbered(s: Snapshot, after: nat)
    requires Numbered(s)
    ensures s.events != [] || after == 0 ==> ReadEvents(s, after).cursor == s.nextEvent - 1
  {
  }

  /** In any reachable state, exactly a client ahead of a journal that has entries is given a smaller
      cursor than the one it came with. */
  lemma CursorIsSetBack(epoch: Option<nat>, calls: seq<Call>, after: nat)
    requires Settled(Fresh(epoch, 1, 1)) && Legal(Fresh(epoch, 1, 1), calls)
    ensures var s := Run(Fresh(epoch, 1, 1), calls);
      && (ReadEvents(s, after).cursor < after <==> s.events != [] && s.nextEvent <= after)
      && (s.nextEvent <= after ==> ReadEvents(s, after).events == [])
  {
    ReachedIsNumbered(epoch, calls);
    hide Settled;
    hide Legal;
    hide Run;
    var s := Run(Fresh(epoch, 1, 1), calls);
    BeyondConsecutive(s.events, s.nextEvent - |s.events|, after);
  }

  /** A reset of a new engine: a client that asks for what lies beyond cursor 5 is set back to 1. */
  lemma SetBackToOne(epoch: Option<nat>)
    ensures var s := M.Reset(Fresh(epoch, 1, 1)); ReadEvents(s, 5) == Reading([], 2, 1)
  {
    var events := M.Reset(Fresh(epoch, 1, 1)).events;
    assert |events| == 1 && events[0].cursor == 1;
    BeyondConsecutive(events, 1, 5);
    hide Beyond;
    assert events[1..] == [];
  }

  /** A purchase with nothing armed, and a reset. */
  const REFUSED_THEN_RESET := [StartCall(DEVICE_ID, 100, None), ResetCall]

  /** A run that loses an event: the purchase is refused and logged, the reset takes that entry away, and a
      client that had read nothing gets the second event only, with the gap before it. */
  lemma ResetTakesAnEvent(epoch: Option<nat>)
    ensures var s := Fresh(epoch, 1, 1);
      && Settled(s) && Legal(s, REFUSED_THEN_RESET) && Settled(Run(s, REFUSED_THEN_RESET))
      && var r := ReadEvents(Run(s, REFUSED_THEN_RESET), 0);
         && |History(s, REFUSED_THEN_RESET)| == 2 && |r.events| == 1 && r.events[0].cursor == 2
         && !ResetsFindNothing(s, REFUSED_THEN_RESET, 0)
  {
    var s, t := Fresh(epoch, 1, 1), Requested(Fresh(epoch, 1, 1), DEVICE_ID, 100);
    var purchase, reset := REFUSED_THEN_RESET[0], [ResetCall];
    assert REFUSED_THEN_RESET[1..] == reset && reset[1..] == [];
    FreshSettles(epoch);
    RefusedOnFresh(epoch);
    ResetAfterRefusal(t, epoch);
    hide Settled;
    hide Possible;
    hide Apply;
    hide Emitted;
    ApplySettles(s, purchase);
    ApplySettles(t, ResetCall);
    var u := M.Reset(t);
    hide M.Reset;
    assert Legal(t, reset) && Run(t, reset) == u && |History(t, reset)| == 1;
    assert Legal(s, REFUSED_THEN_RESET) && Run(s, REFUSED_THEN_RESET) == u;
  }

  lemma RefusedOnFresh(epoch: Option<nat>)
    requires Settled(Fresh(epoch, 1, 1))
    ensures var s := Fresh(epoch, 1, 1); var purchase := StartCall(DEVICE_ID, 100, None);
      && Possible(s, purchase) && |Emitted(s, purchase)| == 1
      && Apply(s, purchase).after == Requested(s, DEVICE_ID, 100) && Settled(Requested(s, DEVICE_ID, 100))
  {
    var s := Fresh(epoch, 1, 1);
    UnarmedStartIsRefused(s);
    ApplySettles(s, StartCall(DEVICE_ID, 100, None));
    hide Settled;
    hide Start;
  }

  lemma ResetAfterRefusal(t: Snapshot, epoch: Option<nat>)
    requires Settled(t) && t == Requested(Fresh(epoch, 1, 1), DEVICE_ID, 100)
    ensures Possible(t, ResetCall) && |Emitted(t, ResetCall)| == 1 && Apply(t, ResetCall).after == M.Reset(t)
    ensures var r := ReadEvents(M.Reset(t), 0); |r.events| == 1 && r.events[0].cursor == 2
  {
    hide Settled;
    var events := M.Reset(t).events;
    assert |events| == 1 && events[0].cursor == 2;
    BeyondConsecutive(events, 2, 0);
    hide Beyond;
    assert events[0..] == events;
  }

  lemma UnarmedStartIsRefused(s: Snapshot)
    requires Settled(s) && ClockRoom(s) && s.queue == []
    ensures AllSteppable(s.operations)
    ensures Start(s, DEVICE_ID, 100, None).after == Requested(s, DEVICE_ID, 100)
  {
    SettledIsSteppable(s);
    StartMeans(s, DEVICE_ID, 100, None);
    hide Start;
    hide Settled;
    assert FirstFor(Requested(s, DEVICE_ID, 100).queue, DEVICE_ID).None?;
  }
}
