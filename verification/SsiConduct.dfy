/** What the SSI terminal answers and does, told apart from the function that carries it out: which phase
    runs, what each request leads to, and what a stored result stands for over whole runs. */
module SsiConduct {
  import opened Prelude
  import opened SsiTerminal

  // ---------------------------------------------------------------- the phase that runs

  /** The clock has not gone back behind the start of the running operation. */
  predicate Timely(t: Terminal, now: int) { t.active.Some? ==> t.active.value.start <= now }

  /** An accepted purchase has phases left to go through. */
  predicate Running(t: Terminal, now: int) {
    t.active.Some? && now - t.active.value.start < Duration(t.active.value.scenario.phases)
  }

  /** Phase `i` has begun and not ended after `elapsed`. */
  predicate InPhase(phases: seq<Phase>, elapsed: int, i: nat) {
    i < |phases| && Duration(phases[..i]) <= elapsed < Duration(phases[..i]) + phases[i].ms
  }

  lemma {:induction false} PhaseFound(phases: seq<Phase>, elapsed: int, i: nat)
    requires InPhase(phases, elapsed, i)
    ensures PhaseAt(phases, elapsed) == Some(phases[i].status)
    decreases |phases|
  {
    if i > 0 {
      assert phases[..i][0] == phases[0] && phases[..i][1..] == phases[1..][..i - 1];
      PhaseFound(phases[1..], elapsed - phases[0].ms, i - 1);
    }
  }

  lemma RunningIsInAPhase(t: Terminal, now: int)
    requires Timely(t, now) && t.active.Some?
    ensures Running(t, now) <==> PhaseAt(t.active.value.scenario.phases, now - t.active.value.start).Some?
  {
    OverWhenPhasesSpent(t.active.value.scenario.phases, now - t.active.value.start);
  }

  /** The status told is the running phase's, by its place in the schedule, and S00 when nothing runs. */
  lemma StatusIsThePhase(t: Terminal, now: int, i: nat)
    requires Timely(t, now)
    ensures !Running(t, now) ==> StatusAt(t, now) == S00
    ensures t.active.Some? && InPhase(t.active.value.scenario.phases, now - t.active.value.start, i) ==>
      Running(t, now) && StatusAt(t, now) == t.active.value.scenario.phases[i].status
  {
    if t.active.Some? {
      RunningIsInAPhase(t, now);
      if InPhase(t.active.value.scenario.phases, now - t.active.value.start, i) {
        PhaseFound(t.active.value.scenario.phases, now - t.active.value.start, i);
      }
    }
  }

  // ---------------------------------------------------------------- what looking does

  /** The result a reader finds: the stored one, or the one of an operation whose phases are spent. */
  function Standing(t: Terminal, now: int): Option<Finished> {
    if t.active.None? || Running(t, now) then t.last
    else Some(Finished(t.active.value.result, t.active.value.scenario.errorCode, t.active.value.scenario))
  }

  /** The terminal has noticed the time and nothing else has changed: an operation that is over is stored
      under its scenario's code, one that runs goes on. */
  predicate Noticed(t: Terminal, u: Terminal, now: int) {
    && u.generation == t.generation && u.armed == t.armed && u.last == Standing(t, now)
    && (u.active.Some? <==> Running(t, now))
    && (u.active.Some? ==>
          var a, b := t.active.value, u.active.value; b.start == a.start && b.scenario == a.scenario && b.result == a.result)
  }

  lemma TickNotices(t: Terminal, now: int)
    requires Timely(t, now)
    ensures Noticed(t, Ticked(t, now), now)
  {
    if t.active.Some? { RunningIsInAPhase(t, now); }
  }

  // ---------------------------------------------------------------- what each request leads to

  /** The scenario whose scripted errors apply. */
  function Scripts(t: Terminal, now: int): Scenario {
    if Running(t, now) then t.active.value.scenario else t.armed
  }

  /** A well-shaped request by this name for which no error is scripted. */
  predicate Served(t: Terminal, r: Request, now: int, name: string, m: Method) {
    r.name == Some(name) && !r.params.NotAnObject? && m !in Scripts(t, now).requestErrors
  }

  lemma ServedAlike(t: Terminal, now: int)
    requires Timely(t, now)
    ensures Governing(Ticked(t, now)) == Scripts(t, now)
  {
    TickNotices(t, now);
  }

  /** Names the terminal knows. */
  const NAMES := map[
    "Purchase" := Purchase, "PingDevice" := PingDevice, "GetStatus" := GetStatus, "GetLastResult" := GetLastResult,
    "Interrupt" := Interrupt, "GetMerchantList" := GetMerchantList, "GetMerchantListDetailed" := GetMerchantListDetailed,
    "GetTerminalInfo" := GetTerminalInfo, "GetResultByUid" := GetResultByUid]

  lemma NamesKnown(name: string)
    ensures MethodOf(name) == if name in NAMES then Some(NAMES[name]) else None
  {
  }

  /** Requests that are not served: no name, an unknown one, parameters of the wrong shape, a scripted error,
      each with its code and no effect. */
  lemma WhatIsNotServed(t: Terminal, r: Request, now: int, start: int, stamp: int)
    requires Timely(t, now)
    ensures var h := Handle(t, r, now, start, stamp);
      && (r.name.None? ==> h.reply == Reply("Unknown", E(4), NoBody))
      && (r.name.Some? && r.name.value !in NAMES ==> h.reply == Reply(r.name.value, E(5), NoBody))
      && (r.name.Some? && r.name.value in NAMES && r.params.NotAnObject? ==> h.reply == Reply(r.name.value, E(9), NoBody))
      && (r.name.Some? && r.name.value in NAMES && !r.params.NotAnObject? && NAMES[r.name.value] in Scripts(t, now).requestErrors ==>
            h.reply == Reply(r.name.value, Scripts(t, now).requestErrors[NAMES[r.name.value]], NoBody))
      && (r.name.None? || r.name.value !in NAMES || r.params.NotAnObject? || NAMES[r.name.value] in Scripts(t, now).requestErrors ==>
            Noticed(t, h.after, now))
  {
    TickNotices(t, now);
    ServedAlike(t, now);
    if r.name.Some? { NamesKnown(r.name.value); }
    hide Ticked;
    hide StatusAt;
    hide Noticed;
    hide MethodOf;
    hide Governing;
    hide Scripts;
  }

  /** Interrupt: in a phase S02, S03 or S08 the operation is over at once, stored as E12 without the bank's
      answer; in any other phase, and on an idle terminal, it is refused with E08 and changes nothing. */
  lemma WhatInterruptDoes(t: Terminal, r: Request, now: int, start: int, stamp: int)
    requires Timely(t, now) && Served(t, r, now, "Interrupt", Interrupt)
    ensures var h := Handle(t, r, now, start, stamp);
      if Running(t, now) && StatusAt(t, now) in {S02, S03, S08} then
        var op := t.active.value;
        && h.reply == Reply("Interrupt", NoError, EmptyBody) && h.after.active.None?
        && h.after.last == Some(Finished(op.result.(responseCode := "", transactionResult := ""), E(12), op.scenario))
        && h.after.armed == t.armed && h.after.generation == t.generation
      else h.reply == Reply("Interrupt", E(8), NoBody) && Noticed(t, h.after, now)
  {
    TickNotices(t, now);
    ServedAlike(t, now);
    NamesKnown("Interrupt");
    StatusIsThePhase(t, now, 0);
    hide Ticked;
    hide StatusAt;
    hide MethodOf;
    hide Scripts;
    hide Running;
    hide Standing;
  }

  /** GetLastResult: busy while an operation runs, else the standing result, or nothing. */
  lemma WhatLastResultSays(t: Terminal, r: Request, now: int, start: int, stamp: int)
    requires Timely(t, now) && Served(t, r, now, "GetLastResult", GetLastResult)
    ensures var h, f := Handle(t, r, now, start, stamp), Standing(t, now);
      && Noticed(t, h.after, now)
      && h.reply == if Running(t, now) then Reply("GetLastResult", E(6), NoBody)
                    else if f.Some? then Reply("GetLastResult", f.value.code, RecordBody(f.value.params))
                    else Reply("GetLastResult", NoError, EmptyBody)
  {
    TickNotices(t, now);
    ServedAlike(t, now);
    NamesKnown("GetLastResult");
    hide Ticked;
    hide StatusAt;
    hide MethodOf;
    hide Scripts;
    hide Running;
    hide Standing;
  }

  /** GetResultByUid tells the operation that runs, the one that is stored, and an unknown one apart. */
  lemma WhatResultByUidSays(t: Terminal, r: Request, now: int, start: int, stamp: int)
    requires Timely(t, now) && Served(t, r, now, "GetResultByUid", GetResultByUid)
    ensures var h, f := Handle(t, r, now, start, stamp), Standing(t, now);
      && Noticed(t, h.after, now)
      && h.reply == if !r.params.Params? || !r.params.transactionUid.Text? then Reply("GetResultByUid", E(4), NoBody)
                    else if Running(t, now) && t.active.value.result.transactionUid == r.params.transactionUid then
                      Reply("GetResultByUid", E(22), NoBody)
                    else if f.Some? && f.value.params.transactionUid == r.params.transactionUid then
                      Reply("GetResultByUid", f.value.code, RecordBody(f.value.params))
                    else Reply("GetResultByUid", E(20), NoBody)
  {
    TickNotices(t, now);
    ServedAlike(t, now);
    NamesKnown("GetResultByUid");
    hide Ticked;
    hide StatusAt;
    hide MethodOf;
    hide Scripts;
    hide Running;
    hide Standing;
  }

  /** A purchase request with everything in it: an amount in digits, the currency, the merchant. */
  predicate GoodPurchase(r: Request) {
    && r.params.Params? && r.params.transAmount.Text? && AllDigits(r.params.transAmount.text)
    && 1 <= Amount(r.params.transAmount.text) <= 999_999_999
    && r.params.transCurrency == Text("980") && r.params.merchantId == Text("TEST-MERCHANT")
    && (r.step == Missing || r.step == Text("1"))
  }

  /** What is wrong with another: a field missing, one ill-formed, the merchant, the amount. */
  function PurchaseFlaw(r: Request): Code {
    if !r.params.Params? || r.params.transAmount == Missing || r.params.transCurrency == Missing || r.params.merchantId == Missing
    then E(4)
    else if r.params.transAmount.Text? && AllDigits(r.params.transAmount.text) && r.params.transCurrency == Text("980")
            && r.params.merchantId.Text? && (r.step == Missing || r.step == Text("1"))
    then (if r.params.merchantId == Text("TEST-MERCHANT") then E(19) else E(7))
    else E(9)
  }

  /** Purchase: accepted exactly on a terminal on which none runs and for a good request; then it runs under the
      scenario that was armed and the stored result is gone. Refused, it changes nothing. */
  lemma WhatPurchaseDoes(t: Terminal, r: Request, now: int, start: int, stamp: int)
    requires Timely(t, now) && Served(t, r, now, "Purchase", Purchase)
    ensures var h := Handle(t, r, now, start, stamp);
      if Running(t, now) then h.reply == Reply("Purchase", E(6), NoBody) && Noticed(t, h.after, now)
      else if !GoodPurchase(r) then h.reply == Reply("Purchase", PurchaseFlaw(r), NoBody) && Noticed(t, h.after, now)
      else
        && h.reply == Reply("Purchase", NoError, EmptyBody)
        && h.after == Terminal(t.generation, t.armed,
             Some(Operation(start, t.armed,
                    Record(r.params.transAmount.text, "TEST-MERCHANT", if t.armed.errorCode.NoError? then "123456" else "",
                           t.armed.responseCode, t.armed.transactionResult, t.armed.resultFields, r.params.transactionUid, stamp),
                    None)),
             None)
  {
    TickNotices(t, now);
    ServedAlike(t, now);
    NamesKnown("Purchase");
    FaultIsFlaw(r);
    hide Ticked;
    hide StatusAt;
    hide MethodOf;
    hide Scripts;
    hide Running;
    hide Standing;
    hide PurchaseFault;
    hide PurchaseFlaw;
    hide Amount;
    hide AllDigits;
  }

  lemma FaultIsFlaw(r: Request)
    ensures PurchaseFault(r) == if GoodPurchase(r) then NoError else PurchaseFlaw(r)
    ensures GoodPurchase(r) ==> r.params.merchantId.text == "TEST-MERCHANT"
  {
    hide Amount;
  }

  /** The requests that only tell: the phase, that the terminal is there, its lists and its make. */
  lemma WhatTheOthersSay(t: Terminal, r: Request, now: int, start: int, stamp: int)
    requires Timely(t, now)
    ensures var h := Handle(t, r, now, start, stamp);
      && (Served(t, r, now, "GetStatus", GetStatus) ==> h.reply == Reply("GetStatus", NoError, StatusBody(StatusAt(t, now))))
      && (Served(t, r, now, "PingDevice", PingDevice) ==> h.reply == Reply("PingDevice", NoError, EmptyBody))
      && (Served(t, r, now, "GetMerchantList", GetMerchantList) ==> h.reply == Reply("GetMerchantList", NoError, MerchantBody))
      && (Served(t, r, now, "GetMerchantListDetailed", GetMerchantListDetailed) ==>
            h.reply == Reply("GetMerchantListDetailed", NoError, MerchantDetailBody))
      && (Served(t, r, now, "GetTerminalInfo", GetTerminalInfo) ==> h.reply == Reply("GetTerminalInfo", NoError, InfoBody))
      && (r.name.Some? && r.name.value in NAMES && !(NAMES[r.name.value] in {Purchase, Interrupt}) ==> Noticed(t, h.after, now))
  {
    TickNotices(t, now);
    ServedAlike(t, now);
    if r.name.Some? { NamesKnown(r.name.value); }
    hide Ticked;
    hide StatusAt;
    hide Noticed;
    hide MethodOf;
    hide Governing;
    hide Scripts;
  }

  /** After a reset a good purchase is approved whatever went before: it takes the card for a tenth of a second
      and the bank for another, and is read back from then on with its authorisation. */
  lemma ResetTerminalApproves(
    t: Terminal, preserve: bool, buy: Request, now: int, start: int, stamp: int, ask: Request, later: int)
    requires buy.name == Some("Purchase") && GoodPurchase(buy)
    requires ask.name == Some("GetLastResult") && !ask.params.NotAnObject? && start <= later
    ensures var u := Reset(t, preserve); var h := Handle(u, buy, now, start, stamp);
      && u.generation == t.generation + 1 && u.last == (if preserve then t.last else None)
      && h.reply == Reply("Purchase", NoError, EmptyBody)
      && StatusAt(h.after, later) == (if later < start + 100 then S02 else if later < start + 200 then S04 else S00)
      && (later >= start + 200 ==>
            Handle(h.after, ask, later, 0, 0).reply == Reply("GetLastResult", NoError, RecordBody(
              Record(buy.params.transAmount.text, "TEST-MERCHANT", "123456", "0000", "APPROVED-ONLINE", map[],
                buy.params.transactionUid, stamp))))
  {
    var u := Reset(t, preserve);
    WhatPurchaseDoes(u, buy, now, start, stamp);
    var bought := Handle(u, buy, now, start, stamp).after;
    assert bought.active.Some? && bought.active.value.scenario == u.armed by { hide GoodPurchase; }
    var phases := u.armed.phases;
    assert phases[..0] == [] && phases[..1] == [Phase(S02, 100)] && phases[1..] == [Phase(S04, 100)] && phases[1..][1..] == [];
    assert Duration(phases) == 200 && Duration(phases[..1]) == 100 by { assert [Phase(S02, 100)][1..] == []; }
    hide Handle;
    hide GoodPurchase;
    StatusIsThePhase(bought, later, 0);
    StatusIsThePhase(bought, later, 1);
    WhatLastResultSays(bought, ask, later, 0, 0);
    hide StatusAt;
    hide Noticed;
  }

  // ---------------------------------------------------------------- an interrupted purchase stays interrupted

  /** The step is a purchase that was accepted. */
  predicate Accepts(t: Terminal, s: Step) {
    s.call.HandleCall? && s.call.request.name == Some("Purchase") && Take(t, s).shown == Replied(Reply("Purchase", NoError, EmptyBody))
  }

  /** No purchase is accepted along the run and no reset discards the result. */
  predicate LeavesResult(t: Terminal, run: seq<Step>)
    decreases |run|
  {
    run == []
    || (!Accepts(t, run[0]) && run[0].call != ResetCall(false) && LeavesResult(Take(t, run[0]).after, run[1..]))
  }

  lemma IdleStays(t: Terminal, s: Step)
    requires t.active.None? && !Accepts(t, s) && s.call != ResetCall(false)
    ensures var u := Take(t, s).after; u.active.None? && u.last == t.last
  {
    if s.call.HandleCall? {
      var r := s.call.request;
      assert Ticked(t, s.now) == t && !Running(t, s.now) && Standing(t, s.now) == t.last;
      if r.name.None? || r.name.value !in NAMES || r.params.NotAnObject? || NAMES[r.name.value] in Scripts(t, s.now).requestErrors {
        WhatIsNotServed(t, r, s.now, s.call.start, s.call.stamp);
      } else if r.name.value == "Interrupt" {
        WhatInterruptDoes(t, r, s.now, s.call.start, s.call.stamp);
      } else if r.name.value == "Purchase" {
        WhatPurchaseDoes(t, r, s.now, s.call.start, s.call.stamp);
      } else {
        WhatTheOthersSay(t, r, s.now, s.call.start, s.call.stamp);
      }
      hide Handle;
      hide PurchaseFlaw;
      hide GoodPurchase;
    }
  }

  lemma {:induction false} ResultStays(t: Terminal, run: seq<Step>)
    requires t.active.None? && LeavesResult(t, run)
    ensures End(t, run).active.None? && End(t, run).last == t.last
    decreases |run|
  {
    hide Take;
    hide Accepts;
    if run != [] {
      IdleStays(t, run[0]);
      ResultStays(Take(t, run[0]).after, run[1..]);
    }
  }

  /** A purchase interrupted in S02, S03 or S08 is read back by GetLastResult, and by GetResultByUid under its
      uid, as E12 with empty response code and transaction result, whatever happens in between but an accepted
      purchase or a discarding reset. */
  lemma InterruptedIsReadBack(
    t: Terminal, interrupt: Request, now: int, start: int, stamp: int, run: seq<Step>,
    last: Request, byUid: Request, later: int, start': int, stamp': int)
    requires Timely(t, now) && Served(t, interrupt, now, "Interrupt", Interrupt)
    requires Running(t, now) && StatusAt(t, now) in {S02, S03, S08}
    requires LeavesResult(Handle(t, interrupt, now, start, stamp).after, run)
    requires var u := End(Handle(t, interrupt, now, start, stamp).after, run);
      Served(u, last, later, "GetLastResult", GetLastResult) && Served(u, byUid, later, "GetResultByUid", GetResultByUid)
    requires byUid.params.Params? && byUid.params.transactionUid.Text?
    requires byUid.params.transactionUid == t.active.value.result.transactionUid
    ensures var u := End(Handle(t, interrupt, now, start, stamp).after, run);
      var record := t.active.value.result.(responseCode := "", transactionResult := "");
      && Handle(u, last, later, start', stamp').reply == Reply("GetLastResult", E(12), RecordBody(record))
      && Handle(u, byUid, later, start', stamp').reply == Reply("GetResultByUid", E(12), RecordBody(record))
  {
    WhatInterruptDoes(t, interrupt, now, start, stamp);
    ResultStays(Handle(t, interrupt, now, start, stamp).after, run);
    var u := End(Handle(t, interrupt, now, start, stamp).after, run);
    hide Handle;
    hide End;
    hide LeavesResult;
    hide StatusAt;
    hide Served;
    WhatLastResultSays(u, last, later, start', stamp');
    WhatResultByUidSays(u, byUid, later, start', stamp');
    hide Noticed;
  }

  // ---------------------------------------------------------------- what a stored result stands for

  /** Step `k` of the run is a purchase accepted as this operation. */
  predicate AcceptedAs(run: seq<Step>, k: nat, op: Operation) {
    && k < |run| && Accepts(End(INITIAL, run[..k]), run[k]) && op.start == run[k].call.start
    && End(INITIAL, run[..k]).armed == op.scenario
    && Take(End(INITIAL, run[..k]), run[k]).after.active == Some(op)
  }

  /** The running operation, its cached phase apart, was accepted along the run. */
  ghost predicate Known(run: seq<Step>, op: Operation) { exists k: nat :: AcceptedAs(run, k, op.(status := None)) }

  /** The stored result is that of an accepted purchase: interrupted, or gone through all its phases by a later
      step and stored under its scenario's code. */
  ghost predicate Earned(run: seq<Step>, f: Finished) { exists k: nat, op :: EarnedAs(run, f, k, op) }

  ghost predicate EarnedAs(run: seq<Step>, f: Finished, k: nat, op: Operation) {
    && AcceptedAs(run, k, op) && f.scenario == op.scenario
    && (|| (f.code == E(12) && f.params == op.result.(responseCode := "", transactionResult := ""))
        || (f.code == op.scenario.errorCode && f.params == op.result && OverBy(run, k, op)))
  }

  /** A later step came when all phases were spent. */
  ghost predicate OverBy(run: seq<Step>, k: nat, op: Operation) {
    exists j :: k < j < |run| && op.start + Duration(op.scenario.phases) <= run[j].now
  }

  ghost predicate Accounted(run: seq<Step>) {
    var t := End(INITIAL, run);
    (t.active.Some? ==> Known(run, t.active.value)) && (t.last.Some? ==> Earned(run, t.last.value))
  }

  lemma EndOfMore(run: seq<Step>, s: Step)
    ensures End(INITIAL, run + [s]) == Take(End(INITIAL, run), s).after
    ensures forall k: nat :: k <= |run| ==> (run + [s])[..k] == run[..k]
  {
    RunsInTurn(INITIAL, run, [s], 0);
    assert [s][1..] == [];
    assert End(End(INITIAL, run), [s]) == Take(End(INITIAL, run), s).after;
    hide Take;
  }

  lemma StillAccepted(run: seq<Step>, s: Step, k: nat, op: Operation)
    requires AcceptedAs(run, k, op)
    ensures AcceptedAs(run + [s], k, op)
  {
    EndOfMore(run, s);
    hide End;
    hide Accepts;
    hide Take;
  }

  lemma StillEarned(run: seq<Step>, s: Step, f: Finished)
    requires Earned(run, f)
    ensures Earned(run + [s], f)
  {
    var k: nat, op :| EarnedAs(run, f, k, op);
    StillAccepted(run, s, k, op);
    hide AcceptedAs;
    if OverBy(run, k, op) {
      var j :| k < j < |run| && op.start + Duration(op.scenario.phases) <= run[j].now;
      assert (run + [s])[j] == run[j];
      assert OverBy(run + [s], k, op);
    }
    assert EarnedAs(run + [s], f, k, op);
  }

  lemma StillKnown(run: seq<Step>, s: Step, op: Operation, later: Operation)
    requires Known(run, op) && later.(status := None) == op.(status := None)
    ensures Known(run + [s], later)
  {
    var k: nat :| AcceptedAs(run, k, op.(status := None));
    StillAccepted(run, s, k, op.(status := None));
    hide AcceptedAs;
  }

  /** What one call can do to the running operation and the stored result. */
  predicate Outcomes(t: Terminal, s: Step, u: Terminal) {
    && (u.active.Some? ==>
          || (t.active.Some? && u.active.value.(status := None) == t.active.value.(status := None))
          || (Accepts(t, s) && u.active == Some(u.active.value.(status := None)) && u.active.value.start == s.call.start
              && u.active.value.scenario == t.armed))
    && (u.last.Some? ==> u.last == t.last || (t.active.Some? && StoredFrom(t.active.value, s.now, u.last.value)))
  }

  predicate StoredFrom(op: Operation, now: int, f: Finished) {
    f.scenario == op.scenario
    && (|| (f.code == E(12) && f.params == op.result.(responseCode := "", transactionResult := ""))
        || (f.code == op.scenario.errorCode && f.params == op.result && op.start + Duration(op.scenario.phases) <= now))
  }

  lemma NoticedOutcomes(t: Terminal, s: Step, u: Terminal)
    requires Noticed(t, u, s.now) && Timely(t, s.now)
    ensures Outcomes(t, s, u)
  {
    hide Accepts;
  }

  lemma StepOutcomes(t: Terminal, s: Step)
    requires Timely(t, s.now)
    ensures Outcomes(t, s, Take(t, s).after)
  {
    match s.call
    case TickCall => TickNotices(t, s.now); hide Ticked; hide Noticed; NoticedOutcomes(t, s, Ticked(t, s.now)); hide Outcomes;
    case StateCall => TickNotices(t, s.now); hide Ticked; hide Noticed; NoticedOutcomes(t, s, Ticked(t, s.now)); hide Outcomes;
    case HandleCall(r, start, stamp) => RequestOutcomes(t, s, r, start, stamp); hide Outcomes; hide Handle;
    case ArmCall(_) =>
    case ResetCall(_) =>
  }

  lemma RequestOutcomes(t: Terminal, s: Step, r: Request, start: int, stamp: int)
    requires Timely(t, s.now) && s.call == HandleCall(r, start, stamp)
    ensures Outcomes(t, s, Handle(t, r, s.now, start, stamp).after)
  {
    var h := Handle(t, r, s.now, start, stamp);
    if r.name.None? || r.name.value !in NAMES || r.params.NotAnObject? || NAMES[r.name.value] in Scripts(t, s.now).requestErrors {
      WhatIsNotServed(t, r, s.now, start, stamp);
      hide Noticed;
      hide Handle;
      NoticedOutcomes(t, s, h.after);
    } else if r.name.value == "Interrupt" {
      WhatInterruptDoes(t, r, s.now, start, stamp);
      hide Handle;
      hide StatusAt;
      if Noticed(t, h.after, s.now) { NoticedOutcomes(t, s, h.after); }
      hide Noticed;
    } else if r.name.value == "Purchase" {
      WhatPurchaseDoes(t, r, s.now, start, stamp);
      assert Take(t, s) == Outcome(h.after, Replied(h.reply));
      hide Handle;
      if Noticed(t, h.after, s.now) { NoticedOutcomes(t, s, h.after); }
      hide Noticed;
      hide GoodPurchase;
      hide PurchaseFlaw;
    } else {
      WhatTheOthersSay(t, r, s.now, start, stamp);
      hide Noticed;
      hide Handle;
      NoticedOutcomes(t, s, h.after);
    }
  }

  lemma AccountedStep(run: seq<Step>, s: Step)
    requires Accounted(run) && Timely(End(INITIAL, run), s.now)
    ensures Accounted(run + [s])
  {
    var t, more := End(INITIAL, run), run + [s];
    EndOfMore(run, s);
    var u := Take(t, s).after;
    StepOutcomes(t, s);
    assert End(INITIAL, more) == u && more[|run|] == s && more[..|run|] == run;
    hide End;
    if u.active.Some? {
      if t.active.Some? && u.active.value.(status := None) == t.active.value.(status := None) {
        StillKnown(run, s, t.active.value, u.active.value);
      } else {
        assert AcceptedAs(more, |run|, u.active.value.(status := None));
      }
    }
    hide Take;
    hide Accepts;
    if u.last.Some? {
      if u.last == t.last {
        StillEarned(run, s, u.last.value);
      } else {
        NewlyEarned(run, s, t.active.value, u.last.value);
      }
    }
    hide Known;
    hide Earned;
  }

  lemma NewlyEarned(run: seq<Step>, s: Step, op: Operation, f: Finished)
    requires Known(run, op) && StoredFrom(op, s.now, f)
    ensures Earned(run + [s], f)
  {
    var more := run + [s];
    var k: nat :| AcceptedAs(run, k, op.(status := None));
    assert k < |run|;
    StillAccepted(run, s, k, op.(status := None));
    hide AcceptedAs;
    assert more[|run|] == s;
    assert EarnedAs(more, f, k, op.(status := None));
  }

  lemma {:induction false} TimelyEnd(t: Terminal, run: seq<Step>, now: int, later: int)
    requires Timely(t, now) && Ordered(run, now) && LastMoment(run, now) <= later
    ensures Timely(End(t, run), later)
    ensures now <= LastMoment(run, now)
    decreases |run|
  {
    if run != [] {
      TimelyStep(t, run[0], now);
      hide Take;
      TimelyEnd(Take(t, run[0]).after, run[1..], Finish(run[0]), later);
    }
  }

  lemma TimelyStep(t: Terminal, s: Step, now: int)
    requires Timely(t, now) && now <= s.now && (s.call.HandleCall? ==> s.now <= s.call.start)
    ensures Timely(Take(t, s).after, Finish(s)) && now <= Finish(s)
  {
    StepOutcomes(t, s);
    hide Take;
    hide Accepts;
    hide StoredFrom;
  }

  lemma {:induction false} RunAccounted(run: seq<Step>, now: int)
    requires Ordered(run, now)
    ensures Accounted(run)
    decreases |run|
  {
    if run != [] {
      var n := |run| - 1;
      var past, s := run[..n], run[n];
      assert run == past + [s];
      RunsInTurn(INITIAL, past, [s], now);
      assert Ordered(past, now) && Ordered([s], LastMoment(past, now)) && LastMoment(past, now) <= s.now;
      hide Ordered;
      RunAccounted(past, now);
      TimelyEnd(INITIAL, past, now, s.now);
      hide End;
      hide Accounted;
      AccountedStep(past, s);
    }
  }

  /** After any run in which the clock never goes back, a stored result that shows no error belongs to a
      purchase accepted along the run, under a scenario without an error code, whose phases were all spent at
      some later step; any stored result is that, an error its scenario scripts, or an interruption. */
  lemma StoredResultsAreEarned(run: seq<Step>, now: int)
    requires Ordered(run, now)
    ensures var t := End(INITIAL, run);
      t.last.Some? ==>
        && Earned(run, t.last.value)
        && (t.last.value.code.NoError? ==>
              exists k: nat, op :: AcceptedAs(run, k, op) && op.scenario == t.last.value.scenario && op.result == t.last.value.params
                                   && op.scenario.errorCode.NoError? && OverBy(run, k, op))
  {
    RunAccounted(run, now);
    hide End;
    hide AcceptedAs;
    hide OverBy;
  }
}
