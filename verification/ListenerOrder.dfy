/** The generation the listener publishes: it never falls as long as resets are sent in order, and a
    reset sent out of order can make it fall. */
module ListenerOrder {
  import opened Prelude
  import opened EngineModel
  import opened EngineInvariants
  import opened EngineRuns
  import opened ControlPlane
  import opened PaymentWire
  import M = EngineModel

  // ---------------------------------------------------------------- sends in order

  /** The listener has published, or is about to publish, what the watch says, unless it has yet to notice
      a change. */
  predicate Noticed(w: Wire) {
    !w.changed ==> w.watch == if w.phase.Publishing? then w.phase.generation else w.listenerGeneration
  }

  /** And what it has published, and what it is about to publish, trails the watch. */
  predicate Tracked(w: Wire) {
    && Noticed(w) && w.listenerGeneration <= w.watch
    && (w.phase.Publishing? ==> w.listenerGeneration <= w.phase.generation <= w.watch)
  }

  /** A reset is sent only over an older generation. */
  predicate SendsUp(w: Wire, step: PaymentWire.Step) { step.SendReset? ==> w.watch <= step.generation }

  ghost predicate InOrder(w: Wire, steps: seq<PaymentWire.Step>, controlled: bool)
    requires Safe(w) && PaymentWire.Possible(w, steps, controlled)
    decreases |steps|
  {
    steps == []
    || (SendsUp(w, steps[0])
        && (StepKeeps(w, steps[0], controlled); InOrder(After(w, steps[0], controlled), steps[1..], controlled)))
  }

  /** At no step of the run is a lower generation published than before it. */
  ghost predicate NeverFalls(w: Wire, steps: seq<PaymentWire.Step>, controlled: bool)
    requires Safe(w) && PaymentWire.Possible(w, steps, controlled)
    decreases |steps|
  {
    steps == []
    || (w.listenerGeneration <= After(w, steps[0], controlled).listenerGeneration
        && (StepKeeps(w, steps[0], controlled); NeverFalls(After(w, steps[0], controlled), steps[1..], controlled)))
  }

  /** The fields that only the listener and the sends of resets touch. */
  predicate SameListener(w: Wire, t: Wire) {
    && t.watch == w.watch && t.changed == w.changed && t.phase == w.phase && t.listenerGeneration == w.listenerGeneration
    && t.listening == w.listening
  }

  lemma OthersLeaveTheListener(w: Wire, step: PaymentWire.Step, controlled: bool)
    requires Settled(w.data.engine) && Room(w.data) && Enabled(w, step)
    requires !IsListening(step) && !step.Tag?
    ensures SameListener(w, After(w, step, controlled))
  {
    SettledIsSteppable(w.data.engine);
    hide Settled;
    hide Room;
    hide Actionable;
    hide AllSteppable;
    hide M.Advance;
    hide PurchaseOn;
    hide CheckOn;
    hide PollOn;
    hide WriteOn;
    hide MarkOn;
    hide ControlOn;
    hide Closed;
    match step
    case Control(c) => ControlLeavesTheListener(w, c, controlled);
    case End(socket) => ClosedLeavesTheListener(w, socket);
    case Purchase(socket, device, amount, merchant) => PurchaseLeavesTheListener(w, socket, device, amount, merchant);
    case Check(socket) => TurnsLeaveTheListener(w, socket);
    case Poll(socket) => TurnsLeaveTheListener(w, socket);
    case Write(socket) => WriteLeavesTheListener(w, socket);
    case Mark(socket) => TurnsLeaveTheListener(w, socket);
    case _ =>
  }

  lemma ControlLeavesTheListener(w: Wire, c: ControlPlane.Command, controlled: bool)
    requires Settled(w.data.engine) && Room(w.data)
    ensures SameListener(w, ControlOn(w, c, controlled))
  {
    hide Settled;
    hide Room;
    hide Execute;
    hide Applied;
  }

  lemma ClosedLeavesTheListener(w: Wire, socket: nat)
    ensures SameListener(w, Closed(w, socket))
  {
  }

  lemma TurnsLeaveTheListener(w: Wire, socket: nat)
    requires Holds(w, socket)
    ensures SameListener(w, CheckOn(w, socket)) && SameListener(w, PollOn(w, socket)) && SameListener(w, MarkOn(w, socket))
  {
    hide Respond;
    hide ResponseDue;
    hide M.Deliver;
  }

  lemma WriteLeavesTheListener(w: Wire, socket: nat)
    requires Enabled(w, Write(socket))
    ensures SameListener(w, WriteOn(w, socket))
  {
  }

  lemma PurchaseLeavesTheListener(w: Wire, socket: nat, device: string, amount: nat, merchant: Option<string>)
    requires Settled(w.data.engine) && socket in w.connections && w.connections[socket].Reading?
    ensures SameListener(w, PurchaseOn(w, socket, device, amount, merchant))
  {
    SettledIsSteppable(w.data.engine);
    hide Settled;
    hide M.Start;
  }

  /** What each step makes of those fields. */
  predicate ListenerMoves(w: Wire, step: PaymentWire.Step, t: Wire) {
    match step
    case SendReset(g) => t.watch == g && t.changed && t.phase == w.phase && t.listenerGeneration == w.listenerGeneration
    case ReadWatch =>
      t.watch == w.watch && !t.changed && t.phase == Publishing(w.watch) && t.listenerGeneration == w.listenerGeneration
    case Publish =>
      w.phase.Publishing? && t.watch == w.watch && t.changed == w.changed && t.phase.Waiting?
      && t.listenerGeneration == w.phase.generation
    case _ =>
      t.watch == w.watch && t.changed == w.changed && t.listenerGeneration == w.listenerGeneration
      && (t.phase == w.phase || (!w.phase.Publishing? && !t.phase.Publishing?))
  }

  lemma StepMovesListener(w: Wire, step: PaymentWire.Step, controlled: bool)
    requires Settled(w.data.engine) && Room(w.data) && Enabled(w, step)
    ensures ListenerMoves(w, step, After(w, step, controlled))
  {
    hide Settled;
    hide Room;
    if !IsListening(step) && !step.Tag? {
      OthersLeaveTheListener(w, step, controlled);
      hide After;
    } else {
      SettledIsSteppable(w.data.engine);
      hide Actionable;
      hide AllSteppable;
    }
  }

  lemma TrackedStep(w: Wire, step: PaymentWire.Step, controlled: bool)
    requires Safe(w) && Room(w.data) && Enabled(w, step) && Tracked(w) && SendsUp(w, step)
    ensures Settled(w.data.engine) && Tracked(After(w, step, controlled))
    ensures w.listenerGeneration <= After(w, step, controlled).listenerGeneration
  {
    SafeIsSettled(w);
    hide Safe;
    hide Settled;
    hide Room;
    hide After;
    hide Enabled;
    StepMovesListener(w, step, controlled);
  }

  /** In whatever order resets are sent. */
  lemma NoticedStep(w: Wire, step: PaymentWire.Step, controlled: bool)
    requires Safe(w) && Room(w.data) && Enabled(w, step) && Noticed(w)
    ensures Settled(w.data.engine) && Noticed(After(w, step, controlled))
  {
    SafeIsSettled(w);
    hide Safe;
    hide Settled;
    hide Room;
    hide After;
    hide Enabled;
    StepMovesListener(w, step, controlled);
  }

  lemma {:induction false} RunIsNoticed(w: Wire, steps: seq<PaymentWire.Step>, controlled: bool)
    requires Safe(w) && PaymentWire.Possible(w, steps, controlled) && Noticed(w)
    ensures Noticed(PaymentWire.Run(w, steps, controlled))
    decreases |steps|
  {
    hide Safe;
    hide Room;
    hide After;
    hide Enabled;
    hide Noticed;
    if steps != [] {
      StepKeeps(w, steps[0], controlled);
      NoticedStep(w, steps[0], controlled);
      RunIsNoticed(After(w, steps[0], controlled), steps[1..], controlled);
    }
  }

  lemma {:induction false} InOrderClimbs(w: Wire, steps: seq<PaymentWire.Step>, controlled: bool)
    requires Safe(w) && PaymentWire.Possible(w, steps, controlled) && Tracked(w) && InOrder(w, steps, controlled)
    ensures NeverFalls(w, steps, controlled) && Tracked(PaymentWire.Run(w, steps, controlled))
    decreases |steps|
  {
    hide Safe;
    hide Room;
    hide After;
    hide Enabled;
    if steps != [] {
      hide Tracked;
      SafeIsSettled(w);
      StepKeeps(w, steps[0], controlled);
      TrackedStep(w, steps[0], controlled);
      InOrderClimbs(After(w, steps[0], controlled), steps[1..], controlled);
    }
  }

  /** From the start, if every reset is sent over an older generation, the published one never falls. */
  lemma InOrderNeverFalls(epoch: nat, steps: seq<PaymentWire.Step>, controlled: bool)
    requires Safe(Initial(epoch)) && PaymentWire.Possible(Initial(epoch), steps, controlled)
    requires InOrder(Initial(epoch), steps, controlled)
    ensures NeverFalls(Initial(epoch), steps, controlled) && Tracked(PaymentWire.Run(Initial(epoch), steps, controlled))
  {
    hide Safe;
    InOrderClimbs(Initial(epoch), steps, controlled);
  }

  // ---------------------------------------------------------------- runs put together

  lemma {:induction false} RunsTogether(w: Wire, a: seq<PaymentWire.Step>, b: seq<PaymentWire.Step>, controlled: bool)
    requires Safe(w) && PaymentWire.Possible(w, a, controlled)
    requires PaymentWire.Possible(PaymentWire.Run(w, a, controlled), b, controlled)
    ensures PaymentWire.Possible(w, a + b, controlled)
    ensures PaymentWire.Run(w, a + b, controlled) == PaymentWire.Run(PaymentWire.Run(w, a, controlled), b, controlled)
    ensures NeverFalls(w, a + b, controlled) ==> NeverFalls(PaymentWire.Run(w, a, controlled), b, controlled)
    decreases |a|
  {
    hide Safe;
    hide Room;
    hide After;
    hide Enabled;
    if a == [] {
      assert a + b == b;
    } else {
      SafeIsSettled(w);
      StepKeeps(w, a[0], controlled);
      RunsTogether(After(w, a[0], controlled), a[1..], b, controlled);
      assert (a + b)[0] == a[0] && (a + b)[1..] == a[1..] + b;
    }
  }

  lemma {:induction false} NeverFallsOverall(w: Wire, steps: seq<PaymentWire.Step>, controlled: bool)
    requires Safe(w) && PaymentWire.Possible(w, steps, controlled) && NeverFalls(w, steps, controlled)
    ensures w.listenerGeneration <= PaymentWire.Run(w, steps, controlled).listenerGeneration
    decreases |steps|
  {
    hide Safe;
    hide Room;
    hide After;
    hide Enabled;
    if steps != [] {
      SafeIsSettled(w);
      StepKeeps(w, steps[0], controlled);
      NeverFallsOverall(After(w, steps[0], controlled), steps[1..], controlled);
    }
  }

  /** No reset other than `g` is sent. */
  predicate SendsOnly(steps: seq<PaymentWire.Step>, g: nat) {
    forall i :: 0 <= i < |steps| && steps[i].SendReset? ==> steps[i].generation == g
  }

  predicate SendsNone(steps: seq<PaymentWire.Step>) { forall i :: 0 <= i < |steps| ==> !steps[i].SendReset? }

  /** Some run without a send leads from `w` to `u`. */
  ghost predicate Reaches(w: Wire, u: Wire, controlled: bool)
    requires Safe(w)
  {
    exists steps :: PaymentWire.Possible(w, steps, controlled) && SendsNone(steps) && PaymentWire.Run(w, steps, controlled) == u
  }

  lemma ReachesItself(w: Wire, controlled: bool)
    requires Safe(w)
    ensures Reaches(w, w, controlled)
  {
    var none: seq<PaymentWire.Step> := [];
    hide Safe;
    assert PaymentWire.Possible(w, none, controlled) && SendsNone(none) && PaymentWire.Run(w, none, controlled) == w;
  }

  lemma ReachesNext(w: Wire, step: PaymentWire.Step, controlled: bool)
    requires Safe(w) && Room(w.data) && Enabled(w, step) && !step.SendReset?
    ensures Safe(After(w, step, controlled)) && Reaches(w, After(w, step, controlled), controlled)
  {
    StepKeeps(w, step, controlled);
    hide Safe;
    hide After;
    hide Enabled;
    var steps := [step];
    assert steps[1..] == [] && steps[0] == step;
    assert SendsNone(steps) by { assert forall i :: 0 <= i < |steps| ==> steps[i] == step; }
    assert PaymentWire.Possible(w, steps, controlled);
    assert PaymentWire.Run(w, steps, controlled) == After(w, step, controlled);
  }

  lemma ReachesOn(w: Wire, u: Wire, v: Wire, controlled: bool)
    requires Safe(w) && Safe(u) && Reaches(w, u, controlled) && Reaches(u, v, controlled)
    ensures Reaches(w, v, controlled)
  {
    var a :| PaymentWire.Possible(w, a, controlled) && SendsNone(a) && PaymentWire.Run(w, a, controlled) == u;
    var b :| PaymentWire.Possible(u, b, controlled) && SendsNone(b) && PaymentWire.Run(u, b, controlled) == v;
    RunsTogether(w, a, b, controlled);
    hide Safe;
    hide PaymentWire.Possible;
    hide PaymentWire.Run;
    assert SendsNone(a + b);
  }

  // ---------------------------------------------------------------- the listener catches up

  lemma {:induction false} ReachesAllEnded(w: Wire, controlled: bool)
    requires Safe(w) && Room(w.data)
    ensures Safe(w.(connections := map[])) && Reaches(w, w.(connections := map[]), controlled)
    decreases |w.connections|
  {
    hide Safe;
    hide Reaches;
    if w.connections == map[] {
      ReachesItself(w, controlled);
    } else {
      var socket :| socket in w.connections;
      var t := Closed(w, socket);
      AfterEnd(w, socket, controlled);
      hide After;
      ReachesNext(w, End(socket), controlled);
      ReachesAllEnded(t, controlled);
      ReachesOn(w, t, w.(connections := map[]), controlled);
    }
  }

  lemma AfterEnd(w: Wire, socket: nat, controlled: bool)
    requires Safe(w) && Room(w.data) && socket in w.connections
    ensures Settled(w.data.engine) && After(w, End(socket), controlled) == Closed(w, socket)
  {
    SafeIsSettled(w);
    hide Settled;
    hide Safe;
  }

  /** The state once the listener has published what the watch says and no connection is left. */
  function CaughtUp(w: Wire): Wire {
    w.(phase := Waiting, changed := false, connections := map[], listenerGeneration := w.watch)
  }

  /** After any run from the start, whatever the order of its sends, a listener that has not stopped can
      publish what the watch says, and be rid of every connection, without a further send. */
  lemma ListenerCanAlwaysCatchUp(epoch: nat, past: seq<PaymentWire.Step>, controlled: bool)
    requires Safe(Initial(epoch)) && PaymentWire.Possible(Initial(epoch), past, controlled)
    requires var w := PaymentWire.Run(Initial(epoch), past, controlled); Room(w.data) && !w.phase.Stopped?
    ensures var w := PaymentWire.Run(Initial(epoch), past, controlled);
      Safe(CaughtUp(w)) && Reaches(w, CaughtUp(w), controlled)
  {
    hide Safe;
    hide Reaches;
    RunIsNoticed(Initial(epoch), past, controlled);
    hide PaymentWire.Run;
    hide PaymentWire.Possible;
    ListenerCatchesUp(PaymentWire.Run(Initial(epoch), past, controlled), controlled);
  }

  /** A listener that has not stopped can catch up without a further send. */
  lemma ListenerCatchesUp(w: Wire, controlled: bool)
    requires Safe(w) && Room(w.data) && !w.phase.Stopped? && Noticed(w)
    ensures Safe(CaughtUp(w)) && Reaches(w, CaughtUp(w), controlled)
  {
    hide Reaches;
    hide Safe;
    var u := w.(connections := map[]);
    ReachesAllEnded(w, controlled);
    ReachesWaiting(u, controlled);
    var v := Settle(u);
    ReachesOn(w, u, v, controlled);
    if v.changed {
      ReachesPublished(v.(phase := Joining), controlled) by { ListenerStep(v, Wake, controlled); }
      ListenerStep(v, Wake, controlled);
      ReachesOn(v, v.(phase := Joining), CaughtUp(w), controlled);
      ReachesOn(w, v, CaughtUp(w), controlled);
    }
  }

  /** The listener back in its loop. */
  function Settle(u: Wire): Wire {
    match u.phase
    case Joining => u.(phase := Waiting, changed := false, listenerGeneration := u.watch)
    case Publishing(h) => u.(phase := Waiting, listenerGeneration := h)
    case _ => u.(phase := Waiting)
  }

  lemma ListenerStep(w: Wire, step: PaymentWire.Step, controlled: bool)
    requires Safe(w) && Room(w.data) && Enabled(w, step)
    requires step.Wake? || step.ReadWatch? || step.Publish?
    ensures Settled(w.data.engine) && Safe(After(w, step, controlled)) && Reaches(w, After(w, step, controlled), controlled)
    ensures After(w, step, controlled)
         == match step
            case Wake => w.(phase := Joining)
            case ReadWatch => w.(phase := Publishing(w.watch), changed := false)
            case Publish => w.(phase := Waiting, listenerGeneration := w.phase.generation)
            case _ => w
  {
    ReachesNext(w, step, controlled);
    SafeIsSettled(w);
    hide Safe;
    hide Settled;
    hide Reaches;
  }

  lemma ReachesPublished(w: Wire, controlled: bool)
    requires Safe(w) && Room(w.data) && w.phase.Joining? && w.connections == map[]
    ensures var t := w.(phase := Waiting, changed := false, listenerGeneration := w.watch); Safe(t) && Reaches(w, t, controlled)
  {
    hide Reaches;
    hide Safe;
    var read := w.(phase := Publishing(w.watch), changed := false);
    ListenerStep(w, ReadWatch, controlled);
    ListenerStep(read, Publish, controlled);
    hide After;
    ReachesOn(w, read, w.(phase := Waiting, changed := false, listenerGeneration := w.watch), controlled);
  }

  lemma ReachesWaiting(u: Wire, controlled: bool)
    requires Safe(u) && Room(u.data) && !u.phase.Stopped? && u.connections == map[]
    ensures Safe(Settle(u)) && Reaches(u, Settle(u), controlled)
  {
    hide Reaches;
    hide Safe;
    match u.phase
    case Joining => ReachesPublished(u, controlled);
    case Publishing(_) => ListenerStep(u, Publish, controlled);
    case Tagging =>
      ReachesNext(u, Tag(0), controlled);
      AfterTag(u, controlled);
      var tagged := u.(phase := Waiting, connections := map[0 := Reading(u.data.engine.generation)]);
      ReachesAllEnded(tagged, controlled);
      ReachesOn(u, tagged, Settle(u), controlled);
    case _ => ReachesItself(u, controlled);
  }

  lemma AfterTag(u: Wire, controlled: bool)
    requires Safe(u) && Room(u.data) && u.phase.Tagging? && u.connections == map[]
    ensures Settled(u.data.engine)
    ensures After(u, Tag(0), controlled) == u.(phase := Waiting, connections := map[0 := Reading(u.data.engine.generation)])
  {
    SafeIsSettled(u);
    hide Settled;
    hide Safe;
  }

  // ---------------------------------------------------------------- which send can make it fall

  function Handshake(generation: nat): seq<PaymentWire.Step> { [SendReset(generation), Wake, ReadWatch, Publish] }

  /** The state after a send that the listener has noticed and published. */
  function Announce(w: Wire, g: nat): Wire {
    w.(watch := g, changed := false, listenerGeneration := g, unsent := w.unsent - {g}, waiting := w.waiting + {g})
  }

  lemma SendOf(w: Wire, g: nat, controlled: bool)
    requires Safe(w) && Room(w.data) && g in w.unsent
    ensures Settled(w.data.engine)
    ensures After(w, SendReset(g), controlled)
         == w.(watch := g, changed := true, unsent := w.unsent - {g}, waiting := w.waiting + {g})
  {
    SafeIsSettled(w);
    hide Settled;
    hide Safe;
  }

  lemma AnnounceThen(w: Wire, g: nat, rest: seq<PaymentWire.Step>, controlled: bool)
    requires Safe(w) && Room(w.data) && w.phase.Waiting? && w.connections == map[] && g in w.unsent
    ensures Safe(Announce(w, g))
    ensures PaymentWire.Possible(w, Handshake(g) + rest, controlled)
       <==> PaymentWire.Possible(Announce(w, g), rest, controlled)
    ensures PaymentWire.Possible(w, Handshake(g) + rest, controlled) ==>
      PaymentWire.Run(w, Handshake(g) + rest, controlled) == PaymentWire.Run(Announce(w, g), rest, controlled)
  {
    hide Safe;
    hide Settled;
    hide Reaches;
    hide PaymentWire.Possible;
    hide PaymentWire.Run;
    var publish := [Publish] + rest;
    var read := [ReadWatch] + publish;
    var wake := [Wake] + read;
    assert Handshake(g) + rest == [SendReset(g)] + wake;
    SendOf(w, g, controlled);
    var w1 := After(w, SendReset(g), controlled);
    OneStep(w, SendReset(g), wake, controlled);
    ListenerStep(w1, Wake, controlled);
    var w2 := After(w1, Wake, controlled);
    OneStep(w1, Wake, read, controlled);
    ListenerStep(w2, ReadWatch, controlled);
    var w3 := After(w2, ReadWatch, controlled);
    OneStep(w2, ReadWatch, publish, controlled);
    ListenerStep(w3, Publish, controlled);
    OneStep(w3, Publish, rest, controlled);
    hide After;
    assert w3 == w.(phase := Publishing(g), watch := g, changed := false, unsent := w.unsent - {g}, waiting := w.waiting + {g});
  }

  lemma {:induction false} OneSendIsInOrder(w: Wire, steps: seq<PaymentWire.Step>, g: nat, controlled: bool)
    requires Safe(w) && PaymentWire.Possible(w, steps, controlled) && SendsOnly(steps, g) && w.watch <= g
    ensures InOrder(w, steps, controlled)
    decreases |steps|
  {
    hide Safe;
    hide Room;
    if steps != [] {
      SafeIsSettled(w);
      StepKeeps(w, steps[0], controlled);
      WatchAfter(w, steps[0], controlled);
      hide After;
      assert SendsOnly(steps[1..], g) by { assert forall i :: 0 <= i < |steps[1..]| ==> steps[1..][i] == steps[i + 1]; }
      OneSendIsInOrder(After(w, steps[0], controlled), steps[1..], g, controlled);
    }
  }

  lemma WatchAfter(w: Wire, step: PaymentWire.Step, controlled: bool)
    requires Safe(w) && Room(w.data) && Enabled(w, step)
    ensures Settled(w.data.engine)
    ensures After(w, step, controlled).watch == if step.SendReset? then step.generation else w.watch
  {
    SafeIsSettled(w);
    hide Safe;
    hide Settled;
    hide Room;
    hide After;
    hide Enabled;
    StepMovesListener(w, step, controlled);
  }

  /** A send below the watch can be followed by a fall: the listener first publishes what the watch says,
      then the older generation. */
  lemma LateSendFalls(w: Wire, g: nat, controlled: bool) returns (steps: seq<PaymentWire.Step>)
    requires Safe(w) && Room(w.data) && !w.phase.Stopped? && Tracked(w) && g in w.unsent && g < w.watch
    ensures PaymentWire.Possible(w, steps, controlled) && SendsOnly(steps, g) && !NeverFalls(w, steps, controlled)
  {
    hide Safe;
    hide Room;
    ListenerCatchesUp(w, controlled);
    hide Tracked;
    var u := CaughtUp(w);
    var a :| PaymentWire.Possible(w, a, controlled) && SendsNone(a) && PaymentWire.Run(w, a, controlled) == u;
    RoomCaughtUp(w);
    AnnounceThen(u, g, [], controlled);
    var b := Handshake(g);
    assert b + [] == b;
    RunsTogether(w, a, b, controlled);
    if NeverFalls(w, a + b, controlled) {
      NeverFallsOverall(u, b, controlled);
      assert false;
    }
    steps := a + b;
  }

  lemma RoomCaughtUp(w: Wire)
    ensures Room(CaughtUp(w).data) == Room(w.data)
  {
  }

  /** After any run in order, with the listener not stopped: the send of a waiting reset is harmless,
      whatever the listener, the connections and the commands do around it, exactly when it is sent over
      an older generation. */
  lemma SendIsHarmlessExactly(epoch: nat, past: seq<PaymentWire.Step>, g: nat, controlled: bool)
    requires Safe(Initial(epoch)) && PaymentWire.Possible(Initial(epoch), past, controlled)
    requires InOrder(Initial(epoch), past, controlled)
    requires var w := PaymentWire.Run(Initial(epoch), past, controlled);
      Room(w.data) && !w.phase.Stopped? && g in w.unsent
    ensures var w := PaymentWire.Run(Initial(epoch), past, controlled);
      (forall steps :: PaymentWire.Possible(w, steps, controlled) && SendsOnly(steps, g) ==> NeverFalls(w, steps, controlled))
      <==> w.watch <= g
  {
    hide Safe;
    InOrderNeverFalls(epoch, past, controlled);
    var w := PaymentWire.Run(Initial(epoch), past, controlled);
    hide Room;
    hide PaymentWire.Run;
    hide Tracked;
    if w.watch <= g {
      forall steps | PaymentWire.Possible(w, steps, controlled) && SendsOnly(steps, g)
        ensures NeverFalls(w, steps, controlled)
      {
        OneSendIsInOrder(w, steps, g, controlled);
        InOrderClimbs(w, steps, controlled);
      }
    } else {
      var steps := LateSendFalls(w, g, controlled);
    }
  }

  // ---------------------------------------------------------------- a run that falls

  /** A reset under a command id. */
  function ResetUnder(id: string): ControlPlane.Command { Command(id, Signature("reset", None), ResetAll) }

  /** A reset carried out: a generation more, waiting to be sent. */
  lemma ResetCarriedOut(w: Wire, id: string, controlled: bool)
    requires Safe(w) && Room(w.data) && GoodId(id) && id !in w.data.commands
    ensures Settled(w.data.engine)
    ensures var t := After(w, Control(ResetUnder(id)), controlled);
      && t == w.(data := t.data, unsent := w.unsent + {w.data.engine.generation + 1})
      && t.data.engine == M.Reset(w.data.engine) && t.data.commands.Keys == {id}
  {
    SafeIsSettled(w);
    hide Settled;
    hide Safe;
    hide Room;
    ResetExecuted(w.data, id, controlled);
    hide Execute;
    hide Applied;
    hide M.Reset;
    SettledIsSteppable(w.data.engine);
    hide Actionable;
    hide AllSteppable;
  }

  lemma ResetExecuted(d: Data, id: string, controlled: bool)
    requires Settled(d.engine) && Room(d) && GoodId(id) && id !in d.commands
    ensures var t := Execute(d, ResetUnder(id), controlled).after;
      && Applied(d, ResetUnder(id), controlled)
      && t.engine == M.Reset(d.engine) && t.engine.generation == d.engine.generation + 1 && t.commands.Keys == {id}
  {
    hide Settled;
    hide Room;
  }

  const TWO_RESETS: seq<PaymentWire.Step> :=
    [ReadWatch, Publish, Control(ResetUnder("first")), Control(ResetUnder("second"))]

  /** From the start, two resets leave two generations waiting to be sent. */
  lemma TwoResetsWait(epoch: nat, rest: seq<PaymentWire.Step>, controlled: bool) returns (w: Wire)
    ensures Safe(Initial(epoch)) && Safe(w)
    ensures w.unsent == {2, 3} && w.watch == 1 && w.listenerGeneration == 1 && w.phase.Waiting?
    ensures w.connections == map[] && w.data.engine.generation == 3 && Room(w.data)
    ensures PaymentWire.Possible(Initial(epoch), TWO_RESETS + rest, controlled) <==> PaymentWire.Possible(w, rest, controlled)
    ensures PaymentWire.Possible(w, rest, controlled) ==>
      PaymentWire.Run(Initial(epoch), TWO_RESETS + rest, controlled) == PaymentWire.Run(w, rest, controlled)
  {
    InitialIsSafe(epoch);
    hide Safe;
    hide Settled;
    hide Reaches;
    hide PaymentWire.Possible;
    hide PaymentWire.Run;
    var w0 := Initial(epoch);
    var second := [Control(ResetUnder("second"))] + rest;
    var first := [Control(ResetUnder("first"))] + second;
    var publish := [Publish] + first;
    assert TWO_RESETS + rest == [ReadWatch] + publish;
    ListenerStep(w0, ReadWatch, controlled);
    OneStep(w0, ReadWatch, publish, controlled);
    var w1 := After(w0, ReadWatch, controlled);
    ListenerStep(w1, Publish, controlled);
    OneStep(w1, Publish, first, controlled);
    var w2 := After(w1, Publish, controlled);
    ResetCarriedOut(w2, "first", controlled);
    OneStep(w2, Control(ResetUnder("first")), second, controlled);
    var w3 := After(w2, Control(ResetUnder("first")), controlled);
    assert "second" !in w3.data.commands by { assert "first"[0] != "second"[0]; assert w3.data.commands.Keys == {"first"}; }
    ResetCarriedOut(w3, "second", controlled);
    OneStep(w3, Control(ResetUnder("second")), rest, controlled);
    w := After(w3, Control(ResetUnder("second")), controlled);
    hide After;
    assert w3.data.engine.generation == 2 && w3.data.engine.nowMs == 0;
  }

  /** The published generation does fall: two resets, sent in the other order. The listener has published
      generation 3 when it publishes generation 2. */
  lemma PublishedGenerationFalls(epoch: nat, controlled: bool)
    ensures Safe(Initial(epoch))
    ensures var steps := TWO_RESETS + Handshake(3) + Handshake(2);
      && PaymentWire.Possible(Initial(epoch), TWO_RESETS + Handshake(3), controlled)
      && PaymentWire.Run(Initial(epoch), TWO_RESETS + Handshake(3), controlled).listenerGeneration == 3
      && PaymentWire.Possible(Initial(epoch), steps, controlled)
      && PaymentWire.Run(Initial(epoch), steps, controlled).listenerGeneration == 2
  {
    hide Safe;
    hide After;
    var late := Handshake(2);
    assert TWO_RESETS + Handshake(3) + late == TWO_RESETS + (Handshake(3) + late);
    var w := TwoResetsWait(epoch, Handshake(3), controlled);
    AnnounceThen(w, 3, [], controlled);
    assert Handshake(3) + [] == Handshake(3);
    var w' := TwoResetsWait(epoch, Handshake(3) + late, controlled);
    AnnounceThen(w', 3, late, controlled);
    AnnounceThen(Announce(w', 3), 2, [], controlled);
    assert late + [] == late;
  }

  // ---------------------------------------------------------------- the transport switch

  /** What the last switch said, or what was so before any. */
  predicate LastSwitch(steps: seq<PaymentWire.Step>, before: bool) {
    if steps == [] then before
    else LastSwitch(steps[1..], if steps[0].SwitchTransport? then steps[0].online else before)
  }

  lemma SwitchAlone(w: Wire, step: PaymentWire.Step, controlled: bool)
    requires Settled(w.data.engine) && Room(w.data) && Enabled(w, step)
    ensures After(w, step, controlled).listening == if step.SwitchTransport? then step.online else w.listening
    ensures step.AcceptSocket? ==> w.listening
  {
    hide Settled;
    hide Room;
    if !IsListening(step) && !step.Tag? {
      OthersLeaveTheListener(w, step, controlled);
      hide After;
    } else {
      SettledIsSteppable(w.data.engine);
      hide Actionable;
      hide AllSteppable;
    }
  }

  lemma {:induction false} ListeningIsSwitched(w: Wire, steps: seq<PaymentWire.Step>, controlled: bool)
    requires Safe(w) && PaymentWire.Possible(w, steps, controlled)
    ensures PaymentWire.Run(w, steps, controlled).listening == LastSwitch(steps, w.listening)
    decreases |steps|
  {
    hide Safe;
    hide Room;
    hide Enabled;
    hide After;
    if steps != [] {
      SafeIsSettled(w);
      hide Settled;
      StepKeeps(w, steps[0], controlled);
      SwitchAlone(w, steps[0], controlled);
      ListeningIsSwitched(After(w, steps[0], controlled), steps[1..], controlled);
    }
  }

  /** In any run a socket is accepted only while the last transport switch, if any, was to online. */
  lemma OfflineAcceptsNone(epoch: nat, steps: seq<PaymentWire.Step>, controlled: bool)
    requires Safe(Initial(epoch)) && PaymentWire.Possible(Initial(epoch), steps, controlled)
    ensures var w := PaymentWire.Run(Initial(epoch), steps, controlled);
      Enabled(w, AcceptSocket) <==> w.phase.Waiting? && LastSwitch(steps, true)
  {
    hide Safe;
    hide PaymentWire.Run;
    hide PaymentWire.Possible;
    ListeningIsSwitched(Initial(epoch), steps, controlled);
    hide LastSwitch;
  }
}
