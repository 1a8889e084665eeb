/** Money behind the answers: an approval a client was given stands for a payment the engine charged. */
module WireMoney {
  import opened Prelude
  import opened EngineModel
  import opened EngineInvariants
  import opened EngineRuns
  import opened EngineTerms
  import opened ControlPlane
  import opened PaymentWire
  import M = EngineModel

  /** The payment an answer speaks of is over, and of an approval paid, though perhaps returned since, in that
      amount. */
  predicate Backs(op: Operation, r: Response) {
    && op.stage.Terminal()
    && (r.content.Payment? && r.content.receipt.Approval? ==> IsPaid(op) && op.amount == r.content.receipt.amount)
  }

  /** As far as the engine knows the payment. */
  predicate Backed(ops: map<string, Operation>, id: string, r: Response) { id in ops ==> Backs(ops[id], r) }

  ghost predicate InHandBacked(connections: map<nat, Connection>, ops: map<string, Operation>) {
    forall c :: c in connections && connections[c].Holding? && connections[c].activity.Writing? ==>
      Backed(ops, connections[c].id, connections[c].activity.response)
  }

  ghost predicate LogBacked(log: seq<Notice>, ops: map<string, Operation>) {
    forall i :: 0 <= i < |log| && log[i].Answered? ==> Backed(ops, log[i].id, log[i].response)
  }

  ghost predicate Covered(w: Wire) {
    InHandBacked(w.connections, w.data.engine.operations) && LogBacked(w.log, w.data.engine.operations)
  }

  // ---------------------------------------------------------------- the engine moves on

  lemma FollowingStaysCovered(w: Wire, t: Snapshot)
    requires Safe(w) && Covered(w) && Settled(t) && Follows(w.data.engine, t)
    ensures InHandBacked(w.connections, t.operations) && LogBacked(w.log, t.operations)
  {
    var s := w.data.engine;
    assert Identified(s.operations.Keys, s.generation, s.nextOperation) by { hide Tags; hide Records; }
    assert Identified(t.operations.Keys, t.generation, t.nextOperation) by { hide Tags; hide Records; }
    assert Holders(w.connections, w.log, s.generation, s.nextOperation) && Book(w.log, s.generation, s.nextOperation)
      by { hide Settled; }
    hide Settled;
    hide Safe;
    hide Given;
    hide SameTerms;
    forall c | c in w.connections && w.connections[c].Holding? && w.connections[c].activity.Writing?
      ensures Backed(t.operations, w.connections[c].id, w.connections[c].activity.response)
    {
      var h := w.connections[c];
      assert Held(h, w.log, s.generation, s.nextOperation);
      StillBacked(s, t, h.id, h.tag, h.activity.response);
    }
    forall i | 0 <= i < |w.log| && w.log[i].Answered? ensures Backed(t.operations, w.log[i].id, w.log[i].response) {
      assert Fitting(w.log[i], w.log[..i], s.generation, s.nextOperation);
      StillBacked(s, t, w.log[i].id, w.log[i].tag, w.log[i].response);
    }
  }

  lemma StillBacked(s: Snapshot, t: Snapshot, id: string, tag: nat, r: Response)
    requires Identified(s.operations.Keys, s.generation, s.nextOperation)
    requires Identified(t.operations.Keys, t.generation, t.nextOperation)
    requires Follows(s, t) && Given(id, tag, s.generation, s.nextOperation) && Backed(s.operations, id, r)
    ensures Backed(t.operations, id, r)
  {
    if id in t.operations {
      GivenWasKnown(s, t, id, tag);
      assert KeptIn(t.operations, id, s.operations[id]);
    }
  }

  lemma EngineStepStaysCovered(w: Wire, t: Snapshot)
    requires Safe(w) && Covered(w) && Settled(t) && (t == M.Reset(w.data.engine) || Follows(w.data.engine, t))
    ensures InHandBacked(w.connections, t.operations) && LogBacked(w.log, t.operations)
  {
    hide Safe;
    hide Settled;
    hide Follows;
    if t == M.Reset(w.data.engine) {
      assert t.operations == map[];
    } else {
      FollowingStaysCovered(w, t);
    }
  }

  lemma DeliveryStaysCovered(connections: map<nat, Connection>, log: seq<Notice>, s: Snapshot, id: string)
    requires InHandBacked(connections, s.operations) && LogBacked(log, s.operations)
    ensures var t := Deliver(s, id).after; InHandBacked(connections, t.operations) && LogBacked(log, t.operations)
  {
    var ops, later := s.operations, Deliver(s, id).after.operations;
    forall k: string, r: Response | Backed(ops, k, r) ensures Backed(later, k, r) {
      hide Receive;
    }
    hide M.Deliver;
    hide Backed;
  }

  // ---------------------------------------------------------------- connections and log

  lemma FewerStayCovered(was: map<nat, Connection>, connections: map<nat, Connection>, ops: map<string, Operation>)
    requires InHandBacked(was, ops)
    requires forall c :: c in connections && connections[c].Holding? && connections[c].activity.Writing? ==>
      c in was && connections[c] == was[c]
    ensures InHandBacked(connections, ops)
  {
    hide Backed;
  }

  lemma NoticeStaysCovered(log: seq<Notice>, ops: map<string, Operation>, e: Notice)
    requires LogBacked(log, ops) && (e.Answered? ==> Backed(ops, e.id, e.response))
    ensures LogBacked(log + [e], ops)
  {
    hide Backed;
  }

  /** The answer fixed by a poll is read from the payment itself. */
  lemma RespondIsBacked(s: Snapshot, id: string)
    requires id in s.operations && Respond(s, id).Some? && s.operations[id].stage.Terminal()
    ensures Backed(s.operations, id, Respond(s, id).value)
  {
    var r := Respond(s, id).value;
    if r.content.Payment? && r.content.receipt.Approval? {
      RespondedPayment(s, id);
      hide Respond;
      hide Serial;
    }
  }

  lemma PollStaysCovered(w: Wire, socket: nat)
    requires Covered(w) && Enabled(w, Poll(socket))
    ensures Covered(PollOn(w, socket))
  {
    var s, c, t := w.data.engine, w.connections[socket], PollOn(w, socket);
    hide Backed;
    hide Respond;
    if c.id in s.operations && Respond(s, c.id).Some? && s.operations[c.id].stage.Terminal() {
      RespondIsBacked(s, c.id);
    }
  }

  lemma WriteStaysCovered(w: Wire, socket: nat)
    requires Covered(w) && Enabled(w, Write(socket))
    ensures Covered(WriteOn(w, socket))
  {
    var c, t, ops := w.connections[socket], WriteOn(w, socket), w.data.engine.operations;
    hide Backed;
    FewerStayCovered(w.connections, t.connections, ops);
    NoticeStaysCovered(w.log, ops, t.log[|t.log| - 1]);
    hide InHandBacked;
    hide LogBacked;
  }

  lemma MarkStaysCovered(w: Wire, socket: nat)
    requires Covered(w) && Enabled(w, Mark(socket))
    ensures Covered(MarkOn(w, socket))
  {
    var s, c, t := w.data.engine, w.connections[socket], MarkOn(w, socket);
    DeliveryStaysCovered(w.connections, w.log, s, c.id);
    hide Backed;
    hide M.Deliver;
    FewerStayCovered(w.connections, t.connections, t.data.engine.operations);
    hide InHandBacked;
    if t.log != w.log {
      NoticeStaysCovered(w.log, t.data.engine.operations, t.log[|t.log| - 1]);
    }
    hide LogBacked;
  }

  /** A purchase moves the engine or not, begins or refuses or ends its own connection, and answers none. */
  lemma PurchaseShape(w: Wire, socket: nat, device: string, amount: nat, merchant: Option<string>)
    requires Settled(w.data.engine) && socket in w.connections && w.connections[socket].Reading?
    ensures AllSteppable(w.data.engine.operations)
    ensures var t := PurchaseOn(w, socket, device, amount, merchant);
      && (t.data.engine == w.data.engine || t.data.engine == M.Start(w.data.engine, device, amount, merchant).after)
      && (forall c :: c in t.connections && t.connections[c].Holding? && t.connections[c].activity.Writing? ==>
            c in w.connections && t.connections[c] == w.connections[c])
      && (t.log == w.log || (t.log != [] && t.log == w.log + [t.log[|t.log| - 1]] && t.log[|t.log| - 1].Begun?))
  {
    assert QueueUsable(w.data.engine.queue) by { hide M.Start; }
    hide Settled;
    hide M.Start;
    hide QueueUsable;
    hide NextId;
    SettledIsSteppable(w.data.engine);
    hide Actionable;
    hide AllSteppable;
    var t := PurchaseOn(w, socket, device, amount, merchant);
    if t.log != w.log {
      assert t.log[..|w.log|] == w.log;
    }
  }

  lemma PurchaseStaysCovered(w: Wire, socket: nat, device: string, amount: nat, merchant: Option<string>)
    requires Safe(w) && Covered(w) && Room(w.data) && socket in w.connections && w.connections[socket].Reading?
    ensures Settled(w.data.engine) && Covered(PurchaseOn(w, socket, device, amount, merchant))
  {
    assert Settled(w.data.engine) by { hide Settled; hide Tags; hide Records; }
    hide Safe;
    hide Settled;
    hide Follows;
    hide M.Start;
    hide Actionable;
    hide AllSteppable;
    hide InHandBacked;
    hide LogBacked;
    hide Backed;
    var s, t := w.data.engine, PurchaseOn(w, socket, device, amount, merchant);
    PurchaseShape(w, socket, device, amount, merchant);
    hide PurchaseOn;
    SettledIsSteppable(s);
    StartCovered(w, device, amount, merchant);
    FewerStayCovered(w.connections, t.connections, t.data.engine.operations);
    if t.log != w.log {
      NoticeStaysCovered(w.log, t.data.engine.operations, t.log[|t.log| - 1]);
    }
  }

  lemma StartCovered(w: Wire, device: string, amount: nat, merchant: Option<string>)
    requires Safe(w) && Covered(w) && Room(w.data)
    ensures AllSteppable(w.data.engine.operations)
    ensures var ops := M.Start(w.data.engine, device, amount, merchant).after.operations;
      InHandBacked(w.connections, ops) && LogBacked(w.log, ops)
  {
    assert Settled(w.data.engine) by { hide Settled; hide Tags; hide Records; }
    assert QueueUsable(w.data.engine.queue) by { hide Tags; hide Records; hide M.Start; }
    hide Safe;
    hide Settled;
    hide Follows;
    hide M.Start;
    hide Covered;
    SettledIsSteppable(w.data.engine);
    StartOfEngine(w.data.engine, device, amount, merchant);
    EngineStepStaysCovered(w, M.Start(w.data.engine, device, amount, merchant).after);
    hide InHandBacked;
    hide LogBacked;
    hide Actionable;
  }

  lemma StepStaysCovered(w: Wire, step: PaymentWire.Step, controlled: bool)
    requires Safe(w) && Room(w.data) && Enabled(w, step) && Covered(w)
    ensures Settled(w.data.engine) && Covered(After(w, step, controlled))
  {
    assert Settled(w.data.engine) by { hide Settled; hide Tags; hide Records; }
    SettledIsSteppable(w.data.engine);
    hide Safe;
    hide Settled;
    hide Room;
    hide Actionable;
    hide AllSteppable;
    hide PurchaseOn;
    hide CheckOn;
    hide PollOn;
    hide WriteOn;
    hide MarkOn;
    hide Execute;
    hide Applied;
    hide Backed;
    hide M.Advance;
    match step
    case Control(c) => ControlStaysCovered(w, c, controlled); hide Covered;
    case Tick(delta) => TickStaysCovered(w, delta); hide Covered;
    case Purchase(socket, device, amount, merchant) => PurchaseStaysCovered(w, socket, device, amount, merchant);
    case Check(socket) => CheckStaysCovered(w, socket);
    case Poll(socket) => PollStaysCovered(w, socket);
    case Write(socket) => WriteStaysCovered(w, socket);
    case Mark(socket) => MarkStaysCovered(w, socket);
    case End(socket) => FewerStayCovered(w.connections, w.connections - {socket}, w.data.engine.operations);
    case Tag(socket) =>
      FewerStayCovered(w.connections, w.connections[socket := Reading(w.data.engine.generation)], w.data.engine.operations);
    case _ =>
  }

  lemma ControlStaysCovered(w: Wire, c: Command, controlled: bool)
    requires Safe(w) && Covered(w) && Room(w.data)
    ensures Settled(w.data.engine) && Covered(ControlOn(w, c, controlled))
  {
    SafeIsSettled(w);
    hide Safe;
    hide Settled;
    hide Room;
    hide Execute;
    hide Applied;
    hide M.Reset;
    hide Follows;
    hide InHandBacked;
    hide LogBacked;
    ControlMoves(w.data, c, controlled);
    EngineStepStaysCovered(w, Execute(w.data, c, controlled).after.engine);
  }

  lemma TickStaysCovered(w: Wire, delta: nat)
    requires Safe(w) && Covered(w)
    ensures AllSteppable(w.data.engine.operations)
    ensures Covered(w.(data := w.data.(engine := M.Advance(w.data.engine, delta).after)))
  {
    SafeIsSettled(w);
    hide Safe;
    hide Settled;
    hide M.Advance;
    hide Follows;
    hide InHandBacked;
    hide LogBacked;
    TickMoves(w.data.engine, delta);
    hide AllSteppable;
    EngineStepStaysCovered(w, M.Advance(w.data.engine, delta).after);
  }

  lemma CheckStaysCovered(w: Wire, socket: nat)
    requires Covered(w) && Enabled(w, Check(socket))
    ensures Covered(CheckOn(w, socket))
  {
    hide Backed;
    FewerStayCovered(w.connections, CheckOn(w, socket).connections, w.data.engine.operations);
    hide InHandBacked;
  }

  // ---------------------------------------------------------------- whole runs

  lemma {:induction false} RunStaysCovered(w: Wire, steps: seq<PaymentWire.Step>, controlled: bool)
    requires Safe(w) && Covered(w) && PaymentWire.Possible(w, steps, controlled)
    ensures Covered(PaymentWire.Run(w, steps, controlled))
    decreases |steps|
  {
    hide Safe;
    hide Covered;
    hide After;
    hide Room;
    hide Enabled;
    if steps != [] {
      StepKeeps(w, steps[0], controlled);
      StepStaysCovered(w, steps[0], controlled);
      RunStaysCovered(After(w, steps[0], controlled), steps[1..], controlled);
    }
  }

  /** Every approval ever answered whose payment the engine still knows stands for a payment that was
      charged in that amount: it is Approved, or Reversed since. */
  lemma ApprovalsArePaid(epoch: nat, steps: seq<PaymentWire.Step>, controlled: bool, i: nat)
    requires Safe(Initial(epoch)) && PaymentWire.Possible(Initial(epoch), steps, controlled)
    requires var log := PaymentWire.Run(Initial(epoch), steps, controlled).log;
      i < |log| && log[i].Answered? && log[i].response.content.Payment? && log[i].response.content.receipt.Approval?
    ensures var w := PaymentWire.Run(Initial(epoch), steps, controlled); var id := w.log[i].id;
      id in w.data.engine.operations ==>
        && (w.data.engine.operations[id].stage.Approved? || w.data.engine.operations[id].stage.Reversed?)
        && w.data.engine.operations[id].amount == w.log[i].response.content.receipt.amount
  {
    RunStaysCovered(Initial(epoch), steps, controlled);
    hide Safe;
    hide PaymentWire.Run;
    hide PaymentWire.Possible;
    var w := PaymentWire.Run(Initial(epoch), steps, controlled);
    assert Backed(w.data.engine.operations, w.log[i].id, w.log[i].response);
  }

  /** A payment whose full answer has been written is over for as long as the engine knows it. */
  lemma AnsweredIsOver(epoch: nat, steps: seq<PaymentWire.Step>, controlled: bool, w: Wire, socket: nat)
    requires Safe(Initial(epoch)) && PaymentWire.Possible(Initial(epoch), steps, controlled)
    requires w == PaymentWire.Run(Initial(epoch), steps, controlled)
    requires Holds(w, socket) && w.connections[socket].activity.Marking?
    ensures var id := w.connections[socket].id;
      id in w.data.engine.operations ==>
        w.data.engine.operations[id].stage.Terminal() && !w.data.engine.operations[id].responseDelivered
  {
    assert Covered(Initial(epoch)) by { hide Safe; hide PaymentWire.Possible; hide PaymentWire.Run; }
    hide Safe;
    hide PaymentWire.Run;
    hide PaymentWire.Possible;
    hide Covered;
    RunStaysCovered(Initial(epoch), steps, controlled);
    MarkingIsOver(w, socket);
  }

  lemma MarkingIsOver(w: Wire, socket: nat)
    requires Safe(w) && Covered(w) && Enabled(w, Mark(socket))
    ensures var id := w.connections[socket].id;
      id in w.data.engine.operations ==>
        w.data.engine.operations[id].stage.Terminal() && !w.data.engine.operations[id].responseDelivered
  {
    var c, s := w.connections[socket], w.data.engine;
    assert Held(c, w.log, s.generation, s.nextOperation) && Flags(s.operations, w.log)
      by { hide Settled; hide Held; hide Flags; hide Covered; }
    hide Safe;
    hide Given;
    hide InHandBacked;
    var i :| 0 <= i < |w.log| && w.log[i].Answered? && w.log[i].id == c.id;
    assert Backed(s.operations, w.log[i].id, w.log[i].response);
  }
}
