/** What every answer says: at some earlier point of the run the payment stood finished and due for an
    answer, and the answer is the one its delivery, its recorded case and its outcome call for. */
module WireAnswers {
  import opened Prelude
  import opened EngineModel
  import opened EngineInvariants
  import opened EngineRuns
  import opened ControlPlane
  import opened PaymentWire
  import opened WireMoney
  import Conduct = EngineConduct
  import M = EngineModel

  // ---------------------------------------------------------------- the answer called for

  /** A receipt for the payment as it stands: its recorded case, its approval in its amount, or its error. */
  predicate TellsOutcome(receipt: Receipt, op: Operation) {
    if op.scenario.referenceError.Some? then receipt == Recorded(op.scenario.referenceError.value)
    else if op.stage.Approved? then receipt.Approval? && receipt.amount == op.amount
    else receipt == Rejection(op.errorId)
  }

  /** The deliveries that end in an answer. */
  predicate Answers(d: Delivery) {
    !d.Hang? && !d.DisconnectBeforeAccept? && !d.DisconnectAfterAccept? && !d.DisconnectAfterCommit?
  }

  /** Each scripted delivery shows its own fault and no other. */
  predicate RightAnswer(op: Operation, r: Response, full: bool) {
    var d := op.scenario.delivery;
    && Answers(d) && (full <==> d.Normal?)
    && r.status == (if d.Http400? then 400 else if d.Http500? then 500 else if op.scenario.referenceError.Some? then 503 else 200)
    && (r.partial <==> d.PartialResponse?) && (r.plainText <==> d.WrongContentType?)
    && (r.content.MissingResult? <==> d.MissingFields?) && (r.content.UnknownResult? <==> d.UnknownCode?)
    && (r.content.Garbage? <==> d.MalformedJson?)
    && (r.content.Payment? ==> TellsOutcome(r.content.receipt, op))
  }

  /** The payment is over and its response delay has passed. */
  predicate DueForAnswer(op: Operation, now: nat) {
    !Conduct.Underway(op.stage) && op.completedMs.Some? && op.completedMs.value + op.scenario.timing.responseMs <= now
  }

  /** The engine holds the payment so that this is the answer to give. */
  predicate RightAt(w: Wire, id: string, r: Response, full: bool) {
    var ops := w.data.engine.operations;
    id in ops && DueForAnswer(ops[id], w.data.engine.nowMs) && RightAnswer(ops[id], r, full)
  }

  lemma RespondIsRight(s: Snapshot, id: string)
    requires Settled(s) && id in s.operations && !Conduct.Underway(s.operations[id].stage)
    ensures Respond(s, id).Some?
    ensures Answers(s.operations[id].scenario.delivery) ==>
      RightAnswer(s.operations[id], Respond(s, id).value, s.operations[id].scenario.delivery.Normal?)
  {
    Conduct.ReceiptTells(s, id);
    hide Settled;
    hide Receive;
  }

  lemma DueIsDue(s: Snapshot, id: string)
    requires Settled(s) && ClockRoom(s) && id in s.operations
    ensures ResponseDue(s.operations[id], s.nowMs) <==> DueForAnswer(s.operations[id], s.nowMs)
  {
    assert InPlace(id, s.operations[id], s.nowMs);
    hide Settled;
    hide KeepsOutcome;
    hide M.Due;
    Conduct.ValidIsByTheRules(s.operations[id].scenario);
    hide Scenario.Validate;
  }

  /** What a poll does: it ends the connection if the payment is gone or to be cut off after it is over, waits
      while no answer is due or the terminal hangs, and else has the answer called for in hand. */
  lemma PollDoesExactly(w: Wire, socket: nat)
    requires Safe(w) && Room(w.data) && Enabled(w, Poll(socket))
    ensures var ops, now, id := w.data.engine.operations, w.data.engine.nowMs, w.connections[socket].id; var t := PollOn(w, socket);
      && (id !in ops ==> t == Closed(w, socket))
      && (id in ops && !DueForAnswer(ops[id], now) ==> t == w)
      && (id in ops && DueForAnswer(ops[id], now) && ops[id].scenario.delivery.Hang? ==> t == w)
      && (id in ops && DueForAnswer(ops[id], now) && !ops[id].scenario.delivery.Hang? && !Answers(ops[id].scenario.delivery) ==>
            t == Closed(w, socket))
      && (id in ops && DueForAnswer(ops[id], now) && Answers(ops[id].scenario.delivery) ==>
            exists r :: RightAnswer(ops[id], r, ops[id].scenario.delivery.Normal?)
                        && t == Now(w, socket, Writing(r, ops[id].scenario.delivery.Normal?)))
  {
    SafeIsSettled(w);
    hide Safe;
    var s, id := w.data.engine, w.connections[socket].id;
    if id in s.operations {
      DueIsDue(s, id);
      hide ResponseDue;
      if DueForAnswer(s.operations[id], s.nowMs) {
        RespondIsRight(s, id);
        hide RightAnswer;
        hide Respond;
      }
    }
    hide Settled;
  }

  /** A payment to be cut off after acceptance ends its connection there; any other is polled. */
  lemma CheckDoesExactly(w: Wire, socket: nat)
    requires Enabled(w, Check(socket))
    ensures var ops, id := w.data.engine.operations, w.connections[socket].id;
      CheckOn(w, socket)
      == if id in ops && !ops[id].scenario.delivery.DisconnectAfterAccept? then Now(w, socket, Polling) else Closed(w, socket)
  {
  }

  /** What a purchase does: nothing but end its connection if the engine's generation is not the one it was
      tagged with; else it is a start, and the connection holds the payment, ends, or is refused for the
      first hurdle that the request does not clear. */
  lemma PurchaseDoesExactly(w: Wire, socket: nat, device: string, amount: nat, merchant: Option<string>)
    requires Safe(w) && Room(w.data) && socket in w.connections && w.connections[socket].Reading?
    ensures Settled(w.data.engine) && Actionable(w.data.engine.operations)
    ensures var s, tag, t := w.data.engine, w.connections[socket].tag, PurchaseOn(w, socket, device, amount, merchant);
      var hurdle := Conduct.Hurdle(s, device, amount, merchant);
      && (s.generation != tag ==> t == Closed(w, socket))
      && (s.generation == tag ==>
            && t == w.(data := w.data.(engine := t.data.engine), connections := t.connections, log := t.log)
            && t.data.engine == Apply(s, StartCall(device, amount, merchant)).after
            && (hurdle.None? ==>
                  && t.connections == w.connections[socket := Holding(tag, NextId(s), amount, Checking)]
                  && t.log == w.log + [Begun(tag, NextId(s), amount, s.generation)])
            && (hurdle.Some? ==>
                  && t.log == w.log
                  && t.connections == if hurdle.value.DisconnectedBeforeAccept? then w.connections - {socket}
                                      else w.connections[socket := Refusing(tag, hurdle.value)]))
  {
    SafeIsSettled(w);
    hide Safe;
    SettledIsSteppable(w.data.engine);
    Conduct.StartAdmittedExactly(w.data.engine, device, amount, merchant);
    hide Settled;
    hide M.Start;
    hide Conduct.Hurdle;
    hide Actionable;
    hide AllSteppable;
    hide NextId;
    hide Room;
  }

  /** What a write does: it tells the one refusal or the one answer in hand and ends the connection, unless the
      answer is in full, which is still to be marked. */
  lemma WriteDoesExactly(w: Wire, socket: nat)
    requires Enabled(w, Write(socket))
    ensures var c, t := w.connections[socket], WriteOn(w, socket);
      && t == w.(connections := t.connections, log := t.log) && |t.log| == |w.log| + 1 && t.log[..|w.log|] == w.log
      && (c.Refusing? ==> t.log[|w.log|] == Refused(c.tag, c.fault))
      && (c.Holding? ==> t.log[|w.log|] == Answered(c.tag, c.id, c.amount, c.activity.response, c.activity.full))
      && (Enabled(t, Mark(socket)) <==> c.Holding? && c.activity.full)
      && t.connections == if Enabled(t, Mark(socket)) then w.connections[socket := Holding(c.tag, c.id, c.amount, Marking)]
                          else w.connections - {socket}
  {
  }

  /** The connection ends; the payment, unless a reset has taken it, had not been marked as delivered, now is,
      and is counted. */
  predicate MarkedOnce(w: Wire, socket: nat, t: Wire)
    requires Holds(w, socket)
  {
    var c, ops := w.connections[socket], w.data.engine.operations;
    && t.connections == w.connections - {socket}
    && (c.id !in ops ==> t == Closed(w, socket))
    && (c.id in ops ==>
          && !ops[c.id].responseDelivered && t.data.engine.operations == ops[c.id := ops[c.id].(responseDelivered := true)]
          && t.data.engine.counters == w.data.engine.counters.(delivered := w.data.engine.counters.delivered + 1)
          && t.log == w.log + [Marked(c.tag, c.id, w.data.engine.generation)])
  }

  /** So it is in any run for every payment answered in full, whatever happens before its connection comes to
      mark it. */
  lemma MarkDoesExactly(epoch: nat, steps: seq<PaymentWire.Step>, controlled: bool, w: Wire, socket: nat)
    requires Safe(Initial(epoch)) && PaymentWire.Possible(Initial(epoch), steps, controlled)
    requires w == PaymentWire.Run(Initial(epoch), steps, controlled)
    requires Holds(w, socket) && w.connections[socket].activity.Marking?
    ensures MarkedOnce(w, socket, MarkOn(w, socket))
  {
    hide Safe;
    hide PaymentWire.Run;
    hide PaymentWire.Possible;
    hide MarkOn;
    hide MarkedOnce;
    AnsweredIsOver(epoch, steps, controlled, w, socket);
    MarksOne(w, socket);
  }

  lemma MarksOne(w: Wire, socket: nat)
    requires Enabled(w, Mark(socket))
    requires var ops, id := w.data.engine.operations, w.connections[socket].id;
      id in ops ==> ops[id].stage.Terminal() && !ops[id].responseDelivered
    ensures MarkedOnce(w, socket, MarkOn(w, socket))
  {
  }

  // ---------------------------------------------------------------- runs, step by step

  lemma {:induction false} PrefixOfRun(w: Wire, steps: seq<PaymentWire.Step>, k: nat, controlled: bool)
    requires Safe(w) && PaymentWire.Possible(w, steps, controlled) && k < |steps|
    ensures PaymentWire.Possible(w, steps[..k], controlled) && PaymentWire.Possible(w, steps[..k + 1], controlled)
    ensures var u := PaymentWire.Run(w, steps[..k], controlled);
      && Settled(u.data.engine) && Room(u.data) && Enabled(u, steps[k])
      && PaymentWire.Run(w, steps[..k + 1], controlled) == After(u, steps[k], controlled)
    decreases k
  {
    hide Safe;
    hide Settled;
    hide Room;
    hide Enabled;
    hide PaymentWire.Run;
    RunBegins(w, steps, controlled);
    var first, rest := steps[0], steps[1..];
    var t := After(w, first, controlled);
    assert steps == [first] + rest;
    OneStep(w, first, rest, controlled);
    if k == 0 {
      NoSteps(w, controlled);
      NoSteps(t, controlled);
      OneStep(w, first, [], controlled);
      assert steps[..1] == [first] + [] && steps[..0] == [];
    } else {
      PrefixOfRun(t, rest, k - 1, controlled);
      OneStep(w, first, rest[..k - 1], controlled);
      OneStep(w, first, rest[..k], controlled);
      assert steps[..k] == [first] + rest[..k - 1] && steps[..k + 1] == [first] + rest[..k];
      hide After;
      hide PaymentWire.Possible;
      assert rest[k - 1] == steps[k];
    }
  }

  lemma NoSteps(w: Wire, controlled: bool)
    requires Safe(w)
    ensures PaymentWire.Possible(w, [], controlled) && PaymentWire.Run(w, [], controlled) == w
  {
    hide Safe;
  }

  /** At some earlier point of the run, when at most `told` notices had been given, this was the answer to
      give. */
  ghost predicate WasRight(w: Wire, steps: seq<PaymentWire.Step>, controlled: bool, id: string, r: Response, full: bool, told: nat)
    requires Safe(w)
  {
    exists k: nat :: k <= |steps| && WasRightAt(w, steps, controlled, id, r, full, told, k)
  }

  ghost predicate WasRightAt(
    w: Wire, steps: seq<PaymentWire.Step>, controlled: bool, id: string, r: Response, full: bool, told: nat, k: nat)
    requires Safe(w) && k <= |steps|
  {
    && PaymentWire.Possible(w, steps[..k], controlled)
    && RightAt(PaymentWire.Run(w, steps[..k], controlled), id, r, full)
    && |PaymentWire.Run(w, steps[..k], controlled).log| <= told
  }

  /** What a step can add: an answer in hand that is right for the payment as it stands, and a notice of an
      answer that was in hand. */
  ghost predicate AddsOnly(w: Wire, t: Wire) {
    && |w.log| <= |t.log| && t.log[..|w.log|] == w.log
    && (forall c :: c in t.connections && InHand(t.connections[c]) ==>
          || (c in w.connections && t.connections[c] == w.connections[c])
          || ReadFrom(w, t.connections[c]))
    && (forall i :: |w.log| <= i < |t.log| && t.log[i].Answered? ==> AnsweredFrom(w, t.log[i]))
  }

  predicate InHand(c: Connection) { c.Holding? && c.activity.Writing? }

  predicate ReadFrom(w: Wire, c: Connection)
    requires InHand(c)
  {
    RightAt(w, c.id, c.activity.response, c.activity.full)
  }

  ghost predicate AnsweredFrom(w: Wire, e: Notice)
    requires e.Answered?
  {
    exists c :: c in w.connections && InHand(w.connections[c])
                && w.connections[c].id == e.id && w.connections[c].activity.response == e.response
                && w.connections[c].activity.full == e.full
  }

  lemma NothingAdded(w: Wire, socket: nat)
    ensures AddsOnly(w, w) && AddsOnly(w, Closed(w, socket))
  {
    assert w.log[..|w.log|] == w.log;
    hide ReadFrom;
    hide AnsweredFrom;
  }

  lemma RightInHand(w: Wire, socket: nat, r: Response, full: bool)
    requires Holds(w, socket) && RightAt(w, w.connections[socket].id, r, full)
    ensures AddsOnly(w, Now(w, socket, Writing(r, full)))
  {
    assert w.log[..|w.log|] == w.log;
    hide RightAt;
    hide AnsweredFrom;
  }

  lemma PollAddsOnly(w: Wire, socket: nat)
    requires Safe(w) && Room(w.data) && Enabled(w, Poll(socket))
    ensures AddsOnly(w, PollOn(w, socket))
  {
    hide Safe;
    hide Room;
    hide RightAnswer;
    hide DueForAnswer;
    hide PollOn;
    hide AddsOnly;
    hide Answers;
    PollDoesExactly(w, socket);
    NothingAdded(w, socket);
    var ops, id := w.data.engine.operations, w.connections[socket].id;
    if id in ops && DueForAnswer(ops[id], w.data.engine.nowMs) && Answers(ops[id].scenario.delivery) {
      var full := ops[id].scenario.delivery.Normal?;
      var r :| RightAnswer(ops[id], r, full) && PollOn(w, socket) == Now(w, socket, Writing(r, full));
      RightInHand(w, socket, r, full);
    }
  }

  lemma WriteAddsOnly(w: Wire, socket: nat)
    requires Enabled(w, Write(socket))
    ensures AddsOnly(w, WriteOn(w, socket))
  {
    var c, t := w.connections[socket], WriteOn(w, socket);
    assert t.log[..|w.log|] == w.log;
    if c.Holding? {
      assert InHand(c) && t.log[|w.log|].response == c.activity.response;
      assert AnsweredFrom(w, t.log[|w.log|]);
    }
    hide ReadFrom;
    hide AnsweredFrom;
  }

  lemma MarkAddsOnly(w: Wire, socket: nat)
    requires Enabled(w, Mark(socket))
    ensures AddsOnly(w, MarkOn(w, socket))
  {
    assert MarkOn(w, socket).log[..|w.log|] == w.log;
    hide Deliver;
    hide ReadFrom;
    hide AnsweredFrom;
  }

  lemma CheckAddsOnly(w: Wire, socket: nat)
    requires Enabled(w, Check(socket))
    ensures AddsOnly(w, CheckOn(w, socket))
  {
    assert w.log[..|w.log|] == w.log;
    hide ReadFrom;
    hide AnsweredFrom;
  }

  lemma PurchaseAddsOnly(w: Wire, socket: nat, device: string, amount: nat, merchant: Option<string>)
    requires Settled(w.data.engine) && socket in w.connections && w.connections[socket].Reading?
    ensures AddsOnly(w, PurchaseOn(w, socket, device, amount, merchant))
  {
    hide Settled;
    PurchaseShape(w, socket, device, amount, merchant);
    var t := PurchaseOn(w, socket, device, amount, merchant);
    hide PurchaseOn;
    hide ReadFrom;
    hide AnsweredFrom;
    assert t.log[..|w.log|] == w.log;
  }

  lemma StepAddsOnly(w: Wire, step: PaymentWire.Step, controlled: bool)
    requires Safe(w) && Room(w.data) && Enabled(w, step)
    ensures Settled(w.data.engine) && AddsOnly(w, After(w, step, controlled))
  {
    assert w.log[..|w.log|] == w.log;
    SafeIsSettled(w);
    SettledIsSteppable(w.data.engine);
    hide Safe;
    hide Settled;
    hide Room;
    hide Actionable;
    hide AllSteppable;
    hide PurchaseOn;
    hide CheckOn;
    hide PollOn;
    hide WriteOn;
    hide MarkOn;
    hide Execute;
    hide Applied;
    hide M.Advance;
    hide ReadFrom;
    hide AnsweredFrom;
    match step
    case Purchase(socket, device, amount, merchant) => PurchaseAddsOnly(w, socket, device, amount, merchant); hide AddsOnly;
    case Check(socket) => CheckAddsOnly(w, socket); hide AddsOnly;
    case Poll(socket) => PollAddsOnly(w, socket); hide AddsOnly;
    case Write(socket) => WriteAddsOnly(w, socket); hide AddsOnly;
    case Mark(socket) => MarkAddsOnly(w, socket); hide AddsOnly;
    case _ =>
  }

  /** Every answer given, and every one in hand, was at some point the right one. */
  ghost predicate Witnessed(w0: Wire, steps: seq<PaymentWire.Step>, controlled: bool)
    requires Safe(w0) && PaymentWire.Possible(w0, steps, controlled)
  {
    var w := PaymentWire.Run(w0, steps, controlled);
    && (forall c :: c in w.connections && InHand(w.connections[c]) ==>
          WasRight(w0, steps, controlled, w.connections[c].id, w.connections[c].activity.response, w.connections[c].activity.full, |w.log|))
    && (forall i :: 0 <= i < |w.log| && w.log[i].Answered? ==>
          WasRight(w0, steps, controlled, w.log[i].id, w.log[i].response, w.log[i].full, i))
  }

  lemma StillWasRight(
    w0: Wire, steps: seq<PaymentWire.Step>, n: nat, controlled: bool, id: string, r: Response, full: bool, told: nat, later: nat)
    requires Safe(w0) && n < |steps| && told <= later && WasRight(w0, steps[..n], controlled, id, r, full, told)
    ensures WasRight(w0, steps[..n + 1], controlled, id, r, full, later)
  {
    hide Safe;
    hide PaymentWire.Possible;
    hide PaymentWire.Run;
    hide RightAt;
    var k: nat :| k <= n && WasRightAt(w0, steps[..n], controlled, id, r, full, told, k);
    assert steps[..n][..k] == steps[..k] == steps[..n + 1][..k];
    assert WasRightAt(w0, steps[..n + 1], controlled, id, r, full, later, k);
  }

  lemma NowRight(w0: Wire, steps: seq<PaymentWire.Step>, n: nat, controlled: bool, id: string, r: Response, full: bool, told: nat)
    requires Safe(w0) && n < |steps| && PaymentWire.Possible(w0, steps[..n], controlled)
    requires var w := PaymentWire.Run(w0, steps[..n], controlled); RightAt(w, id, r, full) && |w.log| <= told
    ensures WasRight(w0, steps[..n + 1], controlled, id, r, full, told)
  {
    hide Safe;
    hide PaymentWire.Possible;
    hide PaymentWire.Run;
    hide RightAt;
    assert steps[..n + 1][..n] == steps[..n];
    assert WasRightAt(w0, steps[..n + 1], controlled, id, r, full, told, n);
  }

  lemma WitnessedStep(w0: Wire, steps: seq<PaymentWire.Step>, n: nat, controlled: bool)
    requires Safe(w0) && n < |steps|
    requires PaymentWire.Possible(w0, steps[..n], controlled) && PaymentWire.Possible(w0, steps[..n + 1], controlled)
    requires Witnessed(w0, steps[..n], controlled)
    requires AddsOnly(PaymentWire.Run(w0, steps[..n], controlled), PaymentWire.Run(w0, steps[..n + 1], controlled))
    ensures Witnessed(w0, steps[..n + 1], controlled)
  {
    hide Safe;
    hide PaymentWire.Possible;
    hide PaymentWire.Run;
    hide WasRight;
    hide RightAt;
    var w, t := PaymentWire.Run(w0, steps[..n], controlled), PaymentWire.Run(w0, steps[..n + 1], controlled);
    forall c | c in t.connections && InHand(t.connections[c])
      ensures WasRight(w0, steps[..n + 1], controlled, t.connections[c].id, t.connections[c].activity.response, t.connections[c].activity.full, |t.log|)
    {
      var h := t.connections[c];
      if c in w.connections && h == w.connections[c] {
        StillWasRight(w0, steps, n, controlled, h.id, h.activity.response, h.activity.full, |w.log|, |t.log|);
      } else {
        assert ReadFrom(w, h);
        NowRight(w0, steps, n, controlled, h.id, h.activity.response, h.activity.full, |t.log|);
      }
    }
    forall i | 0 <= i < |t.log| && t.log[i].Answered?
      ensures WasRight(w0, steps[..n + 1], controlled, t.log[i].id, t.log[i].response, t.log[i].full, i)
    {
      var e := t.log[i];
      if i < |w.log| {
        assert t.log[..|w.log|][i] == w.log[i];
        StillWasRight(w0, steps, n, controlled, e.id, e.response, e.full, i, i);
      } else {
        assert AnsweredFrom(w, e);
        StillWasRight(w0, steps, n, controlled, e.id, e.response, e.full, |w.log|, i);
      }
    }
  }

  lemma {:induction false} RunIsWitnessed(epoch: nat, steps: seq<PaymentWire.Step>, n: nat, controlled: bool)
    requires Safe(Initial(epoch)) && PaymentWire.Possible(Initial(epoch), steps, controlled) && n <= |steps|
    ensures PaymentWire.Possible(Initial(epoch), steps[..n], controlled) && Witnessed(Initial(epoch), steps[..n], controlled)
    decreases n
  {
    hide Safe;
    hide PaymentWire.Possible;
    hide PaymentWire.Run;
    if n == 0 {
      assert steps[..0] == [];
      NoSteps(Initial(epoch), controlled);
    } else {
      hide Witnessed;
      hide AddsOnly;
      hide After;
      hide Settled;
      hide Room;
      hide Enabled;
      RunIsWitnessed(epoch, steps, n - 1, controlled);
      PrefixOfRun(Initial(epoch), steps, n - 1, controlled);
      StepAddsOnly(PaymentWire.Run(Initial(epoch), steps[..n - 1], controlled), steps[n - 1], controlled);
      WitnessedStep(Initial(epoch), steps, n - 1, controlled);
    }
  }

  /** Every answer ever given, whatever has become of its payment since: at an earlier point of the run,
      before the answer was given, the engine held the payment as finished, its response delay had passed,
      and the answer is the one its delivery, its recorded case and its outcome call for. So a payment that
      hangs or is to be cut off is never answered, and none is answered early. */
  lemma AnswersAreRight(epoch: nat, steps: seq<PaymentWire.Step>, controlled: bool, i: nat)
    requires Safe(Initial(epoch)) && PaymentWire.Possible(Initial(epoch), steps, controlled)
    requires i < |PaymentWire.Run(Initial(epoch), steps, controlled).log|
    requires PaymentWire.Run(Initial(epoch), steps, controlled).log[i].Answered?
    ensures var e := PaymentWire.Run(Initial(epoch), steps, controlled).log[i];
      exists k: nat :: k <= |steps| && PaymentWire.Possible(Initial(epoch), steps[..k], controlled)
        && RightAt(PaymentWire.Run(Initial(epoch), steps[..k], controlled), e.id, e.response, e.full)
        && |PaymentWire.Run(Initial(epoch), steps[..k], controlled).log| <= i
  {
    hide Safe;
    RunIsWitnessed(epoch, steps, |steps|, controlled);
    assert steps[..|steps|] == steps;
    hide PaymentWire.Run;
    hide PaymentWire.Possible;
    hide RightAt;
    var e := PaymentWire.Run(Initial(epoch), steps, controlled).log[i];
    assert WasRight(Initial(epoch), steps, controlled, e.id, e.response, e.full, i);
  }

  /** So every answer in full is a whole receipt: a recorded reference case under status 503, an approval or
      a rejection under status 200. */
  lemma FullAnswersHaveTheirStatus(epoch: nat, steps: seq<PaymentWire.Step>, controlled: bool, i: nat)
    requires Safe(Initial(epoch)) && PaymentWire.Possible(Initial(epoch), steps, controlled)
    requires var log := PaymentWire.Run(Initial(epoch), steps, controlled).log; i < |log| && log[i].Answered? && log[i].full
    ensures var r := PaymentWire.Run(Initial(epoch), steps, controlled).log[i].response;
      r.content.Payment? && !r.partial && !r.plainText && r.status == if r.content.receipt.Recorded? then 503 else 200
  {
    hide Safe;
    AnswersAreRight(epoch, steps, controlled, i);
    hide PaymentWire.Run;
    hide PaymentWire.Possible;
  }

  /** And every approval answered was given for a payment that the engine held as Approved in that amount,
      whatever has become of it by a reversal or a reset. */
  lemma ApprovalsWereApproved(epoch: nat, steps: seq<PaymentWire.Step>, controlled: bool, i: nat)
    requires Safe(Initial(epoch)) && PaymentWire.Possible(Initial(epoch), steps, controlled)
    requires var log := PaymentWire.Run(Initial(epoch), steps, controlled).log;
      i < |log| && log[i].Answered? && log[i].response.content.Payment? && log[i].response.content.receipt.Approval?
    ensures var e := PaymentWire.Run(Initial(epoch), steps, controlled).log[i];
      exists k: nat :: k <= |steps| && PaymentWire.Possible(Initial(epoch), steps[..k], controlled)
        && HeldApproved(PaymentWire.Run(Initial(epoch), steps[..k], controlled), e.id, e.response.content.receipt.amount)
        && |PaymentWire.Run(Initial(epoch), steps[..k], controlled).log| <= i
  {
    hide Safe;
    AnswersAreRight(epoch, steps, controlled, i);
    hide PaymentWire.Run;
    hide PaymentWire.Possible;
    var e := PaymentWire.Run(Initial(epoch), steps, controlled).log[i];
    var k: nat :| k <= |steps| && PaymentWire.Possible(Initial(epoch), steps[..k], controlled)
      && RightAt(PaymentWire.Run(Initial(epoch), steps[..k], controlled), e.id, e.response, e.full)
      && |PaymentWire.Run(Initial(epoch), steps[..k], controlled).log| <= i;
    assert HeldApproved(PaymentWire.Run(Initial(epoch), steps[..k], controlled), e.id, e.response.content.receipt.amount);
  }

  predicate HeldApproved(w: Wire, id: string, amount: nat) {
    var ops := w.data.engine.operations;
    id in ops && ops[id].stage.Approved? && ops[id].amount == amount
  }
}
