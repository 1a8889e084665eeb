/** The payment listener beside the control server: connections, generations, resets and their
    acknowledgement, as a transition system in which every interleaving is a run. */
module PaymentWire {
  import opened Prelude
  import opened EngineModel
  import opened EngineInvariants
  import opened EngineRuns
  import opened EngineLedger
  import opened EngineTerms
  import opened ControlPlane
  import Commands = ControlRuns
  import M = EngineModel
  import Ids = OperationIds

  // ---------------------------------------------------------------- state

  datatype Content = Payment(receipt: Receipt) | MissingResult | UnknownResult | Garbage

  datatype Response = Response(status: nat, content: Content, partial: bool, plainText: bool)

  /** What a connection with an accepted payment does next. */
  datatype Activity = Checking | Polling | Writing(response: Response, full: bool) | Marking

  datatype Connection =
    | Reading(tag: nat)
    | Refusing(tag: nat, fault: Fault)
    | Holding(tag: nat, id: string, amount: nat, activity: Activity)

  /** The listener task: waiting, joining aborted connections, about to publish the generation it has
      read, about to tag an accepted socket, or stopped. */
  datatype Phase = Waiting | Joining | Publishing(generation: nat) | Tagging | Stopped

  /** What the outside world can observe of a connection, and the engine's generation then. */
  datatype Notice =
    | Begun(tag: nat, id: string, amount: nat, generation: nat)
    | Refused(tag: nat, fault: Fault)
    | Answered(tag: nat, id: string, amount: nat, response: Response, full: bool)
    | Marked(tag: nat, id: string, generation: nat)

  /** `unsent` resets have released the lock but not yet reached the watch; `waiting` ones wait for the
      listener; `acknowledged` ones have seen it publish their generation. */
  datatype Wire = Wire(
    data: Data, watch: nat, changed: bool, unsent: set<nat>, waiting: set<nat>, acknowledged: set<nat>,
    phase: Phase, listening: bool, listenerGeneration: nat,
    connections: map<nat, Connection>, log: seq<Notice>)

  datatype Step =
    | Control(command: Command)
    | SendReset(generation: nat) | Acknowledge(generation: nat) | GiveUp(generation: nat)
    | Wake | ReadWatch | Publish
    | SwitchTransport(online: bool) | AcceptSocket | Tag(socket: nat) | Stop
    | Tick(deltaMs: nat)
    | Purchase(socket: nat, deviceId: string, amount: nat, merchant: Option<string>)
    | Check(socket: nat) | Poll(socket: nat) | Write(socket: nat) | Mark(socket: nat) | End(socket: nat)

  ghost function Initial(epoch: nat): Wire {
    Wire(Data(Fresh(Some(epoch), 1, 1), map[], map[]), 1, false, {}, {}, {}, Joining, true, 1, map[], [])
  }

  // ---------------------------------------------------------------- steps

  predicate Holds(w: Wire, socket: nat) { socket in w.connections && w.connections[socket].Holding? }

  predicate Enabled(w: Wire, step: Step) {
    match step
    case Control(_) => true
    case SendReset(g) => g in w.unsent
    case Acknowledge(g) => g in w.waiting && w.listenerGeneration == g
    case GiveUp(g) => g in w.waiting
    case Wake => w.phase.Waiting? && w.changed
    case ReadWatch => w.phase.Joining? && w.connections == map[]
    case Publish => w.phase.Publishing?
    case SwitchTransport(_) => w.phase.Waiting?
    case AcceptSocket => w.phase.Waiting? && w.listening
    case Tag(socket) => w.phase.Tagging? && socket !in w.connections
    case Stop => w.phase.Waiting?
    case Tick(_) => true
    case Purchase(socket, _, _, _) => socket in w.connections && w.connections[socket].Reading?
    case Check(socket) => Holds(w, socket) && w.connections[socket].activity.Checking?
    case Poll(socket) => Holds(w, socket) && w.connections[socket].activity.Polling?
    case Write(socket) =>
      socket in w.connections
      && (w.connections[socket].Refusing? || (w.connections[socket].Holding? && w.connections[socket].activity.Writing?))
    case Mark(socket) => Holds(w, socket) && w.connections[socket].activity.Marking?
    case End(socket) => socket in w.connections
  }

  function Closed(w: Wire, socket: nat): Wire { w.(connections := w.connections - {socket}) }

  function Now(w: Wire, socket: nat, activity: Activity): Wire
    requires Holds(w, socket)
  {
    w.(connections := w.connections[socket := w.connections[socket].(activity := activity)])
  }

  /** Whether the response to a finished payment is due. */
  predicate ResponseDue(op: Operation, now: nat) {
    op.stage.Terminal()
    && now >= SaturatingAdd(if op.completedMs.Some? then op.completedMs.value else now, op.scenario.timing.responseMs)
  }

  /** The response a finished payment is given, if it is given one. */
  function Respond(s: Snapshot, id: string): Option<Response>
    requires id in s.operations
  {
    var op, receipt := s.operations[id], Receive(s, id);
    var delivery := op.scenario.delivery;
    if !delivery.MissingFields? && !delivery.UnknownCode? && receipt.Err? then None
    else
      Some(Response(
        if delivery.Http400? then 400 else if delivery.Http500? then 500
        else if op.scenario.referenceError.Some? then 503 else 200,
        if delivery.MissingFields? then MissingResult else if delivery.UnknownCode? then UnknownResult
        else if delivery.MalformedJson? then Garbage else Payment(receipt.value),
        delivery.PartialResponse?, delivery.WrongContentType?))
  }

  ghost function PurchaseOn(w: Wire, socket: nat, device: string, amount: nat, merchant: Option<string>): Wire
    requires Settled(w.data.engine)
    requires socket in w.connections && w.connections[socket].Reading?
  {
    SettledIsSteppable(w.data.engine);
    var tag := w.connections[socket].tag;
    if w.data.engine.generation != tag then Closed(w, socket)
    else
      var a := M.Start(w.data.engine, device, amount, merchant);
      var t := w.(data := w.data.(engine := a.after));
      if a.fault.None? then
        t.(connections := w.connections[socket := Holding(tag, NextId(w.data.engine), amount, Checking)],
           log := w.log + [Begun(tag, NextId(w.data.engine), amount, w.data.engine.generation)])
      else if a.fault.value.DisconnectedBeforeAccept? then Closed(t, socket)
      else t.(connections := w.connections[socket := Refusing(tag, a.fault.value)])
  }

  function CheckOn(w: Wire, socket: nat): Wire
    requires Holds(w, socket)
  {
    var ops, id := w.data.engine.operations, w.connections[socket].id;
    if id !in ops || ops[id].scenario.delivery.DisconnectAfterAccept? then Closed(w, socket) else Now(w, socket, Polling)
  }

  function PollOn(w: Wire, socket: nat): Wire
    requires Holds(w, socket)
  {
    var s, id := w.data.engine, w.connections[socket].id;
    if id !in s.operations then Closed(w, socket)
    else if !ResponseDue(s.operations[id], s.nowMs) then w
    else
      var delivery := s.operations[id].scenario.delivery;
      if delivery.Hang? then w
      else if delivery.DisconnectAfterCommit? || delivery.DisconnectBeforeAccept? || delivery.DisconnectAfterAccept? then Closed(w, socket)
      else
        var response := Respond(s, id);
        if response.None? then Closed(w, socket) else Now(w, socket, Writing(response.value, delivery.Normal?))
  }

  function WriteOn(w: Wire, socket: nat): Wire
    requires Enabled(w, Write(socket))
  {
    var c := w.connections[socket];
    if c.Refusing? then Closed(w, socket).(log := w.log + [Refused(c.tag, c.fault)])
    else
      var answer := Answered(c.tag, c.id, c.amount, c.activity.response, c.activity.full);
      (if c.activity.full then Now(w, socket, Marking) else Closed(w, socket)).(log := w.log + [answer])
  }

  function MarkOn(w: Wire, socket: nat): Wire
    requires Holds(w, socket)
  {
    var c, a := w.connections[socket], Deliver(w.data.engine, w.connections[socket].id);
    var t := Closed(w, socket).(data := w.data.(engine := a.after));
    if a.fault.Some? then t else t.(log := w.log + [Marked(c.tag, c.id, w.data.engine.generation)])
  }

  ghost function After(w: Wire, step: Step, controlled: bool): Wire
    requires Settled(w.data.engine) && Room(w.data) && Enabled(w, step)
  {
    SettledIsSteppable(w.data.engine);
    match step
    case Control(c) => ControlOn(w, c, controlled)
    case SendReset(g) => w.(watch := g, changed := true, unsent := w.unsent - {g}, waiting := w.waiting + {g})
    case Acknowledge(g) => w.(waiting := w.waiting - {g}, acknowledged := w.acknowledged + {g})
    case GiveUp(g) => w.(waiting := w.waiting - {g})
    case Wake => w.(phase := Joining)
    case ReadWatch => w.(phase := Publishing(w.watch), changed := false)
    case Publish => w.(phase := Waiting, listenerGeneration := w.phase.generation)
    case SwitchTransport(online) => w.(listening := online)
    case AcceptSocket => w.(phase := Tagging)
    case Tag(socket) => w.(phase := Waiting, connections := w.connections[socket := Reading(w.data.engine.generation)])
    case Stop => w.(phase := Stopped)
    case Tick(delta) => w.(data := w.data.(engine := M.Advance(w.data.engine, delta).after))
    case Purchase(socket, device, amount, merchant) => PurchaseOn(w, socket, device, amount, merchant)
    case Check(socket) => CheckOn(w, socket)
    case Poll(socket) => PollOn(w, socket)
    case Write(socket) => WriteOn(w, socket)
    case Mark(socket) => MarkOn(w, socket)
    case End(socket) => Closed(w, socket)
  }

  /** The command under the lock; an applied reset has its new generation to send. */
  ghost function ControlOn(w: Wire, c: Command, controlled: bool): Wire
    requires Settled(w.data.engine) && Room(w.data)
  {
    var t := Execute(w.data, c, controlled).after;
    w.(data := t,
       unsent := if Applied(w.data, c, controlled) && c.body.ResetAll? then w.unsent + {t.engine.generation} else w.unsent)
  }

  // ---------------------------------------------------------------- what every interleaving keeps

  /** The id was printed for operation `number` of generation `tag`. */
  predicate IsId(id: string, tag: nat, number: nat) { 1 <= number && id == Ids.Print(tag, number) }

  /** The id belongs to generation `tag` and has been handed out by now. */
  ghost predicate Given(id: string, tag: nat, generation: nat, next: nat) {
    exists n: nat :: IsId(id, tag, n) && (tag < generation || (tag == generation && n < next))
  }

  ghost predicate HasBegun(log: seq<Notice>, id: string) { exists i :: 0 <= i < |log| && log[i].Begun? && log[i].id == id }

  ghost predicate HasAnswered(log: seq<Notice>, id: string) { exists i :: 0 <= i < |log| && log[i].Answered? && log[i].id == id }

  ghost predicate HasMarked(log: seq<Notice>, id: string) { exists i :: 0 <= i < |log| && log[i].Marked? && log[i].id == id }

  /** The response a client may rely on: whole, well-formed, and of the kind it should be. */
  predicate Whole(r: Response) { r.status in {200, 503} && r.content.Payment? && !r.partial && !r.plainText }

  ghost predicate FullyAnswered(log: seq<Notice>, tag: nat, id: string) {
    exists i :: 0 <= i < |log| && log[i].Answered? && log[i].tag == tag && log[i].id == id && log[i].full && Whole(log[i].response)
  }

  /** A receipt for an approval names the payment it answers: number, reference and amount. */
  ghost predicate Fits(r: Response, tag: nat, id: string, amount: nat) {
    r.content.Payment? && r.content.receipt.Approval? ==>
      exists n: nat :: IsId(id, tag, n) && (n <= U64_MAX ==> Names(r.content.receipt, tag, n)) && r.content.receipt.amount == amount
  }

  predicate Names(r: Receipt, tag: nat, number: nat)
    requires r.Approval?
  {
    r.sequence == number && r.rrn == Rrn(tag, number)
  }

  /** No live connection is older than what the listener has published or a reset has been promised. */
  ghost predicate Tags(w: Wire) {
    var g := w.data.engine.generation;
    && w.watch <= g && w.listenerGeneration <= g
    && (forall r :: r in w.unsent || r in w.waiting || r in w.acknowledged ==> r <= g)
    && (w.phase.Publishing? ==> w.phase.generation <= g && w.connections == map[])
    && (forall c :: c in w.connections ==> Current(w.connections[c], w.listenerGeneration, w.acknowledged, g))
  }

  ghost predicate Current(c: Connection, published: nat, acknowledged: set<nat>, generation: nat) {
    published <= c.tag <= generation && forall r :: r in acknowledged ==> r <= c.tag
  }

  /** What a connection holding a payment may rely on. */
  ghost predicate Held(c: Connection, log: seq<Notice>, generation: nat, next: nat)
    requires c.Holding?
  {
    && Given(c.id, c.tag, generation, next)
    && Begun(c.tag, c.id, c.amount, c.tag) in log && !HasMarked(log, c.id)
    && (if c.activity.Marking? then FullyAnswered(log, c.tag, c.id) else !HasAnswered(log, c.id))
    && (c.activity.Writing? ==>
          Fits(c.activity.response, c.tag, c.id, c.amount) && (c.activity.full ==> Whole(c.activity.response)))
  }

  ghost predicate Holders(connections: map<nat, Connection>, log: seq<Notice>, generation: nat, next: nat) {
    && (forall c :: c in connections && connections[c].Holding? ==> Held(connections[c], log, generation, next))
    && (forall a, b :: a in connections && b in connections && Rivals(connections[a], connections[b]) ==> a == b)
  }

  predicate Rivals(a: Connection, b: Connection) { a.Holding? && b.Holding? && a.id == b.id }

  /** What one notice says fits the notices before it. */
  ghost predicate Fitting(e: Notice, log: seq<Notice>, generation: nat, next: nat) {
    match e
    case Begun(tag, id, amount, at) => at == tag && Given(id, tag, generation, next)
    case Refused(_, _) => true
    case Answered(tag, id, amount, response, full) =>
      Given(id, tag, generation, next) && Begun(tag, id, amount, tag) in log && Fits(response, tag, id, amount)
    case Marked(tag, id, at) => at == tag && Given(id, tag, generation, next) && FullyAnswered(log, tag, id)
  }

  predicate SameKind(a: Notice, b: Notice) {
    || (a.Begun? && b.Begun? && a.id == b.id)
    || (a.Answered? && b.Answered? && a.id == b.id)
    || (a.Marked? && b.Marked? && a.id == b.id)
  }

  ghost predicate Book(log: seq<Notice>, generation: nat, next: nat) {
    && (forall i :: 0 <= i < |log| ==> Fitting(log[i], log[..i], generation, next))
    && (forall i, j :: 0 <= i < j < |log| ==> !SameKind(log[i], log[j]))
  }

  /** The engine's delivery flags are exactly the marks made in this generation. */
  ghost predicate Flags(ops: map<string, Operation>, log: seq<Notice>) {
    forall id :: id in ops ==> (ops[id].responseDelivered <==> HasMarked(log, id))
  }

  ghost predicate Amounts(connections: map<nat, Connection>, ops: map<string, Operation>) {
    forall c :: c in connections && connections[c].Holding? && connections[c].id in ops ==>
      ops[connections[c].id].amount == connections[c].amount
  }

  ghost predicate Records(w: Wire) {
    var s := w.data.engine;
    && Holders(w.connections, w.log, s.generation, s.nextOperation) && Book(w.log, s.generation, s.nextOperation)
    && Flags(s.operations, w.log) && Amounts(w.connections, s.operations)
  }

  ghost predicate Safe(w: Wire) { Settled(w.data.engine) && Tags(w) && Records(w) }

  lemma SafeIsSettled(w: Wire)
    requires Safe(w)
    ensures Settled(w.data.engine)
  {
    hide Settled;
    hide Tags;
    hide Records;
  }

  // ---------------------------------------------------------------- ids

  lemma GivenIsOfItsGeneration(s: Snapshot, id: string, tag: nat, generation: nat, next: nat)
    requires Identified(s.operations.Keys, s.generation, s.nextOperation)
    requires Given(id, tag, generation, next) && id in s.operations
    ensures tag == s.generation
  {
    var n: nat :| IsId(id, tag, n);
    var m :| 1 <= m < s.nextOperation && id == Ids.Print(s.generation, m);
    Ids.PrintInjective(tag, n, s.generation, m);
  }

  lemma GivenNowIsKnown(s: Snapshot, id: string)
    requires Identified(s.operations.Keys, s.generation, s.nextOperation)
    requires Given(id, s.generation, s.generation, s.nextOperation)
    ensures id in s.operations
  {
  }

  lemma GivenLater(id: string, tag: nat, g: nat, n: nat, g': nat, n': nat)
    requires Given(id, tag, g, n) && (g < g' || (g == g' && n <= n'))
    ensures Given(id, tag, g', n')
  {
    var k: nat :| IsId(id, tag, k) && (tag < g || (tag == g && k < n));
    assert IsId(id, tag, k) && (tag < g' || (tag == g' && k < n'));
  }

  lemma NextIsNotGiven(tag: nat, g: nat, n: nat)
    ensures !Given(Ids.Print(g, n), tag, g, n)
  {
    if Given(Ids.Print(g, n), tag, g, n) {
      var k: nat :| IsId(Ids.Print(g, n), tag, k) && (tag < g || (tag == g && k < n));
      Ids.PrintInjective(g, n, tag, k);
    }
  }

  /** The book and the holders stand as generations and numbers go up. */
  lemma RecordsLater(connections: map<nat, Connection>, log: seq<Notice>, g: nat, n: nat, g': nat, n': nat)
    requires Holders(connections, log, g, n) && Book(log, g, n) && (g < g' || (g == g' && n <= n'))
    ensures Holders(connections, log, g', n') && Book(log, g', n')
  {
    hide Given;
    hide Fits;
    hide FullyAnswered;
    hide HasMarked;
    hide HasAnswered;
    forall c | c in connections && connections[c].Holding? ensures Held(connections[c], log, g', n') {
      GivenLater(connections[c].id, connections[c].tag, g, n, g', n');
    }
    forall i | 0 <= i < |log| ensures Fitting(log[i], log[..i], g', n') {
      assert Fitting(log[i], log[..i], g, n);
      if !log[i].Refused? { GivenLater(log[i].id, log[i].tag, g, n, g', n'); }
    }
  }

  // ---------------------------------------------------------------- steps of the engine

  lemma GivenWasKnown(s: Snapshot, t: Snapshot, id: string, tag: nat)
    requires Identified(s.operations.Keys, s.generation, s.nextOperation)
    requires Identified(t.operations.Keys, t.generation, t.nextOperation)
    requires s.generation == t.generation && s.nextOperation <= t.nextOperation
    requires Given(id, tag, s.generation, s.nextOperation) && id in t.operations
    ensures id in s.operations
  {
    GivenLater(id, tag, s.generation, s.nextOperation, t.generation, t.nextOperation);
    GivenIsOfItsGeneration(t, id, tag, t.generation, t.nextOperation);
    GivenNowIsKnown(s, id);
  }

  /** The engine goes on within its generation: the records still agree with it. */
  lemma FollowingKeepsRecords(w: Wire, t: Snapshot)
    requires Records(w) && Settled(w.data.engine) && Settled(t) && Follows(w.data.engine, t)
    ensures Records(w.(data := w.data.(engine := t)))
  {
    var s := w.data.engine;
    RecordsLater(w.connections, w.log, s.generation, s.nextOperation, t.generation, t.nextOperation);
    FollowingKeepsFlags(s, t, w.log);
    FollowingKeepsAmounts(s, t, w.connections, w.log);
    hide Follows;
    hide Holders;
    hide Settled;
  }

  lemma FollowingKeepsFlags(s: Snapshot, t: Snapshot, log: seq<Notice>)
    requires Identified(s.operations.Keys, s.generation, s.nextOperation)
    requires Identified(t.operations.Keys, t.generation, t.nextOperation)
    requires Follows(s, t) && Flags(s.operations, log) && Book(log, s.generation, s.nextOperation)
    ensures Flags(t.operations, log)
  {
    forall id | id in t.operations ensures t.operations[id].responseDelivered <==> HasMarked(log, id) {
      if id in s.operations {
        assert KeptIn(t.operations, id, s.operations[id]);
      } else if HasMarked(log, id) {
        var i :| 0 <= i < |log| && log[i].Marked? && log[i].id == id;
        assert Fitting(log[i], log[..i], s.generation, s.nextOperation);
        GivenWasKnown(s, t, id, log[i].tag);
      }
    }
  }

  lemma FollowingKeepsAmounts(s: Snapshot, t: Snapshot, connections: map<nat, Connection>, log: seq<Notice>)
    requires Identified(s.operations.Keys, s.generation, s.nextOperation)
    requires Identified(t.operations.Keys, t.generation, t.nextOperation)
    requires Follows(s, t) && Amounts(connections, s.operations) && Holders(connections, log, s.generation, s.nextOperation)
    ensures Amounts(connections, t.operations)
  {
    forall c | c in connections && connections[c].Holding? && connections[c].id in t.operations
      ensures t.operations[connections[c].id].amount == connections[c].amount
    {
      assert Held(connections[c], log, s.generation, s.nextOperation);
      GivenWasKnown(s, t, connections[c].id, connections[c].tag);
      assert KeptIn(t.operations, connections[c].id, s.operations[connections[c].id]);
    }
  }

  /** A new generation starts with no payment. */
  lemma ResetKeepsRecords(w: Wire, t: Snapshot)
    requires Records(w) && t == M.Reset(w.data.engine)
    ensures Records(w.(data := w.data.(engine := t)))
  {
    var s := w.data.engine;
    RecordsLater(w.connections, w.log, s.generation, s.nextOperation, t.generation, t.nextOperation);
    hide Holders;
    hide Book;
  }

  lemma MovingKeepsRecords(w: Wire, t: Snapshot)
    requires Records(w) && Settled(w.data.engine) && Settled(t)
    requires t == M.Reset(w.data.engine) || Follows(w.data.engine, t)
    ensures Records(w.(data := w.data.(engine := t))) && t.generation >= w.data.engine.generation
  {
    hide Records;
    if t == M.Reset(w.data.engine) {
      ResetKeepsRecords(w, t);
    } else {
      FollowingKeepsRecords(w, t);
    }
    hide Settled;
  }

  lemma ControlMoves(d: Data, c: Command, controlled: bool)
    requires Settled(d.engine) && Room(d)
    ensures var t := Execute(d, c, controlled).after.engine; Settled(t) && (t == M.Reset(d.engine) || Follows(d.engine, t))
  {
    ExecuteSettles(d, c, controlled);
    Commands.ExecuteFollows(d, c, controlled);
    hide *;
  }

  lemma ControlKeeps(w: Wire, c: Command, controlled: bool)
    requires Safe(w) && Room(w.data)
    ensures Safe(ControlOn(w, c, controlled))
  {
    hide Settled;
    hide Execute;
    hide Applied;
    hide Room;
    hide Records;
    hide M.Reset;
    hide Follows;
    var t := Execute(w.data, c, controlled).after;
    ControlMoves(w.data, c, controlled);
    MovingKeepsRecords(w, t.engine);
    RecordsOf(w.(data := w.data.(engine := t.engine)), ControlOn(w, c, controlled));
    hide ControlOn;
    TagsAfterControl(w, c, controlled);
    hide Tags;
  }

  lemma RecordsOf(w: Wire, t: Wire)
    requires Records(w) && t.data.engine == w.data.engine && t.connections == w.connections && t.log == w.log
    ensures Records(t)
  {
    hide Holders;
    hide Book;
    hide Flags;
    hide Amounts;
  }

  lemma TagsAfterControl(w: Wire, c: Command, controlled: bool)
    requires Settled(w.data.engine) && Room(w.data) && Tags(w)
    requires Execute(w.data, c, controlled).after.engine.generation >= w.data.engine.generation
    ensures Tags(ControlOn(w, c, controlled))
  {
    hide Settled;
    hide Execute;
    hide Applied;
  }

  lemma TickMoves(s: Snapshot, delta: nat)
    requires Settled(s)
    ensures AllSteppable(s.operations)
    ensures var t := M.Advance(s, delta).after; Settled(t) && Follows(s, t) && t.generation == s.generation
  {
    hide Settled;
    hide M.Advance;
    SettledIsSteppable(s);
    AdvanceSettles(s, delta);
    CallFollows(s, AdvanceCall(delta));
    hide Actionable;
    hide AllSteppable;
  }

  lemma TickKeeps(w: Wire, delta: nat)
    requires Safe(w)
    ensures AllSteppable(w.data.engine.operations)
    ensures Safe(w.(data := w.data.(engine := M.Advance(w.data.engine, delta).after)))
  {
    hide Settled;
    hide Records;
    hide M.Advance;
    hide Follows;
    TickMoves(w.data.engine, delta);
    hide AllSteppable;
    FollowingKeepsRecords(w, M.Advance(w.data.engine, delta).after);
  }

  // ---------------------------------------------------------------- steps of the listener

  /** Steps that touch neither engine, nor log, nor connections. */
  predicate IsListening(step: Step) {
    step.SendReset? || step.Acknowledge? || step.GiveUp? || step.Wake? || step.ReadWatch? || step.Publish?
    || step.SwitchTransport? || step.AcceptSocket? || step.Stop?
  }

  lemma ListeningKeeps(w: Wire, step: Step, controlled: bool)
    requires Safe(w) && Room(w.data) && Enabled(w, step) && IsListening(step)
    ensures Safe(After(w, step, controlled))
  {
    hide Settled;
    hide Holders;
    hide Book;
    hide Flags;
    hide Amounts;
  }

  lemma TagKeeps(w: Wire, socket: nat)
    requires Safe(w) && Enabled(w, Tag(socket))
    ensures Safe(w.(phase := Waiting, connections := w.connections[socket := Reading(w.data.engine.generation)]))
  {
    hide Settled;
    hide Held;
    hide Book;
    hide Flags;
  }

  lemma ClosedKeeps(w: Wire, socket: nat)
    requires Safe(w)
    ensures Safe(Closed(w, socket))
  {
    hide Settled;
    hide Held;
    hide Book;
    hide Flags;
  }

  // ---------------------------------------------------------------- the log grows

  lemma MoreInTheLog(log: seq<Notice>, e: Notice, id: string, tag: nat)
    ensures HasBegun(log + [e], id) <==> HasBegun(log, id) || (e.Begun? && e.id == id)
    ensures HasAnswered(log + [e], id) <==> HasAnswered(log, id) || (e.Answered? && e.id == id)
    ensures HasMarked(log + [e], id) <==> HasMarked(log, id) || (e.Marked? && e.id == id)
    ensures FullyAnswered(log + [e], tag, id)
       <==> FullyAnswered(log, tag, id) || (e.Answered? && e.tag == tag && e.id == id && e.full && Whole(e.response))
  {
    hide Whole;
    var more := log + [e];
    assert more[|log|] == e;
    assert forall i :: 0 <= i < |log| ==> more[i] == log[i];
  }

  lemma BookGrows(log: seq<Notice>, e: Notice, g: nat, n: nat)
    requires Book(log, g, n) && Fitting(e, log, g, n)
    requires e.Begun? ==> !HasBegun(log, e.id)
    requires e.Answered? ==> !HasAnswered(log, e.id)
    requires e.Marked? ==> !HasMarked(log, e.id)
    ensures Book(log + [e], g, n)
  {
    hide Given;
    hide Fits;
    hide FullyAnswered;
    var more := log + [e];
    forall i | 0 <= i < |more| ensures Fitting(more[i], more[..i], g, n) {
      assert more[..i] == log[..i];
      if i < |log| { assert Fitting(log[i], log[..i], g, n); } else { assert log[..i] == log; }
    }
    forall i, j | 0 <= i < j < |more| ensures !SameKind(more[i], more[j]) {
      if j < |log| { assert !SameKind(log[i], log[j]); }
    }
  }

  /** A notice about a payment that no connection holds disturbs no holder. */
  lemma HoldersUnmoved(connections: map<nat, Connection>, log: seq<Notice>, e: Notice, g: nat, n: nat)
    requires Holders(connections, log, g, n)
    requires !e.Refused? ==> forall c :: c in connections && connections[c].Holding? ==> connections[c].id != e.id
    ensures Holders(connections, log + [e], g, n)
  {
    hide Given;
    hide Fits;
    hide FullyAnswered;
    hide HasAnswered;
    hide HasMarked;
    forall c | c in connections && connections[c].Holding? ensures Held(connections[c], log + [e], g, n) {
      MoreInTheLog(log, e, connections[c].id, connections[c].tag);
      assert Held(connections[c], log, g, n);
    }
  }

  // ---------------------------------------------------------------- steps of a connection

  /** One connection replaced or added among others that hold other payments. */
  lemma HoldersJoin(connections: map<nat, Connection>, log: seq<Notice>, socket: nat, c: Connection, g: nat, n: nat)
    requires Holders(connections - {socket}, log, g, n)
    requires c.Holding? ==> Held(c, log, g, n)
    requires c.Holding? ==> forall k :: k in connections - {socket} && connections[k].Holding? ==> connections[k].id != c.id
    ensures Holders(connections[socket := c], log, g, n)
  {
    hide Held;
    var rest, all := connections - {socket}, connections[socket := c];
    forall k | k in all && all[k].Holding? ensures Held(all[k], log, g, n) {
      if k != socket { assert Held(rest[k], log, g, n); }
    }
    forall a, b | a in all && b in all && Rivals(all[a], all[b]) ensures a == b {
      if a != socket && b != socket { assert Rivals(rest[a], rest[b]); }
    }
  }

  lemma HoldersLeave(connections: map<nat, Connection>, log: seq<Notice>, socket: nat, g: nat, n: nat)
    requires Holders(connections, log, g, n)
    ensures Holders(connections - {socket}, log, g, n)
    ensures socket in connections && connections[socket].Holding? ==>
      && Held(connections[socket], log, g, n)
      && forall k :: k in connections - {socket} && connections[k].Holding? ==> connections[k].id != connections[socket].id
  {
    hide Held;
    if socket in connections && connections[socket].Holding? {
      forall k | k in connections - {socket} && connections[k].Holding? ensures connections[k].id != connections[socket].id {
        assert Rivals(connections[k], connections[socket]) <==> connections[k].id == connections[socket].id;
      }
    }
  }

  predicate SamePurchase(was: Connection, c: Connection) {
    c.tag == was.tag && (c.Holding? ==> was.Holding? && c.id == was.id && c.amount == was.amount)
  }

  /** Connections only went away, or went on with the same purchase. */
  ghost predicate Narrowed(was: map<nat, Connection>, connections: map<nat, Connection>) {
    forall k :: k in connections ==> k in was && SamePurchase(was[k], connections[k])
  }

  lemma TagsNarrow(w: Wire, t: Wire)
    requires Tags(w) && Narrowed(w.connections, t.connections) && !w.phase.Publishing?
    requires t == w.(data := t.data, connections := t.connections, log := t.log)
    requires t.data.engine.generation == w.data.engine.generation
    ensures Tags(t)
  {
    forall k | k in t.connections ensures Current(t.connections[k], t.listenerGeneration, t.acknowledged, t.data.engine.generation) {
      assert SamePurchase(w.connections[k], t.connections[k]);
      assert Current(w.connections[k], w.listenerGeneration, w.acknowledged, w.data.engine.generation);
    }
  }

  lemma AmountsNarrow(was: map<nat, Connection>, connections: map<nat, Connection>, ops: map<string, Operation>)
    requires Amounts(was, ops) && Narrowed(was, connections)
    ensures Amounts(connections, ops)
  {
    forall k | k in connections && connections[k].Holding? && connections[k].id in ops
      ensures ops[connections[k].id].amount == connections[k].amount
    {
      assert SamePurchase(was[k], connections[k]);
    }
  }

  /** A held payment goes on to its next activity. */
  lemma NowKeeps(w: Wire, socket: nat, activity: Activity)
    requires Safe(w) && Holds(w, socket) && !w.connections[socket].activity.Marking? && !activity.Marking?
    requires activity.Writing? ==>
      var c := w.connections[socket];
      Fits(activity.response, c.tag, c.id, c.amount) && (activity.full ==> Whole(activity.response))
    ensures Safe(Now(w, socket, activity))
  {
    hide Settled;
    hide Book;
    hide Flags;
    hide Holders;
    hide Amounts;
    hide Fits;
    hide Whole;
    var s, c, t := w.data.engine, w.connections[socket], Now(w, socket, activity);
    assert !w.phase.Publishing?;
    hide Tags;
    assert Narrowed(w.connections, t.connections);
    TagsNarrow(w, t);
    AmountsNarrow(w.connections, t.connections, s.operations);
    hide Narrowed;
    NowHolds(w.connections, w.log, socket, activity, s.generation, s.nextOperation);
  }

  lemma NowHolds(connections: map<nat, Connection>, log: seq<Notice>, socket: nat, activity: Activity, g: nat, n: nat)
    requires Holders(connections, log, g, n) && socket in connections && connections[socket].Holding?
    requires !connections[socket].activity.Marking? && !activity.Marking?
    requires activity.Writing? ==>
      var c := connections[socket];
      Fits(activity.response, c.tag, c.id, c.amount) && (activity.full ==> Whole(activity.response))
    ensures Holders(connections[socket := connections[socket].(activity := activity)], log, g, n)
  {
    HoldersLeave(connections, log, socket, g, n);
    hide Holders;
    hide Fits;
    hide Whole;
    hide Given;
    hide HasAnswered;
    hide HasMarked;
    HoldersJoin(connections, log, socket, connections[socket].(activity := activity), g, n);
  }

  lemma CheckKeeps(w: Wire, socket: nat)
    requires Safe(w) && Enabled(w, Check(socket))
    ensures Safe(CheckOn(w, socket))
  {
    hide Safe;
    if CheckOn(w, socket) == Closed(w, socket) {
      ClosedKeeps(w, socket);
    } else {
      NowKeeps(w, socket, Polling);
    }
  }

  lemma ApprovalNames(s: Snapshot, id: string, number: nat)
    requires id in s.operations && s.operations[id].id == id == Ids.Print(s.generation, number)
    requires Receive(s, id).Ok? && Receive(s, id).value.Approval?
    ensures Receive(s, id).value.amount == s.operations[id].amount
    ensures number <= U64_MAX ==> Names(Receive(s, id).value, s.generation, number)
  {
    hide Serial;
    hide Ids.Print;
    hide Ids.ParseU64;
    hide Ids.LastPiece;
    if number <= U64_MAX {
      Ids.NumberRoundTrips(s.generation, number);
    }
  }

  lemma NormalIsWhole(s: Snapshot, id: string)
    requires id in s.operations && s.operations[id].scenario.delivery.Normal? && Respond(s, id).Some?
    ensures Whole(Respond(s, id).value)
  {
    hide Receive;
  }

  lemma RespondedPayment(s: Snapshot, id: string)
    requires id in s.operations && Respond(s, id).Some? && Respond(s, id).value.content.Payment?
    ensures Receive(s, id) == Ok(Respond(s, id).value.content.receipt)
  {
    hide Receive;
  }

  /** The receipt read under the lock is the one of the payment held. */
  lemma ReceiptFits(s: Snapshot, id: string, tag: nat, amount: nat)
    requires Settled(s) && Given(id, tag, s.generation, s.nextOperation)
    requires id in s.operations && s.operations[id].amount == amount && Respond(s, id).Some?
    ensures Fits(Respond(s, id).value, tag, id, amount)
    ensures s.operations[id].scenario.delivery.Normal? ==> Whole(Respond(s, id).value)
  {
    assert InPlace(id, s.operations[id], s.nowMs) by { hide InPlace; hide Respond; hide Given; }
    assert s.operations[id].id == id by { hide Settled; hide Respond; hide Given; }
    assert Identified(s.operations.Keys, s.generation, s.nextOperation) by { hide Respond; hide InPlace; }
    hide InPlace;
    hide Settled;
    hide Names;
    hide Receive;
    hide Identified;
    var r := Respond(s, id).value;
    if s.operations[id].scenario.delivery.Normal? {
      NormalIsWhole(s, id);
    }
    if r.content.Payment? && r.content.receipt.Approval? {
      RespondedPayment(s, id);
      GivenIsOfItsGeneration(s, id, tag, s.generation, s.nextOperation);
      hide Respond;
      var n: nat :| IsId(id, tag, n) && (tag < s.generation || (tag == s.generation && n < s.nextOperation));
      ApprovalNames(s, id, n);
    }
    hide Respond;
    hide Whole;
  }

  lemma PollKeeps(w: Wire, socket: nat)
    requires Safe(w) && Enabled(w, Poll(socket))
    ensures Safe(PollOn(w, socket))
  {
    var s, c, t := w.data.engine, w.connections[socket], PollOn(w, socket);
    assert Held(c, w.log, s.generation, s.nextOperation) && (c.id in s.operations ==> s.operations[c.id].amount == c.amount)
      by { hide Settled; hide Tags; hide Book; hide Flags; }
    assert Settled(s) by { hide Tags; hide Records; hide Settled; }
    hide Safe;
    hide Settled;
    hide Respond;
    if c.id in s.operations && Respond(s, c.id).Some? {
      ReceiptFits(s, c.id, c.tag, c.amount);
    }
    hide Fits;
    hide Whole;
    hide Held;
    if t == Closed(w, socket) {
      ClosedKeeps(w, socket);
    } else if t != w {
      NowKeeps(w, socket, t.connections[socket].activity);
    }
  }

  /** A log notice, with the connection that gave it changed or gone. */
  lemma NoticeKeeps(w: Wire, socket: nat, e: Notice, t: Wire)
    requires Safe(w) && t == w.(connections := t.connections, log := w.log + [e])
    requires e.Refused? || e.Answered?
    requires var s := w.data.engine;
      && Tags(t) && Holders(t.connections, t.log, s.generation, s.nextOperation)
      && Book(t.log, s.generation, s.nextOperation) && Amounts(t.connections, s.operations)
    ensures Safe(t)
  {
    hide Settled;
    hide Tags;
    hide Holders;
    hide Book;
    hide Amounts;
    forall id | id in w.data.engine.operations
      ensures w.data.engine.operations[id].responseDelivered <==> HasMarked(t.log, id)
    {
      MoreInTheLog(w.log, e, id, 0);
    }
    hide HasMarked;
  }

  lemma RefusedKeeps(w: Wire, socket: nat)
    requires Safe(w) && Enabled(w, Write(socket)) && w.connections[socket].Refusing?
    ensures Safe(WriteOn(w, socket))
  {
    var s, c, t := w.data.engine, w.connections[socket], WriteOn(w, socket);
    var e := Refused(c.tag, c.fault);
    hide Settled;
    hide Held;
    hide Flags;
    HoldersLeave(w.connections, w.log, socket, s.generation, s.nextOperation);
    HoldersUnmoved(w.connections - {socket}, w.log, e, s.generation, s.nextOperation);
    BookGrows(w.log, e, s.generation, s.nextOperation);
    hide Holders;
    hide Book;
    assert Tags(t);
    hide Tags;
    assert Amounts(t.connections, s.operations);
    hide Amounts;
    NoticeKeeps(w, socket, e, t);
  }

  lemma AnswerIsBooked(connections: map<nat, Connection>, log: seq<Notice>, socket: nat, g: nat, n: nat)
    requires Holders(connections, log, g, n) && Book(log, g, n)
    requires socket in connections && connections[socket].Holding? && connections[socket].activity.Writing?
    ensures var c := connections[socket];
      var more := log + [Answered(c.tag, c.id, c.amount, c.activity.response, c.activity.full)];
      && Book(more, g, n)
      && Holders(connections - {socket}, more, g, n)
      && (c.activity.full ==> Holders(connections[socket := c.(activity := Marking)], more, g, n))
  {
    hide Given;
    hide Fits;
    hide FullyAnswered;
    hide HasAnswered;
    hide HasMarked;
    hide Whole;
    var c := connections[socket];
    var e := Answered(c.tag, c.id, c.amount, c.activity.response, c.activity.full);
    HoldersLeave(connections, log, socket, g, n);
    HoldersUnmoved(connections - {socket}, log, e, g, n);
    BookGrows(log, e, g, n);
    MoreInTheLog(log, e, c.id, c.tag);
    hide Book;
    hide Holders;
    if c.activity.full {
      assert Held(c.(activity := Marking), log + [e], g, n);
      hide Held;
      HoldersJoin(connections, log + [e], socket, c.(activity := Marking), g, n);
    }
  }

  lemma AnsweredKeeps(w: Wire, socket: nat)
    requires Safe(w) && Enabled(w, Write(socket)) && w.connections[socket].Holding?
    ensures Safe(WriteOn(w, socket))
  {
    hide Settled;
    hide Flags;
    hide Holders;
    hide Book;
    hide Amounts;
    var s, c, t := w.data.engine, w.connections[socket], WriteOn(w, socket);
    assert !w.phase.Publishing?;
    hide Tags;
    AnswerIsBooked(w.connections, w.log, socket, s.generation, s.nextOperation);
    assert Narrowed(w.connections, t.connections);
    TagsNarrow(w, t);
    AmountsNarrow(w.connections, t.connections, s.operations);
    hide Narrowed;
    NoticeKeeps(w, socket, Answered(c.tag, c.id, c.amount, c.activity.response, c.activity.full), t);
  }

  lemma DeliverMoves(s: Snapshot, id: string)
    requires id in s.operations && Deliver(s, id).fault.None?
    ensures var t := Deliver(s, id).after;
      && t.generation == s.generation && t.nextOperation == s.nextOperation
      && t.operations == s.operations[id := s.operations[id].(responseDelivered := true)]
  {
  }

  lemma MarkIsBooked(connections: map<nat, Connection>, log: seq<Notice>, socket: nat, g: nat, n: nat)
    requires Holders(connections, log, g, n) && Book(log, g, n)
    requires socket in connections && connections[socket].Holding? && connections[socket].activity.Marking?
    requires connections[socket].tag == g
    ensures var more := log + [Marked(connections[socket].tag, connections[socket].id, g)];
      Book(more, g, n) && Holders(connections - {socket}, more, g, n)
  {
    hide Given;
    hide Fits;
    hide FullyAnswered;
    hide HasAnswered;
    hide HasMarked;
    var c := connections[socket];
    var e := Marked(c.tag, c.id, g);
    HoldersLeave(connections, log, socket, g, n);
    HoldersUnmoved(connections - {socket}, log, e, g, n);
    BookGrows(log, e, g, n);
  }

  lemma MarkFlags(ops: map<string, Operation>, log: seq<Notice>, id: string, tag: nat, g: nat)
    requires Flags(ops, log) && id in ops
    ensures Flags(ops[id := ops[id].(responseDelivered := true)], log + [Marked(tag, id, g)])
  {
    var e, later := Marked(tag, id, g), ops[id := ops[id].(responseDelivered := true)];
    forall k | k in later ensures later[k].responseDelivered <==> HasMarked(log + [e], k) {
      MoreInTheLog(log, e, k, 0);
    }
    hide HasMarked;
  }

  /** The payment held belongs to the engine's generation as long as the engine knows it. */
  lemma HeldIsCurrent(w: Wire, socket: nat)
    requires Safe(w) && Holds(w, socket) && w.connections[socket].id in w.data.engine.operations
    ensures w.connections[socket].tag == w.data.engine.generation
  {
    var s, c := w.data.engine, w.connections[socket];
    assert Held(c, w.log, s.generation, s.nextOperation) by { hide Settled; hide Tags; hide Book; hide Flags; hide Amounts; }
    hide Tags;
    hide Records;
    GivenIsOfItsGeneration(s, c.id, c.tag, s.generation, s.nextOperation);
  }

  lemma MarkedKeeps(w: Wire, socket: nat, t: Wire)
    requires Safe(w) && Enabled(w, Mark(socket))
    requires w.connections[socket].id in w.data.engine.operations && w.connections[socket].tag == w.data.engine.generation
    requires var s, id := w.data.engine, w.connections[socket].id;
      && Settled(t.data.engine) && t.data.engine.generation == s.generation && t.data.engine.nextOperation == s.nextOperation
      && t.data.engine.operations == s.operations[id := s.operations[id].(responseDelivered := true)]
      && t == w.(data := t.data, connections := w.connections - {socket}, log := w.log + [Marked(s.generation, id, s.generation)])
    ensures Safe(t)
  {
    hide Settled;
    hide Holders;
    hide Book;
    hide Flags;
    hide Amounts;
    var s, c := w.data.engine, w.connections[socket];
    assert !w.phase.Publishing?;
    hide Tags;
    assert Narrowed(w.connections, t.connections);
    TagsNarrow(w, t);
    AmountsNarrow(w.connections, t.connections, s.operations);
    hide Narrowed;
    AmountsMark(t.connections, s.operations, c.id);
    MarkIsBooked(w.connections, w.log, socket, s.generation, s.nextOperation);
    MarkFlags(s.operations, w.log, c.id, c.tag, s.generation);
  }

  lemma AmountsMark(connections: map<nat, Connection>, ops: map<string, Operation>, id: string)
    requires Amounts(connections, ops) && id in ops
    ensures Amounts(connections, ops[id := ops[id].(responseDelivered := true)])
  {
  }

  lemma MarkKeeps(w: Wire, socket: nat)
    requires Safe(w) && Enabled(w, Mark(socket))
    ensures Safe(MarkOn(w, socket))
  {
    var s, c := w.data.engine, w.connections[socket];
    var a := Deliver(s, c.id);
    if a.fault.Some? {
      DeliverRefused(s, c.id);
      ClosedKeeps(w, socket);
      hide Safe;
    } else {
      HeldIsCurrent(w, socket);
      assert Settled(s) by { hide Settled; hide Tags; hide Records; }
      DeliverSettles(s, c.id);
      DeliverMoves(s, c.id);
      hide Settled;
      hide Safe;
      hide Deliver;
      MarkedKeeps(w, socket, MarkOn(w, socket));
    }
  }

  lemma DeliverRefused(s: Snapshot, id: string)
    requires Deliver(s, id).fault.Some?
    ensures Deliver(s, id).after == s
  {
  }

  /** The next id has never been heard of. */
  lemma NextIsUnheardOf(connections: map<nat, Connection>, log: seq<Notice>, g: nat, n: nat)
    requires Holders(connections, log, g, n) && Book(log, g, n)
    ensures var id := Ids.Print(g, n);
      && !HasBegun(log, id) && !HasAnswered(log, id) && !HasMarked(log, id)
      && forall c :: c in connections && connections[c].Holding? ==> connections[c].id != id
  {
    hide Given;
    hide Fits;
    hide FullyAnswered;
    var id := Ids.Print(g, n);
    forall i | 0 <= i < |log| && !log[i].Refused? ensures log[i].id != id {
      assert Fitting(log[i], log[..i], g, n);
      NextIsNotGiven(log[i].tag, g, n);
    }
    forall c | c in connections && connections[c].Holding? ensures connections[c].id != id {
      assert Held(connections[c], log, g, n);
      NextIsNotGiven(connections[c].tag, g, n);
    }
  }

  /** A purchase accepted on a connection: the holder joins and the log says so. */
  lemma BeginIsBooked(connections: map<nat, Connection>, log: seq<Notice>, socket: nat, amount: nat, g: nat, n: nat)
    requires Holders(connections, log, g, n) && Book(log, g, n) && n >= 1
    ensures var id := Ids.Print(g, n); var more := log + [Begun(g, id, amount, g)];
      && Book(more, g, n + 1)
      && Holders(connections[socket := Holding(g, id, amount, Checking)], more, g, n + 1)
  {
    var id := Ids.Print(g, n);
    var e := Begun(g, id, amount, g);
    NextIsUnheardOf(connections, log, g, n);
    RecordsLater(connections, log, g, n, g, n + 1);
    assert IsId(id, g, n);
    assert Given(id, g, g, n + 1);
    hide Given;
    hide Fits;
    hide FullyAnswered;
    hide HasBegun;
    hide HasAnswered;
    hide HasMarked;
    HoldersLeave(connections, log, socket, g, n + 1);
    HoldersUnmoved(connections - {socket}, log, e, g, n + 1);
    BookGrows(log, e, g, n + 1);
    MoreInTheLog(log, e, id, g);
    hide Book;
    hide Holders;
    assert Held(Holding(g, id, amount, Checking), log + [e], g, n + 1);
    hide Held;
    HoldersJoin(connections, log + [e], socket, Holding(g, id, amount, Checking), g, n + 1);
  }

  /** What a purchase does to the engine, as far as the records care. */
  lemma StartMoves(w: Wire, device: string, amount: nat, merchant: Option<string>)
    requires Safe(w) && Room(w.data)
    ensures AllSteppable(w.data.engine.operations)
    ensures var s := w.data.engine; var a := M.Start(s, device, amount, merchant);
      && Safe(w.(data := w.data.(engine := a.after)))
      && a.after.generation == s.generation
      && (a.fault.None? ==>
            && a.after.nextOperation == s.nextOperation + 1
            && NextId(s) in a.after.operations && a.after.operations[NextId(s)].amount == amount)
  {
    assert QueueUsable(w.data.engine.queue) by { hide M.Start; hide Tags; hide Records; }
    hide Settled;
    hide M.Start;
    hide Follows;
    hide Records;
    SettledIsSteppable(w.data.engine);
    hide Actionable;
    StartOfEngine(w.data.engine, device, amount, merchant);
    hide AllSteppable;
    var t := M.Start(w.data.engine, device, amount, merchant).after;
    MovingKeepsRecords(w, t);
    TagsStay(w, t);
    hide Tags;
  }

  lemma TagsStay(w: Wire, t: Snapshot)
    requires Tags(w) && t.generation == w.data.engine.generation
    ensures Tags(w.(data := w.data.(engine := t)))
  {
  }

  lemma StartOfEngine(s: Snapshot, device: string, amount: nat, merchant: Option<string>)
    requires Settled(s) && ClockRoom(s) && AllSteppable(s.operations)
    ensures var a := M.Start(s, device, amount, merchant);
      && Settled(a.after) && Follows(s, a.after) && a.after.generation == s.generation
      && (a.fault.None? ==>
            && a.after.nextOperation == s.nextOperation + 1
            && NextId(s) in a.after.operations && a.after.operations[NextId(s)].amount == amount)
  {
    StartSettles(s, device, amount, merchant);
    StartSpends(s, device, amount, merchant);
    CallFollows(s, StartCall(device, amount, merchant));
    if M.Start(s, device, amount, merchant).fault.None? {
      StartedTerms(s, device, amount, merchant);
    }
    hide Settled;
    hide M.Start;
    hide Follows;
  }

  lemma RefusingKeeps(w: Wire, socket: nat, fault: Fault)
    requires Safe(w) && socket in w.connections && w.connections[socket].Reading?
    ensures Safe(w.(connections := w.connections[socket := Refusing(w.connections[socket].tag, fault)]))
  {
    hide Settled;
    hide Held;
    hide Book;
    hide Flags;
  }

  lemma BegunKeeps(w: Wire, socket: nat, amount: nat, t: Wire)
    requires Safe(w) && socket in w.connections && w.connections[socket].tag == w.data.engine.generation
    requires Safe(w.(data := t.data)) && t.data.engine.generation == w.data.engine.generation
    requires t.data.engine.nextOperation == w.data.engine.nextOperation + 1 && w.data.engine.nextOperation >= 1
    requires var id := NextId(w.data.engine); id in t.data.engine.operations && t.data.engine.operations[id].amount == amount
    requires var s := w.data.engine;
      t == w.(data := t.data,
              connections := w.connections[socket := Holding(s.generation, NextId(s), amount, Checking)],
              log := w.log + [Begun(s.generation, NextId(s), amount, s.generation)])
    ensures Safe(t)
  {
    hide Settled;
    hide Holders;
    hide Book;
    hide Flags;
    hide Amounts;
    var s := w.data.engine;
    assert !w.phase.Publishing?;
    assert Current(w.connections[socket], w.listenerGeneration, w.acknowledged, s.generation);
    BeginIsBooked(w.connections, w.log, socket, amount, s.generation, s.nextOperation);
    FlagsUnmarked(t.data.engine.operations, w.log, Begun(s.generation, NextId(s), amount, s.generation));
    AmountsJoin(w.connections, t.data.engine.operations, socket, Holding(s.generation, NextId(s), amount, Checking));
  }

  lemma FlagsUnmarked(ops: map<string, Operation>, log: seq<Notice>, e: Notice)
    requires Flags(ops, log) && !e.Marked?
    ensures Flags(ops, log + [e])
  {
    forall id | id in ops ensures ops[id].responseDelivered <==> HasMarked(log + [e], id) {
      MoreInTheLog(log, e, id, 0);
    }
    hide HasMarked;
  }

  lemma AmountsJoin(connections: map<nat, Connection>, ops: map<string, Operation>, socket: nat, c: Connection)
    requires Amounts(connections, ops) && c.Holding? && (c.id in ops ==> ops[c.id].amount == c.amount)
    ensures Amounts(connections[socket := c], ops)
  {
  }

  lemma PurchaseKeeps(w: Wire, socket: nat, device: string, amount: nat, merchant: Option<string>)
    requires Safe(w) && Room(w.data) && socket in w.connections && w.connections[socket].Reading?
    ensures Safe(PurchaseOn(w, socket, device, amount, merchant))
  {
    hide Tags;
    hide Records;
    var s, tag := w.data.engine, w.connections[socket].tag;
    assert s.nextOperation >= 1;
    hide Settled;
    SettledIsSteppable(s);
    hide M.Start;
    if s.generation != tag {
      ClosedKeeps(w, socket);
    } else {
      StartMoves(w, device, amount, merchant);
      var a := M.Start(s, device, amount, merchant);
      var t := w.(data := w.data.(engine := a.after));
      hide Safe;
      if a.fault.None? {
        BegunKeeps(w, socket, amount, PurchaseOn(w, socket, device, amount, merchant));
      } else if a.fault.value.DisconnectedBeforeAccept? {
        ClosedKeeps(t, socket);
      } else {
        RefusingKeeps(t, socket, a.fault.value);
      }
    }
  }

  /** Whatever happens next, in whatever order, the invariant stands. */
  lemma StepKeeps(w: Wire, step: Step, controlled: bool)
    requires Safe(w) && Room(w.data) && Enabled(w, step)
    ensures Safe(After(w, step, controlled))
  {
    assert Settled(w.data.engine) by { hide Settled; hide Tags; hide Records; }
    SettledIsSteppable(w.data.engine);
    if IsListening(step) {
      ListeningKeeps(w, step, controlled);
      hide *;
    } else {
      hide Safe;
      hide Settled;
      hide ControlOn;
      hide PurchaseOn;
      hide CheckOn;
      hide PollOn;
      hide WriteOn;
      hide MarkOn;
      hide Closed;
      match step
      case Control(c) => ControlKeeps(w, c, controlled);
      case Tag(socket) => TagKeeps(w, socket);
      case Tick(delta) => TickKeeps(w, delta);
      case Purchase(socket, device, amount, merchant) => PurchaseKeeps(w, socket, device, amount, merchant);
      case Check(socket) => CheckKeeps(w, socket);
      case Poll(socket) => PollKeeps(w, socket);
      case Write(socket) => if w.connections[socket].Refusing? { RefusedKeeps(w, socket); } else { AnsweredKeeps(w, socket); }
      case Mark(socket) => MarkKeeps(w, socket);
      case End(socket) => ClosedKeeps(w, socket);
    }
  }

  // ---------------------------------------------------------------- whole runs

  /** The steps can be taken one after the other, with room on the clock throughout. */
  ghost predicate Possible(w: Wire, steps: seq<Step>, controlled: bool)
    requires Safe(w)
    decreases |steps|
  {
    steps == [] ||
    (Room(w.data) && Enabled(w, steps[0])
     && (StepKeeps(w, steps[0], controlled); Possible(After(w, steps[0], controlled), steps[1..], controlled)))
  }

  ghost function Run(w: Wire, steps: seq<Step>, controlled: bool): (end: Wire)
    requires Safe(w) && Possible(w, steps, controlled)
    ensures Safe(end)
    decreases |steps|
  {
    if steps == [] then w
    else
      StepKeeps(w, steps[0], controlled);
      Run(After(w, steps[0], controlled), steps[1..], controlled)
  }

  lemma OneStep(w: Wire, step: Step, rest: seq<Step>, controlled: bool)
    requires Safe(w) && Room(w.data) && Enabled(w, step)
    ensures Safe(After(w, step, controlled))
    ensures Possible(w, [step] + rest, controlled)
       <==> Possible(After(w, step, controlled), rest, controlled)
    ensures Possible(w, [step] + rest, controlled) ==>
      Run(w, [step] + rest, controlled) == Run(After(w, step, controlled), rest, controlled)
  {
    StepKeeps(w, step, controlled);
    hide Safe;
    hide After;
    assert ([step] + rest)[1..] == rest;
  }

  lemma RunBegins(w: Wire, steps: seq<Step>, controlled: bool)
    requires Safe(w) && Possible(w, steps, controlled) && steps != []
    ensures Settled(w.data.engine) && Room(w.data) && Enabled(w, steps[0])
  {
    SafeIsSettled(w);
    hide Safe;
    hide After;
    hide Settled;
  }

  lemma InitialIsSafe(epoch: nat)
    ensures Safe(Initial(epoch))
  {
    FreshSettles(Some(epoch));
    hide Settled;
  }

  /** In every interleaving, each live connection is at least as new as what the listener has published
      and as every acknowledged reset, and no newer than the engine. */
  lemma NoStaleConnection(epoch: nat, steps: seq<Step>, controlled: bool)
    requires Safe(Initial(epoch)) && Possible(Initial(epoch), steps, controlled)
    ensures var w := Run(Initial(epoch), steps, controlled);
      forall c :: c in w.connections ==>
        && w.listenerGeneration <= w.connections[c].tag <= w.data.engine.generation
        && forall r :: r in w.acknowledged ==> r <= w.connections[c].tag
  {
    hide Settled;
    hide Records;
    hide After;
    var w := Run(Initial(epoch), steps, controlled);
    assert Safe(w);
    forall c | c in w.connections
      ensures Current(w.connections[c], w.listenerGeneration, w.acknowledged, w.data.engine.generation)
    {
    }
  }

  /** Nothing new in the log, or one notice from a connection that was live. */
  ghost predicate Speaks(w: Wire, log: seq<Notice>) {
    log == w.log || exists e, c :: log == w.log + [e] && c in w.connections && e.tag == w.connections[c].tag
  }

  lemma SpeaksFor(w: Wire, e: Notice, socket: nat)
    requires socket in w.connections && e.tag == w.connections[socket].tag
    ensures Speaks(w, w.log + [e])
  {
  }

  lemma PurchaseSays(w: Wire, socket: nat, device: string, amount: nat, merchant: Option<string>)
    requires Settled(w.data.engine) && socket in w.connections && w.connections[socket].Reading?
    ensures var t, s := PurchaseOn(w, socket, device, amount, merchant), w.data.engine;
      && t.acknowledged == w.acknowledged
      && (t.log == w.log
          || (s.generation == w.connections[socket].tag
              && t.log == w.log + [Begun(s.generation, NextId(s), amount, s.generation)]))
  {
    assert QueueUsable(w.data.engine.queue) by { hide M.Start; }
    SettledIsSteppable(w.data.engine);
    hide Settled;
    hide M.Start;
    hide Actionable;
    hide AllSteppable;
    hide QueueUsable;
    hide NextId;
  }

  lemma PurchaseSpeaks(w: Wire, socket: nat, device: string, amount: nat, merchant: Option<string>)
    requires Settled(w.data.engine) && socket in w.connections && w.connections[socket].Reading?
    ensures Speaks(w, PurchaseOn(w, socket, device, amount, merchant).log)
    ensures PurchaseOn(w, socket, device, amount, merchant).acknowledged == w.acknowledged
  {
    hide Settled;
    hide PurchaseOn;
    var s := w.data.engine;
    PurchaseSays(w, socket, device, amount, merchant);
    NothingSpeaks(w);
    if s.generation == w.connections[socket].tag {
      SpeaksFor(w, Begun(s.generation, NextId(s), amount, s.generation), socket);
    }
    hide Speaks;
  }

  lemma NothingSpeaks(w: Wire)
    ensures Speaks(w, w.log)
  {
  }

  lemma WriteSpeaks(w: Wire, socket: nat)
    requires Enabled(w, Write(socket))
    ensures Speaks(w, WriteOn(w, socket).log) && WriteOn(w, socket).acknowledged == w.acknowledged
  {
    var t := WriteOn(w, socket);
    SpeaksFor(w, t.log[|w.log|], socket);
    hide Speaks;
  }

  lemma MarkSpeaks(w: Wire, socket: nat)
    requires Enabled(w, Mark(socket))
    ensures Speaks(w, MarkOn(w, socket).log) && MarkOn(w, socket).acknowledged == w.acknowledged
  {
    var c := w.connections[socket];
    NothingSpeaks(w);
    SpeaksFor(w, Marked(c.tag, c.id, w.data.engine.generation), socket);
    hide Speaks;
    hide Deliver;
  }

  /** The other turns of a connection say nothing. */
  lemma SilentTurns(w: Wire, socket: nat)
    requires Holds(w, socket)
    ensures CheckOn(w, socket).log == w.log && CheckOn(w, socket).acknowledged == w.acknowledged
    ensures PollOn(w, socket).log == w.log && PollOn(w, socket).acknowledged == w.acknowledged
  {
    hide Respond;
    hide ResponseDue;
  }

  /** A step adds at most one notice, from a connection that was live. */
  lemma StepSpeaksForTheLiving(w: Wire, step: Step, controlled: bool)
    requires Safe(w) && Room(w.data) && Enabled(w, step)
    ensures Settled(w.data.engine)
    ensures w.acknowledged <= After(w, step, controlled).acknowledged && Speaks(w, After(w, step, controlled).log)
  {
    SafeIsSettled(w);
    hide Safe;
    NothingSpeaks(w);
    hide Speaks;
    SettledIsSteppable(w.data.engine);
    hide Settled;
    hide Room;
    hide Actionable;
    hide AllSteppable;
    hide PurchaseOn;
    hide CheckOn;
    hide PollOn;
    hide WriteOn;
    hide MarkOn;
    hide Execute;
    hide Applied;
    hide M.Advance;
    match step
    case Purchase(socket, device, amount, merchant) => PurchaseSpeaks(w, socket, device, amount, merchant);
    case Check(socket) => SilentTurns(w, socket);
    case Poll(socket) => SilentTurns(w, socket);
    case Write(socket) => WriteSpeaks(w, socket);
    case Mark(socket) => MarkSpeaks(w, socket);
    case _ =>
  }

  /** Once the reset to generation `g` is acknowledged, whatever runs next: no payment of an older
      connection is started, answered, refused or marked any more. */
  lemma {:induction false} AcknowledgedResetIsFinal(w: Wire, g: nat, steps: seq<Step>, controlled: bool)
    requires Safe(w) && g in w.acknowledged && Possible(w, steps, controlled)
    ensures var t := Run(w, steps, controlled);
      && |w.log| <= |t.log| && t.log[..|w.log|] == w.log
      && forall i :: |w.log| <= i < |t.log| ==> t.log[i].tag >= g
    decreases |steps|
  {
    if steps == [] {
      assert w.log[..|w.log|] == w.log;
    } else {
      hide After;
      hide Settled;
      hide Records;
      hide Speaks;
      StepKeeps(w, steps[0], controlled);
      StepSpeaksForTheLiving(w, steps[0], controlled);
      var u := After(w, steps[0], controlled);
      AcknowledgedResetIsFinal(u, g, steps[1..], controlled);
      NoticeIsCurrent(w, g, u.log);
      hide Tags;
      assert Run(w, steps, controlled) == Run(u, steps[1..], controlled);
      LogsTogether(w.log, u.log, Run(u, steps[1..], controlled).log, g);
    }
  }

  lemma NoticeIsCurrent(w: Wire, g: nat, log: seq<Notice>)
    requires Tags(w) && g in w.acknowledged
    requires Speaks(w, log)
    ensures |w.log| <= |log| && log[..|w.log|] == w.log && forall i :: |w.log| <= i < |log| ==> log[i].tag >= g
  {
    if log != w.log {
      var e, c :| log == w.log + [e] && c in w.connections && e.tag == w.connections[c].tag;
      assert Current(w.connections[c], w.listenerGeneration, w.acknowledged, w.data.engine.generation);
    }
  }

  lemma LogsTogether(a: seq<Notice>, b: seq<Notice>, c: seq<Notice>, g: nat)
    requires |a| <= |b| <= |c| && b[..|a|] == a && c[..|b|] == b
    requires forall i :: |a| <= i < |b| ==> b[i].tag >= g
    requires forall i :: |b| <= i < |c| ==> c[i].tag >= g
    ensures c[..|a|] == a && forall i :: |a| <= i < |c| ==> c[i].tag >= g
  {
    assert c[..|a|] == c[..|b|][..|a|];
    forall i | |a| <= i < |b| ensures c[i].tag >= g {
      assert c[..|b|][i] == b[i];
    }
  }

  /** A connection tagged `k` only ever starts, answers for and marks payments of generation `k`; each is
      started, answered and marked at most once; an answer comes after its start, and a mark after a
      whole answer. */
  lemma PaymentsStayWithTheirConnection(epoch: nat, steps: seq<Step>, controlled: bool)
    requires Safe(Initial(epoch)) && Possible(Initial(epoch), steps, controlled)
    ensures var log := Run(Initial(epoch), steps, controlled).log;
      && (forall i :: 0 <= i < |log| && !log[i].Refused? ==> exists n: nat :: IsId(log[i].id, log[i].tag, n))
      && (forall i :: 0 <= i < |log| && log[i].Begun? ==> log[i].generation == log[i].tag)
      && (forall i :: 0 <= i < |log| && log[i].Marked? ==>
            log[i].generation == log[i].tag && FullyAnswered(log[..i], log[i].tag, log[i].id))
      && (forall i :: 0 <= i < |log| && log[i].Answered? ==> Begun(log[i].tag, log[i].id, log[i].amount, log[i].tag) in log[..i])
      && (forall i, j :: 0 <= i < j < |log| ==> !SameKind(log[i], log[j]))
  {
    hide Settled;
    hide After;
    hide Fits;
    hide FullyAnswered;
    hide Holders;
    hide Flags;
    hide Amounts;
    var w := Run(Initial(epoch), steps, controlled);
    assert Book(w.log, w.data.engine.generation, w.data.engine.nextOperation);
    forall i | 0 <= i < |w.log| && !w.log[i].Refused? ensures exists n: nat :: IsId(w.log[i].id, w.log[i].tag, n) {
      assert Fitting(w.log[i], w.log[..i], w.data.engine.generation, w.data.engine.nextOperation);
    }
  }

  /** An approval answered on a connection tagged `k` names the payment that connection started: its
      number and reference, and the amount it asked for. */
  lemma ApprovalsNameTheirPayment(epoch: nat, steps: seq<Step>, controlled: bool, i: nat)
    requires Safe(Initial(epoch)) && Possible(Initial(epoch), steps, controlled)
    requires var log := Run(Initial(epoch), steps, controlled).log;
      i < |log| && log[i].Answered? && log[i].response.content.Payment? && log[i].response.content.receipt.Approval?
    ensures var log := Run(Initial(epoch), steps, controlled).log; var receipt := log[i].response.content.receipt;
      && Begun(log[i].tag, log[i].id, receipt.amount, log[i].tag) in log[..i]
      && exists n: nat :: IsId(log[i].id, log[i].tag, n) && (n <= U64_MAX ==> Names(receipt, log[i].tag, n))
  {
    hide Settled;
    hide After;
    hide FullyAnswered;
    hide Holders;
    hide Flags;
    hide Amounts;
    hide Given;
    var w := Run(Initial(epoch), steps, controlled);
    assert Book(w.log, w.data.engine.generation, w.data.engine.nextOperation);
    assert Fitting(w.log[i], w.log[..i], w.data.engine.generation, w.data.engine.nextOperation);
  }

  /** The payments marked as delivered by connections of a generation. */
  ghost function MarkedIn(log: seq<Notice>, generation: nat): set<string> {
    set i | 0 <= i < |log| && log[i].Marked? && log[i].tag == generation :: log[i].id
  }

  /** The engine's delivery count is the number of payments of its generation whose whole answer was
      written out: no other step ever counts a delivery, and none is lost or counted twice. */
  lemma DeliveredCountsWholeAnswers(epoch: nat, steps: seq<Step>, controlled: bool)
    requires Safe(Initial(epoch)) && Possible(Initial(epoch), steps, controlled)
    ensures var w := Run(Initial(epoch), steps, controlled);
      w.data.engine.counters.delivered == |MarkedIn(w.log, w.data.engine.generation)|
  {
    var w := Run(Initial(epoch), steps, controlled);
    assert Safe(w);
    DeliveredAreMarked(w.data.engine, w.log);
    hide After;
    hide Holders;
    hide Amounts;
    hide Book;
    hide Flags;
  }

  lemma DeliveredAreMarked(s: Snapshot, log: seq<Notice>)
    requires Identified(s.operations.Keys, s.generation, s.nextOperation)
    requires Flags(s.operations, log) && Book(log, s.generation, s.nextOperation)
    ensures EngineInvariants.Answered(s.operations) == MarkedIn(log, s.generation)
  {
    forall id | id in s.operations && s.operations[id].responseDelivered ensures id in MarkedIn(log, s.generation) {
      var i :| 0 <= i < |log| && log[i].Marked? && log[i].id == id;
      assert Fitting(log[i], log[..i], s.generation, s.nextOperation);
      GivenIsOfItsGeneration(s, id, log[i].tag, s.generation, s.nextOperation);
    }
    forall i | 0 <= i < |log| && log[i].Marked? && log[i].tag == s.generation
      ensures log[i].id in EngineInvariants.Answered(s.operations)
    {
      assert Fitting(log[i], log[..i], s.generation, s.nextOperation);
      GivenNowIsKnown(s, log[i].id);
      assert HasMarked(log, log[i].id);
    }
  }
}
