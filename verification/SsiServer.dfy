/** The SSI server's sockets: each answers its frames one at a time, in fragments, while resets, chunks
    and other sockets interleave. A transition system in which every interleaving is a run. */
module SsiServer {
  import opened Prelude
  import opened SsiCodec
  import T = SsiTerminal

  // ---------------------------------------------------------------- state

  /** JSON text, which this model leaves uninterpreted: which DATA is JSON, the request it holds, and
      the DATA of a reply (with the status overwritten by an unknown one, or not). */
  datatype Json = Json(isJson: Bytes -> bool, read: Bytes -> T.Request, write: (T.Reply, bool) -> Bytes)

  datatype Fault = Normal | Silence | Close | UnknownStatus | Spoil(fault: FrameFault)

  /** A reply to the frame handled as number `number`, and its bytes. */
  datatype Answer = Answer(number: nat, reply: T.Reply, fault: Fault, raw: Bytes)

  datatype Queued = Queued(frame: Decoded, generation: nat)

  /** What a socket's chain is doing; an answer given up leaves the bytes already written. */
  datatype Job =
    | Resting
    | Delaying(answer: Answer, generation: nat)
    | Sending(answer: Answer, at: nat, generation: nat)
    | Abandoned(part: Bytes)

  /** `chunks` received, `decoded` frames, those `handled`, answers `sent` and bytes `written` so far. */
  datatype Socket = Socket(
    pending: Bytes, queue: seq<Queued>, job: Job, gone: bool,
    chunks: seq<Bytes>, decoded: seq<Decoded>, handled: seq<Decoded>, sent: seq<Answer>, written: Bytes)

  datatype Server = Server(terminal: T.Terminal, sockets: map<nat, Socket>)

  /** The fault and the fragment size are the governing scenario's choice. */
  datatype Step =
    | Connect(socket: nat) | Data(socket: nat, chunk: Bytes) | Break(socket: nat)
    | Begin(socket: nat, fault: Fault, now: int, start: int, stamp: int)
    | Resume(socket: nat) | Send(socket: nat, size: nat)
    | Tick(now: int) | Arm(scenario: T.Scenario) | Reset(preserveResult: bool)

  const INITIAL := Server(T.Terminal(1, T.DEFAULT, None, None), map[])

  // ---------------------------------------------------------------- steps

  predicate Enabled(w: Server, step: Step) {
    match step
    case Connect(k) => k !in w.sockets
    case Data(k, _) => k in w.sockets && !w.sockets[k].gone
    case Break(k) => k in w.sockets
    case Begin(k, _, _, _, _) =>
      k in w.sockets && w.sockets[k].queue != [] && (w.sockets[k].job.Resting? || w.sockets[k].job.Abandoned?)
    case Resume(k) => k in w.sockets && w.sockets[k].job.Delaying?
    case Send(k, size) => k in w.sockets && w.sockets[k].job.Sending? && size > 0
    case Tick(_) => true
    case Arm(_) => true
    case Reset(_) => true
  }

  function Stamped(frames: seq<Decoded>, generation: nat): (r: seq<Queued>)
    ensures |r| == |frames| && forall i :: 0 <= i < |r| ==> r[i] == Queued(frames[i], generation)
  {
    seq(|frames|, i requires 0 <= i < |frames| => Queued(frames[i], generation))
  }

  function Received(json: Json, s: Socket, chunk: Bytes, generation: nat): Socket {
    var p := Parse(json.isJson, s.pending + chunk);
    s.(pending := Kept(p), queue := s.queue + Stamped(Emitted(p), generation),
       chunks := s.chunks + [chunk], decoded := s.decoded + Emitted(p))
  }

  /** The bytes of an answer, unless encoding throws. JSON text is never empty. */
  function Prepared(json: Json, reply: T.Reply, fault: Fault): Option<Bytes> {
    var data := json.write(reply, fault.UnknownStatus?);
    if data == [] || |data| > MAX_DATA then None
    else if fault.Spoil? then Spoiled(fault.fault, data)
    else Some(Frame(data))
  }

  /** The terminal's reply to a frame, and the terminal after it. */
  function Replied(json: Json, t: T.Terminal, frame: Decoded, now: int, start: int, stamp: int): T.Response {
    match frame
    case Payload(_, data) => T.Handle(t, json.read(data), now, start, stamp)
    case BadChecksum(_) => T.Response(t, T.Reply("Unknown", T.E(2), T.NoBody))
    case NotJson(_) => T.Response(t, T.Reply("Unknown", T.E(3), T.NoBody))
    case Unframed(_) => T.Response(t, T.Reply("Unknown", T.E(1), T.NoBody))
  }

  /** What becomes of a socket that has handled a frame and settled on a reply. */
  function Answering(json: Json, s: Socket, number: nat, reply: T.Reply, fault: Fault, generation: nat): Socket {
    if fault.Silence? then s
    else if fault.Close? then s.(gone := true)
    else
      var raw := Prepared(json, reply, fault);
      if raw.None? then s.(gone := true) else s.(job := Delaying(Answer(number, reply, fault, raw.value), generation))
  }

  function BeginOn(json: Json, w: Server, step: Step): Server
    requires step.Begin? && Enabled(w, step)
  {
    var s := w.sockets[step.socket];
    var head, rest := s.queue[0], s.(queue := s.queue[1..]);
    if s.gone || head.generation != w.terminal.generation then w.(sockets := w.sockets[step.socket := rest])
    else
      var next := rest.(handled := s.handled + [head.frame]);
      if head.frame.Unframed? then w.(sockets := w.sockets[step.socket := next.(gone := true)])
      else
        var r := Replied(json, w.terminal, head.frame, step.now, step.start, step.stamp);
        Server(r.after, w.sockets[step.socket := Answering(json, next, |s.handled|, r.reply, step.fault, head.generation)])
  }

  function Abandon(s: Socket, part: Bytes): Socket { s.(job := Abandoned(part)) }

  function SendOn(s: Socket, size: nat, generation: nat): Socket
    requires s.job.Sending? && size > 0
  {
    var j := s.job;
    if s.gone || j.generation != generation then Abandon(s, j.answer.raw[..Min(j.at, |j.answer.raw|)])
    else if j.at + size >= |j.answer.raw| then
      s.(written := s.written + j.answer.raw[Min(j.at, |j.answer.raw|)..], sent := s.sent + [j.answer], job := Resting)
    else s.(written := s.written + j.answer.raw[j.at..j.at + size], job := j.(at := j.at + size))
  }

  function Closed(s: Socket): Socket { s.(gone := true) }

  function After(json: Json, w: Server, step: Step): Server
    requires Enabled(w, step)
  {
    match step
    case Connect(k) => w.(sockets := w.sockets[k := Socket([], [], Resting, false, [], [], [], [], [])])
    case Data(k, chunk) => w.(sockets := w.sockets[k := Received(json, w.sockets[k], chunk, w.terminal.generation)])
    case Break(k) => w.(sockets := w.sockets[k := Closed(w.sockets[k])])
    case Begin(_, _, _, _, _) => BeginOn(json, w, step)
    case Resume(k) =>
      var s := w.sockets[k];
      w.(sockets := w.sockets[k :=
        if s.gone || s.job.generation != w.terminal.generation then Abandon(s, [])
        else s.(job := Sending(s.job.answer, 0, s.job.generation))])
    case Send(k, size) => w.(sockets := w.sockets[k := SendOn(w.sockets[k], size, w.terminal.generation)])
    case Tick(now) => w.(terminal := T.Ticked(w.terminal, now))
    case Arm(scenario) => w.(terminal := T.Arm(w.terminal, scenario))
    case Reset(preserve) =>
      Server(T.Reset(w.terminal, preserve), map k | k in w.sockets :: Closed(w.sockets[k]))
  }

  // ---------------------------------------------------------------- what every interleaving keeps

  function FramesIn(queue: seq<Queued>): (r: seq<Decoded>)
    ensures |r| == |queue| && forall i :: 0 <= i < |r| ==> r[i] == queue[i].frame
  {
    seq(|queue|, i requires 0 <= i < |queue| => queue[i].frame)
  }

  function Raws(sent: seq<Answer>): (r: seq<Bytes>)
    ensures |r| == |sent| && forall i :: 0 <= i < |r| ==> r[i] == sent[i].raw
  {
    if sent == [] then [] else Raws(sent[..|sent| - 1]) + [sent[|sent| - 1].raw]
  }

  function Part(j: Job): Bytes {
    match j
    case Sending(answer, at, _) => answer.raw[..Min(at, |answer.raw|)]
    case Abandoned(part) => part
    case _ => []
  }

  predicate OfGeneration(queue: seq<Queued>, generation: nat) {
    forall i :: 0 <= i < |queue| ==> queue[i].generation == generation
  }

  /** The reply is one to this frame: the decoding error's, or one under the request's own name. */
  predicate Matches(json: Json, frame: Decoded, reply: T.Reply) {
    match frame
    case Payload(_, data) => reply.name == (if json.read(data).name.Some? then json.read(data).name.value else "Unknown")
    case BadChecksum(_) => reply == T.Reply("Unknown", T.E(2), T.NoBody)
    case NotJson(_) => reply == T.Reply("Unknown", T.E(3), T.NoBody)
    case Unframed(_) => false
  }

  /** A prepared answer to one of these handled frames. */
  predicate IsAnswer(json: Json, a: Answer, handled: seq<Decoded>) {
    a.number < |handled| && Matches(json, handled[a.number], a.reply) && Prepared(json, a.reply, a.fault) == Some(a.raw)
  }

  predicate InOrder(json: Json, sent: seq<Answer>, handled: seq<Decoded>) {
    && (forall i :: 0 <= i < |sent| ==> IsAnswer(json, sent[i], handled))
    && (forall i, j :: 0 <= i < j < |sent| ==> sent[i].number < sent[j].number)
  }

  /** A live socket's frames and answer are of the present generation, and nothing has been skipped. */
  predicate Live(s: Socket, generation: nat) {
    && OfGeneration(s.queue, generation)
    && s.decoded == s.handled + FramesIn(s.queue)
    && (s.job.Delaying? || s.job.Sending? ==> s.job.generation == generation)
    && !s.job.Abandoned? && !HasFatal(s.handled)
  }

  predicate Sane(json: Json, s: Socket, generation: nat) {
    && Reception(s.decoded, s.pending) == Receive(json.isJson, [], s.chunks)
    && s.handled <= s.decoded
    && (!s.gone ==> Live(s, generation))
    && s.written == Joined(Raws(s.sent)) + Part(s.job)
    && (s.job.Sending? ==> s.job.at < |s.job.answer.raw|)
    && (if s.job.Delaying? || s.job.Sending?
        then IsAnswer(json, s.job.answer, s.handled) && InOrder(json, s.sent, s.handled[..s.job.answer.number])
        else InOrder(json, s.sent, s.handled))
  }

  ghost predicate Safe(json: Json, w: Server) {
    forall k :: k in w.sockets ==> Sane(json, w.sockets[k], w.terminal.generation)
  }

  // ---------------------------------------------------------------- single steps

  lemma {:induction false} ReceiveMore(isJson: Bytes -> bool, pending: Bytes, chunks: seq<Bytes>, chunk: Bytes)
    ensures var r := Receive(isJson, pending, chunks); var p := Parse(isJson, r.pending + chunk);
      Receive(isJson, pending, chunks + [chunk]) == Reception(r.frames + Emitted(p), Kept(p))
    decreases |chunks|
  {
    hide Parse;
    if chunks == [] {
      assert chunks + [chunk] == [chunk] && [chunk][1..] == [];
    } else {
      var p := Parse(isJson, pending + chunks[0]);
      ReceiveMore(isJson, Kept(p), chunks[1..], chunk);
      assert (chunks + [chunk])[1..] == chunks[1..] + [chunk] && (chunks + [chunk])[0] == chunks[0];
    }
  }

  lemma ReceivedIsSane(json: Json, s: Socket, chunk: Bytes, generation: nat)
    requires Sane(json, s, generation) && !s.gone
    ensures Sane(json, Received(json, s, chunk, generation), generation)
  {
    ReceiveMore(json.isJson, [], s.chunks, chunk);
    hide Parse;
    hide Receive;
    hide HasFatal;
    hide InOrder;
    hide IsAnswer;
    var t := Received(json, s, chunk, generation);
    var more := Emitted(Parse(json.isJson, s.pending + chunk));
    assert FramesIn(t.queue) == FramesIn(s.queue) + more;
    assert t.handled + FramesIn(t.queue) == (s.handled + FramesIn(s.queue)) + more;
  }

  lemma DroppedIsSane(json: Json, s: Socket, generation: nat)
    requires Sane(json, s, generation) && s.gone && s.queue != []
    ensures Sane(json, s.(queue := s.queue[1..]), generation)
  {
    hide Receive;
    hide InOrder;
    hide IsAnswer;
  }

  /** The next frame of a live socket is the next one received. */
  lemma HandledIsNext(s: Socket)
    requires s.queue != [] && s.decoded == s.handled + FramesIn(s.queue)
    ensures var handled := s.handled + [s.queue[0].frame];
      s.decoded == handled + FramesIn(s.queue[1..]) && handled <= s.decoded
  {
    hide FramesIn;
    FramesBeyond(s.queue);
    MoveOne(s.handled, s.queue[0].frame, FramesIn(s.queue[1..]), s.decoded);
  }

  lemma MoveOne(a: seq<Decoded>, x: Decoded, b: seq<Decoded>, all: seq<Decoded>)
    requires all == a + ([x] + b)
    ensures all == (a + [x]) + b && a + [x] <= all
  {
  }

  lemma FramesBeyond(queue: seq<Queued>)
    requires queue != []
    ensures FramesIn(queue) == [queue[0].frame] + FramesIn(queue[1..])
  {
    var all, rest := FramesIn(queue), FramesIn(queue[1..]);
    forall i | 0 <= i < |all| ensures all[i] == ([queue[0].frame] + rest)[i] {
      if i > 0 { assert rest[i - 1] == queue[1..][i - 1].frame; }
    }
  }

  lemma InOrderBelow(json: Json, sent: seq<Answer>, handled: seq<Decoded>, more: seq<Decoded>)
    requires InOrder(json, sent, handled) && handled <= more
    ensures InOrder(json, sent, more)
  {
    hide Prepared;
    hide Matches;
    forall i | 0 <= i < |sent| ensures IsAnswer(json, sent[i], more) {
      assert IsAnswer(json, sent[i], handled);
    }
  }

  lemma NextIsLive(s: Socket, generation: nat)
    requires Live(s, generation) && s.queue != [] && s.job.Resting? && !s.queue[0].frame.Unframed?
    ensures Live(s.(queue := s.queue[1..], handled := s.handled + [s.queue[0].frame]), generation)
  {
    HandledIsNext(s);
    hide FramesIn;
    var handled := s.handled + [s.queue[0].frame];
    forall i | 0 <= i < |handled| ensures !handled[i].Unframed? {
      if i < |s.handled| { assert handled[i] == s.handled[i]; }
    }
  }

  lemma NextIsSane(json: Json, s: Socket, generation: nat)
    requires Sane(json, s, generation) && !s.gone && s.queue != [] && s.job.Resting? && !s.queue[0].frame.Unframed?
    ensures Sane(json, s.(queue := s.queue[1..], handled := s.handled + [s.queue[0].frame]), generation)
  {
    hide Receive;
    hide Joined;
    hide Raws;
    HandledIsNext(s);
    NextIsLive(s, generation);
    hide Live;
    InOrderBelow(json, s.sent, s.handled, s.handled + [s.queue[0].frame]);
    hide InOrder;
    hide FramesIn;
  }

  /** An answer is prepared to the frame handled last. */
  lemma PreparedIsSane(json: Json, s: Socket, a: Answer, generation: nat)
    requires Sane(json, s, generation) && !s.gone && s.job.Resting? && IsAnswer(json, a, s.handled)
    requires InOrder(json, s.sent, s.handled[..a.number])
    ensures Sane(json, s.(job := Delaying(a, generation)), generation)
  {
    hide Receive;
    hide Joined;
    hide Raws;
    hide InOrder;
    hide IsAnswer;
    hide FramesIn;
    hide OfGeneration;
    hide HasFatal;
  }

  lemma AnsweringIsSane(json: Json, s: Socket, reply: T.Reply, fault: Fault, generation: nat)
    requires Sane(json, s, generation) && !s.gone && s.queue != [] && s.job.Resting? && !s.queue[0].frame.Unframed?
    requires Matches(json, s.queue[0].frame, reply)
    ensures var next := s.(queue := s.queue[1..], handled := s.handled + [s.queue[0].frame]);
      Sane(json, Answering(json, next, |s.handled|, reply, fault, generation), generation)
  {
    var next := s.(queue := s.queue[1..], handled := s.handled + [s.queue[0].frame]);
    SentIsInOrder(json, s, generation);
    NextIsSane(json, s, generation);
    hide Sane;
    hide Prepared;
    hide Matches;
    hide InOrder;
    ClosedIsSane(json, next, generation, generation);
    var raw := Prepared(json, reply, fault);
    if raw.Some? {
      assert next.handled[..|s.handled|] == s.handled;
      PreparedIsSane(json, next, Answer(|s.handled|, reply, fault, raw.value), generation);
    }
  }

  lemma FatalIsSane(json: Json, s: Socket, generation: nat)
    requires Sane(json, s, generation) && !s.gone && s.queue != [] && s.job.Resting?
    ensures Sane(json, s.(queue := s.queue[1..], handled := s.handled + [s.queue[0].frame], gone := true), generation)
  {
    hide Receive;
    HandledIsNext(s);
    InOrderBelow(json, s.sent, s.handled, s.handled + [s.queue[0].frame]);
    hide InOrder;
  }

  lemma SendIsSane(json: Json, s: Socket, size: nat, generation: nat)
    requires Sane(json, s, generation) && s.job.Sending? && size > 0
    ensures Sane(json, SendOn(s, size, generation), generation)
  {
    hide Receive;
    hide Prepared;
    hide HasFatal;
    hide OfGeneration;
    hide FramesIn;
    var a := s.job.answer;
    WrittenAfter(s, size, generation);
    InOrderBelow(json, s.sent, s.handled[..a.number], s.handled);
    SentInOrder(json, s.sent, a, s.handled);
    hide InOrder;
    hide Raws;
  }

  lemma WrittenAfter(s: Socket, size: nat, generation: nat)
    requires s.job.Sending? && size > 0 && s.written == Joined(Raws(s.sent)) + Part(s.job)
    ensures var t := SendOn(s, size, generation); t.written == Joined(Raws(t.sent)) + Part(t.job)
  {
    hide Joined;
    var a, at := s.job.answer, s.job.at;
    var t := SendOn(s, size, generation);
    var before := Joined(Raws(s.sent));
    if t.job.Resting? {
      JoinedAppend(Raws(s.sent), a.raw);
      RawsAppend(s.sent, a);
      hide Raws;
      Rejoin(before, a.raw, Min(at, |a.raw|), |a.raw|);
      assert a.raw[..|a.raw|] == a.raw && a.raw[Min(at, |a.raw|)..|a.raw|] == a.raw[Min(at, |a.raw|)..];
    } else if t.job.Sending? {
      hide Raws;
      Rejoin(before, a.raw, at, at + size);
    }
  }

  lemma RawsAppend(sent: seq<Answer>, a: Answer)
    ensures Raws(sent + [a]) == Raws(sent) + [a.raw]
  {
    assert (sent + [a])[..|sent|] == sent;
  }

  lemma Rejoin(before: Bytes, raw: Bytes, at: nat, until: nat)
    requires at <= until <= |raw|
    ensures (before + raw[..at]) + raw[at..until] == before + raw[..until]
  {
    assert raw[..at] + raw[at..until] == raw[..until];
  }

  lemma SentInOrder(json: Json, sent: seq<Answer>, a: Answer, handled: seq<Decoded>)
    requires IsAnswer(json, a, handled) && InOrder(json, sent, handled[..a.number])
    ensures InOrder(json, sent + [a], handled)
  {
    hide Prepared;
    hide Matches;
    InOrderBelow(json, sent, handled[..a.number], handled);
    forall i, j | 0 <= i < j < |sent + [a]| ensures (sent + [a])[i].number < (sent + [a])[j].number {
      assert IsAnswer(json, sent[i], handled[..a.number]);
    }
  }

  lemma RepliedMatches(json: Json, t: T.Terminal, frame: Decoded, now: int, start: int, stamp: int)
    requires !frame.Unframed?
    ensures Matches(json, frame, Replied(json, t, frame, now, start, stamp).reply)
    ensures Replied(json, t, frame, now, start, stamp).after.generation == t.generation
  {
  }

  lemma BeginKeeps(json: Json, w: Server, step: Step)
    requires Safe(json, w) && step.Begin? && Enabled(w, step)
    ensures Safe(json, BeginOn(json, w, step))
  {
    var s, g := w.sockets[step.socket], w.terminal.generation;
    assert Sane(json, s, g);
    hide Sane;
    hide Replied;
    hide Matches;
    hide Answering;
    hide Prepared;
    if s.gone {
      DroppedIsSane(json, s, g);
    } else {
      assert Live(s, g) by { hide Live; LiveUnlessGone(json, s, g); }
      if s.queue[0].frame.Unframed? {
        FatalIsSane(json, s, g);
      } else {
        var r := Replied(json, w.terminal, s.queue[0].frame, step.now, step.start, step.stamp);
        RepliedMatches(json, w.terminal, s.queue[0].frame, step.now, step.start, step.stamp);
        AnsweringIsSane(json, s, r.reply, step.fault, g);
      }
    }
  }

  lemma LiveUnlessGone(json: Json, s: Socket, generation: nat)
    requires Sane(json, s, generation) && !s.gone
    ensures Live(s, generation)
  {
  }

  lemma PreparedIsNotEmpty(json: Json, reply: T.Reply, fault: Fault)
    ensures Prepared(json, reply, fault).Some? ==> Prepared(json, reply, fault).value != []
  {
  }

  lemma ResumedIsSane(json: Json, s: Socket, generation: nat)
    requires Sane(json, s, generation) && s.job.Delaying?
    ensures Sane(json, s.(job := Sending(s.job.answer, 0, s.job.generation)), generation)
    ensures s.gone ==> Sane(json, Abandon(s, []), generation)
    ensures s.gone || s.job.generation == generation
  {
    PreparedIsNotEmpty(json, s.job.answer.reply, s.job.answer.fault);
    hide Receive;
    hide Prepared;
    hide FramesIn;
    hide OfGeneration;
    hide HasFatal;
    InOrderBelow(json, s.sent, s.handled[..s.job.answer.number], s.handled);
    hide InOrder;
    hide Raws;
    hide Joined;
  }

  lemma ClosedIsSane(json: Json, s: Socket, generation: nat, later: nat)
    requires Sane(json, s, generation)
    ensures Sane(json, Closed(s), later)
  {
    hide Receive;
    hide IsAnswer;
    hide InOrder;
    hide Joined;
    hide Raws;
    hide Live;
  }

  /** One socket changed or added. */
  lemma OneSocketChanged(json: Json, w: Server, k: nat, s: Socket)
    requires Safe(json, w) && Sane(json, s, w.terminal.generation)
    ensures Safe(json, w.(sockets := w.sockets[k := s]))
  {
    hide Sane;
  }

  lemma ResetKeeps(json: Json, w: Server, preserve: bool)
    requires Safe(json, w)
    ensures Safe(json, After(json, w, Reset(preserve)))
  {
    var t, g := After(json, w, Reset(preserve)), w.terminal.generation;
    hide Sane;
    forall k | k in t.sockets ensures Sane(json, t.sockets[k], t.terminal.generation) {
      assert Sane(json, w.sockets[k], g);
      ClosedIsSane(json, w.sockets[k], g, t.terminal.generation);
    }
  }

  lemma SaneAt(json: Json, w: Server, k: nat)
    requires Safe(json, w) && k in w.sockets
    ensures Sane(json, w.sockets[k], w.terminal.generation)
  {
  }

  /** What a step about one socket, other than a frame's turn, makes of it. */
  function Turned(json: Json, w: Server, step: Step): Socket
    requires Enabled(w, step) && (step.Data? || step.Break? || step.Resume? || step.Send?)
  {
    var s, g := w.sockets[step.socket], w.terminal.generation;
    match step
    case Data(_, chunk) => Received(json, s, chunk, g)
    case Break(_) => Closed(s)
    case Resume(_) =>
      if s.gone || s.job.generation != g then Abandon(s, []) else s.(job := Sending(s.job.answer, 0, s.job.generation))
    case Send(_, size) => SendOn(s, size, g)
  }

  lemma TurnKeeps(json: Json, w: Server, step: Step)
    requires Safe(json, w) && Enabled(w, step) && (step.Data? || step.Break? || step.Resume? || step.Send?)
    ensures Safe(json, After(json, w, step))
  {
    var k, g := step.socket, w.terminal.generation;
    SaneAt(json, w, k);
    hide Safe;
    hide Sane;
    hide Received;
    hide SendOn;
    match step {
      case Data(_, chunk) => ReceivedIsSane(json, w.sockets[k], chunk, g);
      case Break(_) => ClosedIsSane(json, w.sockets[k], g, g);
      case Resume(_) => ResumedIsSane(json, w.sockets[k], g);
      case Send(_, size) => SendIsSane(json, w.sockets[k], size, g);
    }
    OneSocketChanged(json, w, k, Turned(json, w, step));
  }

  lemma StepKeeps(json: Json, w: Server, step: Step)
    requires Safe(json, w) && Enabled(w, step)
    ensures Safe(json, After(json, w, step))
  {
    if step.Data? || step.Break? || step.Resume? || step.Send? {
      TurnKeeps(json, w, step);
      hide *;
    } else {
      hide Sane;
      hide BeginOn;
      match step
      case Begin(_, _, _, _, _) => BeginKeeps(json, w, step); hide Safe;
      case Reset(preserve) => ResetKeeps(json, w, preserve); hide *;
      case Connect(k) =>
        ConnectedIsSane(json, w.terminal.generation);
        OneSocketChanged(json, w, k, Socket([], [], Resting, false, [], [], [], [], []));
        hide Safe;
      case _ =>
    }
  }

  lemma ConnectedIsSane(json: Json, generation: nat)
    ensures Sane(json, Socket([], [], Resting, false, [], [], [], [], []), generation)
  {
    assert FramesIn([]) == [];
  }

  // ---------------------------------------------------------------- whole runs

  predicate Possible(json: Json, w: Server, steps: seq<Step>)
    decreases |steps|
  {
    steps == [] || (Enabled(w, steps[0]) && Possible(json, After(json, w, steps[0]), steps[1..]))
  }

  ghost function Run(json: Json, w: Server, steps: seq<Step>): (end: Server)
    requires Possible(json, w, steps)
    ensures Safe(json, w) ==> Safe(json, end)
    decreases |steps|
  {
    if steps == [] then w
    else
      assert Safe(json, w) ==> Safe(json, After(json, w, steps[0])) by { if Safe(json, w) { StepKeeps(json, w, steps[0]); } }
      Run(json, After(json, w, steps[0]), steps[1..])
  }

  /** A socket that is gone stays gone: it handles, answers and writes nothing more. */
  lemma {:induction false} GoneIsFinal(json: Json, w: Server, steps: seq<Step>, k: nat)
    requires Possible(json, w, steps) && k in w.sockets && w.sockets[k].gone
    ensures var s, t := w.sockets[k], Run(json, w, steps).sockets;
      k in t && t[k].gone && t[k].handled == s.handled && t[k].sent == s.sent && t[k].written == s.written
    decreases |steps|
  {
    if steps != [] {
      GoneStep(json, w, steps[0], k);
      hide After;
      GoneIsFinal(json, After(json, w, steps[0]), steps[1..], k);
    }
  }

  lemma GoneStep(json: Json, w: Server, step: Step, k: nat)
    requires Enabled(w, step) && k in w.sockets && w.sockets[k].gone
    ensures var s, t := w.sockets[k], After(json, w, step).sockets;
      k in t && t[k].gone && t[k].handled == s.handled && t[k].sent == s.sent && t[k].written == s.written
  {
    hide Replied;
    hide Answering;
    hide Received;
  }

  /** After a reset no socket of before handles another frame or writes another byte, whatever follows. */
  lemma NothingOutlivesAReset(json: Json, w: Server, preserve: bool, steps: seq<Step>, k: nat)
    requires Possible(json, After(json, w, Reset(preserve)), steps) && k in w.sockets
    ensures var s, t := w.sockets[k], Run(json, After(json, w, Reset(preserve)), steps).sockets;
      k in t && t[k].handled == s.handled && t[k].written == s.written
  {
    GoneIsFinal(json, After(json, w, Reset(preserve)), steps, k);
  }

  /** In every interleaving, whatever waits on a live socket is of the present generation: because a reset
      destroys every socket, checking for destruction already implies the generation guard. */
  lemma LiveIsCurrent(json: Json, steps: seq<Step>, k: nat)
    requires Possible(json, INITIAL, steps)
    requires k in Run(json, INITIAL, steps).sockets && !Run(json, INITIAL, steps).sockets[k].gone
    ensures var w := Run(json, INITIAL, steps); Live(w.sockets[k], w.terminal.generation)
  {
    ReachedIsSane(json, steps, k);
    hide Run;
    hide Possible;
    hide Live;
  }

  lemma ReachedIsSane(json: Json, steps: seq<Step>, k: nat)
    requires Possible(json, INITIAL, steps) && k in Run(json, INITIAL, steps).sockets
    ensures var w := Run(json, INITIAL, steps); Sane(json, w.sockets[k], w.terminal.generation)
  {
    assert Safe(json, INITIAL);
    hide Sane;
  }

  lemma {:induction false} BeforeFatalOfPrefix(a: seq<Decoded>, b: seq<Decoded>)
    requires a <= b
    ensures BeforeFatal(a) <= BeforeFatal(b)
  {
    if a != [] {
      assert a[1..] <= b[1..];
      BeforeFatalOfPrefix(a[1..], b[1..]);
    }
  }

  lemma {:induction false} BeforeFatalOfGood(frames: seq<Decoded>)
    requires !HasFatal(frames)
    ensures BeforeFatal(frames) == frames
  {
    BeforeFatalOf(frames, []);
    assert frames + [] == frames && BeforeFatal([]) == [];
  }

  /** What a socket has handled is, in order and without repetition, a beginning of what its byte stream
      means, however the stream was cut; a live socket with nothing waiting has handled all of it. */
  lemma HandledIsTheStream(json: Json, steps: seq<Step>, k: nat)
    requires Possible(json, INITIAL, steps) && k in Run(json, INITIAL, steps).sockets
    ensures var s := Run(json, INITIAL, steps).sockets[k]; var p := Parse(json.isJson, Joined(s.chunks));
      && BeforeFatal(s.handled) <= p.frames
      && (!s.gone && s.queue == [] ==> p == Parsed(s.handled, Pending(s.pending)))
  {
    ReachedIsSane(json, steps, k);
    var w := Run(json, INITIAL, steps);
    SaneIsTheStream(json, w.sockets[k], w.terminal.generation);
    hide Run;
    hide Sane;
    hide Parse;
  }

  lemma SaneIsTheStream(json: Json, s: Socket, generation: nat)
    requires Sane(json, s, generation)
    ensures var p := Parse(json.isJson, Joined(s.chunks));
      && BeforeFatal(s.handled) <= p.frames
      && (!s.gone && s.queue == [] ==> p == Parsed(s.handled, Pending(s.pending)))
  {
    assert [] + Joined(s.chunks) == Joined(s.chunks);
    ChunksDoNotMatter(json.isJson, [], s.chunks);
    BeforeFatalOfPrefix(s.handled, s.decoded);
    hide Parse;
    hide Receive;
    hide InOrder;
    hide IsAnswer;
    if !s.gone && s.queue == [] {
      assert s.decoded == s.handled + [];
      BeforeFatalOfGood(s.handled);
    }
  }

  // ---------------------------------------------------------------- what one frame leads to

  /** Why no answer to this reply can be written: its text too long for a frame, or for the fault to be put in. */
  predicate Unwritable(json: Json, reply: T.Reply, fault: Fault) {
    var data := json.write(reply, fault.UnknownStatus?);
    data == [] || |data| > MAX_DATA || (fault.Spoil? && Spoiled(fault.fault, data).None?)
  }

  /** A socket's turn: a frame of a live one is put to the terminal, and the socket survives it exactly when the
      frame has a header, the fault is not to close and the reply can be written; the reply is then on its way
      unless the fault is silence. Frames of a socket that is gone are dropped unhandled. */
  predicate TurnTaken(json: Json, w: Server, step: Step, s: Socket, t: Socket, after: T.Terminal)
    requires step.Begin? && s.queue != []
  {
    var frame := s.queue[0].frame; var reply := Replied(json, w.terminal, frame, step.now, step.start, step.stamp).reply;
    && t.queue == s.queue[1..] && t.written == s.written && t.sent == s.sent
    && (s.gone ==> t == s.(queue := s.queue[1..]) && after == w.terminal)
    && (!s.gone ==>
          && t.handled == s.handled + [frame]
          && (!t.gone <==> !frame.Unframed? && !step.fault.Close? && (step.fault.Silence? || !Unwritable(json, reply, step.fault)))
          && (t.job.Delaying? <==> !t.gone && !step.fault.Silence?)
          && (t.job.Delaying? ==>
                t.job.answer.number == |s.handled| && t.job.answer.reply == reply && t.job.answer.fault == step.fault)
          && (!t.job.Delaying? ==> t.job.Resting?)
          && after == if frame.Payload? then T.Handle(w.terminal, json.read(frame.data), step.now, step.start, step.stamp).after
                      else w.terminal)
  }

  /** So it is at every turn of every run. */
  lemma SurvivesItsFrameExactly(json: Json, steps: seq<Step>, step: Step)
    requires Possible(json, INITIAL, steps) && step.Begin? && Enabled(Run(json, INITIAL, steps), step)
    ensures var w := Run(json, INITIAL, steps); var u := After(json, w, step);
      u.sockets.Keys == w.sockets.Keys && TurnTaken(json, w, step, w.sockets[step.socket], u.sockets[step.socket], u.terminal)
  {
    var w := Run(json, INITIAL, steps);
    ReachedIsSane(json, steps, step.socket);
    hide Run;
    hide Possible;
    if !w.sockets[step.socket].gone {
      LiveUnlessGone(json, w.sockets[step.socket], w.terminal.generation);
    }
    hide Sane;
    hide Live;
    hide TurnTaken;
    TurnIsTaken(json, w, step);
    hide BeginOn;
  }

  lemma TurnIsTaken(json: Json, w: Server, step: Step)
    requires step.Begin? && Enabled(w, step)
    requires var s := w.sockets[step.socket]; s.gone || Live(s, w.terminal.generation)
    ensures var u := BeginOn(json, w, step);
      u.sockets.Keys == w.sockets.Keys && TurnTaken(json, w, step, w.sockets[step.socket], u.sockets[step.socket], u.terminal)
  {
    var s := w.sockets[step.socket];
    if !s.gone {
      LiveIsReady(s, w.terminal.generation);
      hide Live;
      var reply := Replied(json, w.terminal, s.queue[0].frame, step.now, step.start, step.stamp).reply;
      var next := s.(queue := s.queue[1..], handled := s.handled + [s.queue[0].frame]);
      AnsweredUnlessUnwritable(json, next, |s.handled|, reply, step.fault, s.queue[0].generation);
    }
    hide Live;
    hide Answering;
    hide Unwritable;
    hide T.Handle;
  }

  lemma LiveIsReady(s: Socket, generation: nat)
    requires Live(s, generation) && s.queue != [] && (s.job.Resting? || s.job.Abandoned?)
    ensures s.queue[0].generation == generation && s.job.Resting?
  {
    hide HasFatal;
  }

  lemma AnsweredUnlessUnwritable(json: Json, s: Socket, number: nat, reply: T.Reply, fault: Fault, generation: nat)
    requires !s.gone && s.job.Resting?
    ensures var t := Answering(json, s, number, reply, fault, generation);
      && t == s.(gone := t.gone, job := t.job)
      && (!t.gone <==> !fault.Close? && (fault.Silence? || !Unwritable(json, reply, fault)))
      && (t.job.Delaying? <==> !t.gone && !fault.Silence?)
      && (t.job.Delaying? ==>
            t.job.answer.number == number && t.job.answer.reply == reply && t.job.answer.fault == fault)
      && (!t.job.Delaying? ==> t.job.Resting?)
  {
    hide Spoiled;
  }

  // ---------------------------------------------------------------- what the client reads

  predicate Plain(fault: Fault) { fault.Normal? || fault.UnknownStatus? }

  /** The DATA of an answer written without a frame fault. */
  function DataOf(json: Json, a: Answer): Bytes { json.write(a.reply, a.fault.UnknownStatus?) }

  /** Every answer so far, and the one being written, is free of frame faults. */
  predicate AllPlain(s: Socket) {
    && (forall i :: 0 <= i < |s.sent| ==> Plain(s.sent[i].fault))
    && (s.job.Sending? ==> Plain(s.job.answer.fault)) && !s.job.Abandoned?
  }

  lemma PlainIsFramed(json: Json, a: Answer, handled: seq<Decoded>)
    requires IsAnswer(json, a, handled) && Plain(a.fault)
    ensures |DataOf(json, a)| <= MAX_DATA && a.raw == Frame(DataOf(json, a)) && Delimited(a.raw)
    ensures forall isJson :: Interpret(isJson, a.raw) == Delivered(isJson, DataOf(json, a))
  {
    FrameIsDelimited(DataOf(json, a));
  }

  /** A beginning of a frame is kept until the rest arrives. */
  lemma PartIsPending(isJson: Bytes -> bool, raw: Bytes, at: nat)
    requires Delimited(raw) && at < |raw|
    ensures Parse(isJson, raw[..at]) == Parsed([], Pending(raw[..at]))
  {
    if at >= 5 {
      assert raw[..at][..3] == raw[..3];
    }
  }

  /** However the written bytes reach the client, it reads one reply per answer, in the order in which the
      requests were handled, each under its request's own name; a reply half written is pending, never
      mixed with another. */
  lemma RepliesArriveInOrder(json: Json, steps: seq<Step>, k: nat, fragments: seq<Bytes>)
    requires Possible(json, INITIAL, steps) && k in Run(json, INITIAL, steps).sockets
    requires AllPlain(Run(json, INITIAL, steps).sockets[k])
    requires Joined(fragments) == Run(json, INITIAL, steps).sockets[k].written
    ensures var s := Run(json, INITIAL, steps).sockets[k]; var r := Receive(json.isJson, [], fragments);
      && |r.frames| == |s.sent| && r.pending == Part(s.job)
      && (forall i :: 0 <= i < |s.sent| ==>
            && s.sent[i].number < |s.handled| && Matches(json, s.handled[s.sent[i].number], s.sent[i].reply)
            && |DataOf(json, s.sent[i])| <= MAX_DATA && r.frames[i] == Delivered(json.isJson, DataOf(json, s.sent[i])))
      && (forall i, j :: 0 <= i < j < |s.sent| ==> s.sent[i].number < s.sent[j].number)
  {
    ReachedIsSane(json, steps, k);
    var w := Run(json, INITIAL, steps);
    SaneIsRead(json, w.sockets[k], w.terminal.generation, fragments);
    hide Run;
    hide Sane;
    hide Receive;
    hide Possible;
    hide AllPlain;
  }

  lemma SaneIsRead(json: Json, s: Socket, generation: nat, fragments: seq<Bytes>)
    requires Sane(json, s, generation) && AllPlain(s) && Joined(fragments) == s.written
    ensures var r := Receive(json.isJson, [], fragments);
      && |r.frames| == |s.sent| && r.pending == Part(s.job)
      && (forall i :: 0 <= i < |s.sent| ==>
            && s.sent[i].number < |s.handled| && Matches(json, s.handled[s.sent[i].number], s.sent[i].reply)
            && |DataOf(json, s.sent[i])| <= MAX_DATA && r.frames[i] == Delivered(json.isJson, DataOf(json, s.sent[i])))
      && (forall i, j :: 0 <= i < j < |s.sent| ==> s.sent[i].number < s.sent[j].number)
  {
    hide Matches;
    hide Live;
    hide Receive;
    hide Parse;
    hide Delivered;
    hide Interpret;
    hide Delimited;
    hide AllDelimited;
    var raws, part, isJson := Raws(s.sent), Part(s.job), json.isJson;
    SentIsInOrder(json, s, generation);
    PartOfAnswer(json, s, generation);
    assert |raws| == |s.sent| && s.written == Joined(raws) + part by { hide InOrder; hide IsAnswer; }
    hide Sane;
    hide Prepared;
    hide Raws;
    AnswersAreFramed(json, s.sent, s.handled, raws);
    hide IsAnswer;
    WholeAndPart(isJson, raws, part, fragments);
    hide Joined;
  }

  lemma SentIsInOrder(json: Json, s: Socket, generation: nat)
    requires Sane(json, s, generation)
    ensures InOrder(json, s.sent, s.handled)
  {
    hide Prepared;
    hide Receive;
    hide Live;
    if s.job.Delaying? || s.job.Sending? {
      InOrderBelow(json, s.sent, s.handled[..s.job.answer.number], s.handled);
    }
  }

  lemma AnswersAreFramed(json: Json, sent: seq<Answer>, handled: seq<Decoded>, raws: seq<Bytes>)
    requires InOrder(json, sent, handled) && |raws| == |sent|
    requires forall i :: 0 <= i < |sent| ==> Plain(sent[i].fault) && raws[i] == sent[i].raw
    ensures AllDelimited(raws)
    ensures forall i :: 0 <= i < |sent| ==>
      && sent[i].number < |handled| && Matches(json, handled[sent[i].number], sent[i].reply)
      && |DataOf(json, sent[i])| <= MAX_DATA
      && Interpret(json.isJson, raws[i]) == Delivered(json.isJson, DataOf(json, sent[i]))
  {
    hide Matches;
    forall i | 0 <= i < |sent|
      ensures IsAnswer(json, sent[i], handled) && |DataOf(json, sent[i])| <= MAX_DATA && Delimited(raws[i])
           && Interpret(json.isJson, raws[i]) == Delivered(json.isJson, DataOf(json, sent[i]))
    {
      PlainIsFramed(json, sent[i], handled);
    }
  }

  /** Whole frames and a beginning of one more, in any fragments. */
  lemma WholeAndPart(isJson: Bytes -> bool, raws: seq<Bytes>, part: Bytes, fragments: seq<Bytes>)
    requires AllDelimited(raws) && Parse(isJson, part) == Parsed([], Pending(part))
    requires Joined(fragments) == Joined(raws) + part
    ensures Receive(isJson, [], fragments) == Reception(InterpretAll(isJson, raws), part)
  {
    ParseOfFrames(isJson, raws);
    ParseResumes(isJson, Joined(raws), part);
    assert [] + part == part && [] + Joined(fragments) == Joined(fragments);
    ChunksDoNotMatter(isJson, [], fragments);
    hide Parse;
    hide Receive;
    assert InterpretAll(isJson, raws) + [] == InterpretAll(isJson, raws);
  }

  /** The bytes of a job in hand are a proper beginning of a frame. */
  lemma PartOfAnswer(json: Json, s: Socket, generation: nat)
    requires Sane(json, s, generation) && AllPlain(s)
    ensures Parse(json.isJson, Part(s.job)) == Parsed([], Pending(Part(s.job)))
  {
    if s.job.Sending? {
      PlainIsFramed(json, s.job.answer, s.handled);
      PartIsPending(json.isJson, s.job.answer.raw, Min(s.job.at, |s.job.answer.raw|));
    }
  }

  // ---------------------------------------------------------------- every request is answered

  /** No frame fault, silence or closing is injected into the answers of this socket. */
  predicate PlainOn(steps: seq<Step>, k: nat) {
    forall i :: 0 <= i < |steps| && steps[i].Begin? && steps[i].socket == k ==> Plain(steps[i].fault)
  }

  predicate InHand(j: Job) { j.Delaying? || j.Sending? }

  /** Every frame handled so far has had its answer sent, but for the last one, whose answer is in hand. */
  predicate AllAnswered(s: Socket) {
    && (forall i :: 0 <= i < |s.sent| ==> s.sent[i].number == i && Plain(s.sent[i].fault))
    && |s.handled| == |s.sent| + (if InHand(s.job) then 1 else 0)
    && (InHand(s.job) ==> s.job.answer.number == |s.sent| && Plain(s.job.answer.fault))
  }

  lemma BeginAnswers(json: Json, w: Server, step: Step)
    requires step.Begin? && Enabled(w, step) && Plain(step.fault)
    requires var s := w.sockets[step.socket]; !s.gone ==> AllAnswered(s) && !s.job.Abandoned?
    ensures var t := BeginOn(json, w, step).sockets[step.socket]; !t.gone ==> AllAnswered(t)
  {
    hide Replied;
    hide Prepared;
  }

  lemma SendAnswers(s: Socket, size: nat, generation: nat)
    requires s.job.Sending? && size > 0 && !s.gone && s.job.generation == generation && AllAnswered(s)
    ensures AllAnswered(SendOn(s, size, generation))
  {
  }

  /** The socket a step is about, if it is about one. */
  function SocketOf(step: Step): Option<nat> {
    match step
    case Connect(k) => Some(k)
    case Data(k, _) => Some(k)
    case Break(k) => Some(k)
    case Begin(k, _, _, _, _) => Some(k)
    case Resume(k) => Some(k)
    case Send(k, _) => Some(k)
    case _ => None
  }

  lemma OthersUntouched(json: Json, w: Server, step: Step, k: nat)
    requires Enabled(w, step) && SocketOf(step) != Some(k) && !step.Reset?
    ensures k in After(json, w, step).sockets <==> k in w.sockets
    ensures k in w.sockets ==> After(json, w, step).sockets[k] == w.sockets[k]
  {
    hide Replied;
    hide Answering;
    hide Received;
    hide SendOn;
  }

  lemma OwnStepAnswers(json: Json, w: Server, step: Step, k: nat)
    requires Enabled(w, step) && SocketOf(step) == Some(k) && (step.Begin? ==> Plain(step.fault))
    requires k in w.sockets && !w.sockets[k].gone ==> AllAnswered(w.sockets[k]) && Live(w.sockets[k], w.terminal.generation)
    ensures k in After(json, w, step).sockets
    ensures !After(json, w, step).sockets[k].gone ==> AllAnswered(After(json, w, step).sockets[k])
  {
    hide OfGeneration;
    hide FramesIn;
    hide HasFatal;
    hide Parse;
    match step
    case Begin(_, _, _, _, _) => BeginAnswers(json, w, step); hide BeginOn; hide AllAnswered; BeginHasSocket(json, w, step);
    case Send(_, size) =>
      if !w.sockets[k].gone { SendAnswers(w.sockets[k], size, w.terminal.generation); } else { SendStaysGone(w.sockets[k], size, w.terminal.generation); }
      hide SendOn;
      hide AllAnswered;
    case _ =>
  }

  lemma BeginHasSocket(json: Json, w: Server, step: Step)
    requires step.Begin? && Enabled(w, step)
    ensures step.socket in BeginOn(json, w, step).sockets
  {
    hide Replied;
    hide Answering;
  }

  lemma SendStaysGone(s: Socket, size: nat, generation: nat)
    requires s.job.Sending? && size > 0 && s.gone
    ensures SendOn(s, size, generation).gone
  {
  }

  lemma StepAnswers(json: Json, w: Server, step: Step, k: nat)
    requires Safe(json, w) && Enabled(w, step) && (step.Begin? && step.socket == k ==> Plain(step.fault))
    requires k in w.sockets && !w.sockets[k].gone ==> AllAnswered(w.sockets[k])
    ensures k in After(json, w, step).sockets && !After(json, w, step).sockets[k].gone ==>
      AllAnswered(After(json, w, step).sockets[k])
  {
    if k in w.sockets && !w.sockets[k].gone {
      assert Sane(json, w.sockets[k], w.terminal.generation);
      LiveUnlessGone(json, w.sockets[k], w.terminal.generation);
    }
    hide Safe;
    hide Sane;
    hide Live;
    hide AllAnswered;
    if step.Reset? {
    } else if SocketOf(step) == Some(k) {
      OwnStepAnswers(json, w, step, k);
      hide After;
    } else {
      OthersUntouched(json, w, step, k);
      hide After;
    }
  }

  lemma {:induction false} RunAnswers(json: Json, w: Server, steps: seq<Step>, k: nat)
    requires Safe(json, w) && Possible(json, w, steps) && PlainOn(steps, k)
    requires k in w.sockets && !w.sockets[k].gone ==> AllAnswered(w.sockets[k])
    ensures k in Run(json, w, steps).sockets && !Run(json, w, steps).sockets[k].gone ==>
      AllAnswered(Run(json, w, steps).sockets[k])
    decreases |steps|
  {
    hide Safe;
    hide AllAnswered;
    if steps != [] {
      assert PlainOn(steps[1..], k) by { assert forall i :: 0 <= i < |steps[1..]| ==> steps[1..][i] == steps[i + 1]; }
      StepKeeps(json, w, steps[0]);
      StepAnswers(json, w, steps[0], k);
      hide After;
      RunAnswers(json, After(json, w, steps[0]), steps[1..], k);
    }
  }

  /** A socket without injected faults that is alive and at rest has answered everything: its byte stream
      means some frames, and the client reads exactly one reply to each of them, in their order, under
      its request's own name or error, with nothing pending, however both streams were cut. */
  lemma OneReplyPerRequest(json: Json, steps: seq<Step>, k: nat, fragments: seq<Bytes>)
    requires Possible(json, INITIAL, steps) && PlainOn(steps, k) && k in Run(json, INITIAL, steps).sockets
    requires var s := Run(json, INITIAL, steps).sockets[k];
      !s.gone && s.job.Resting? && s.queue == [] && Joined(fragments) == s.written
    ensures var s := Run(json, INITIAL, steps).sockets[k];
      var requests, replies := Parse(json.isJson, Joined(s.chunks)).frames, Receive(json.isJson, [], fragments);
      && |replies.frames| == |requests| == |s.sent| && replies.pending == []
      && forall i :: 0 <= i < |requests| ==>
           && Matches(json, requests[i], s.sent[i].reply)
           && |DataOf(json, s.sent[i])| <= MAX_DATA && replies.frames[i] == Delivered(json.isJson, DataOf(json, s.sent[i]))
  {
    assert Safe(json, INITIAL);
    RunAnswers(json, INITIAL, steps, k);
    hide Safe;
    hide Possible;
    hide Sane;
    hide PlainOn;
    var s := Run(json, INITIAL, steps).sockets[k];
    assert AllAnswered(s) && AllPlain(s);
    HandledIsTheStream(json, steps, k);
    RepliesArriveInOrder(json, steps, k, fragments);
    hide Run;
    hide Matches;
    hide Parse;
    hide Receive;
    hide Delivered;
  }
}
