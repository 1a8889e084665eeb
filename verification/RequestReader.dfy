/** The payment listener's incremental HTTP/1.1 request reader: it buffers until the first empty line,
    interprets the head, then reads exactly Content-Length bytes (RFC 9112, sections 2.1 and 6.2). */
module RequestReader {
  import opened Prelude

  type Byte = n: nat | n < 256
  type Bytes = seq<Byte>

  const HEAD_LIMIT: nat := 16 * 1024
  const HEAD_READ: nat := 1024
  const BODY_LIMIT: nat := 64 * 1024
  const BODY_READ: nat := 4096

  /** What the head says: everything but the declared length is uninterpreted here. */
  datatype Head = Head(text: Bytes, contentLength: nat)

  datatype Refusal = HeadersTooLarge | Closed | MalformedHead | BodyTooLarge | IncompleteBody

  datatype Request = Request(head: Head, body: Bytes)

  /** CR LF CR LF at this index. */
  predicate BlankAt(b: Bytes, i: nat) {
    i + 4 <= |b| && b[i] == 13 && b[i + 1] == 10 && b[i + 2] == 13 && b[i + 3] == 10
  }

  /** The index just past the first blank line. */
  function HeadEnd(b: Bytes): (end: Option<nat>)
    ensures end.Some? ==> 4 <= end.value <= |b| && BlankAt(b, end.value - 4)
    ensures end.Some? ==> forall i: nat :: i < end.value - 4 ==> !BlankAt(b, i)
    ensures end.None? ==> forall i: nat :: !BlankAt(b, i)
  {
    EndFrom(b, 0)
  }

  function EndFrom(b: Bytes, from: nat): (end: Option<nat>)
    ensures end.Some? ==> from + 4 <= end.value <= |b| && BlankAt(b, end.value - 4)
    ensures end.Some? ==> forall i: nat :: from <= i < end.value - 4 ==> !BlankAt(b, i)
    ensures end.None? ==> forall i: nat :: from <= i ==> !BlankAt(b, i)
    decreases |b| - from
  {
    if from + 4 > |b| then None
    else if BlankAt(b, from) then Some(from + 4)
    else EndFrom(b, from + 1)
  }

  // ---------------------------------------------------------------- the reader

  /** A request head is decoded by a partial function; its length field has been read as a number. */
  type Decode = Bytes -> Option<Head>

  /** What single reads return before end of stream: never nothing. */
  predicate Segmented(pieces: seq<Bytes>) {
    forall i :: 0 <= i < |pieces| ==> pieces[i] != []
  }

  /** Pieces no larger than the smaller of the two read buffers. */
  predicate HeadSized(pieces: seq<Bytes>) {
    forall i :: 0 <= i < |pieces| ==> 0 < |pieces[i]| <= HEAD_READ
  }

  /** What the reads can return when `buffer` is held: pieces of the head buffer's size as long as the
      head loop reads, of the body buffer's size from then on. */
  predicate Arrives(buffer: Bytes, pieces: seq<Bytes>)
    decreases |pieces|
  {
    if pieces == [] then true
    else if HeadEnd(buffer).Some? || |buffer| > HEAD_LIMIT then
      forall i :: 0 <= i < |pieces| ==> 0 < |pieces[i]| <= BODY_READ
    else 0 < |pieces[0]| <= HEAD_READ && Arrives(buffer + pieces[0], pieces[1..])
  }

  function Joined(pieces: seq<Bytes>): Bytes {
    if pieces == [] then [] else pieces[0] + Joined(pieces[1..])
  }

  class Socket {
    var pieces: seq<Bytes>

    constructor (pieces: seq<Bytes>)
      ensures this.pieces == pieces
    {
      this.pieces := pieces;
    }

    /** The next piece, or nothing at end of stream. */
    method Read() returns (piece: Bytes)
      modifies this
      ensures old(pieces) == [] ==> piece == [] && pieces == []
      ensures old(pieces) != [] ==> piece == old(pieces)[0] && pieces == old(pieces)[1..]
    {
      if pieces == [] { return []; }
      piece := pieces[0];
      pieces := pieces[1..];
    }
  }

  datatype HeadRead =
    | Found(buffer: Bytes, end: nat, rest: seq<Bytes>)
    | Refused(why: Refusal)

  /** The head loop: look for the blank line, check the limit, read one more piece. */
  function ReadHead(buffer: Bytes, pieces: seq<Bytes>): (h: HeadRead)
    ensures h.Found? ==> h.end <= |h.buffer| && HeadEnd(h.buffer) == Some(h.end)
    decreases |pieces|
  {
    if HeadEnd(buffer).Some? then Found(buffer, HeadEnd(buffer).value, pieces)
    else if |buffer| > HEAD_LIMIT then Refused(HeadersTooLarge)
    else if pieces == [] || pieces[0] == [] then Refused(Closed)
    else ReadHead(buffer + pieces[0], pieces[1..])
  }

  function ReadBody(body: Bytes, length: nat, pieces: seq<Bytes>): Option<Bytes>
    decreases |pieces|
  {
    if |body| >= length then Some(body[..length])
    else if pieces == [] || pieces[0] == [] then None
    else ReadBody(body + pieces[0], length, pieces[1..])
  }

  function ReadRequest(decode: Decode, pieces: seq<Bytes>): Result<Request, Refusal> {
    var h := ReadHead([], pieces);
    if h.Refused? then Err(h.why)
    else
      var head := decode(h.buffer[..h.end]);
      if head.None? then Err(MalformedHead)
      else if head.value.contentLength > BODY_LIMIT then Err(BodyTooLarge)
      else
        var body := ReadBody(h.buffer[h.end..], head.value.contentLength, h.rest);
        if body.None? then Err(IncompleteBody) else Ok(Request(head.value, body.value))
  }

  /** The reader over a socket, one read at a time. */
  method Parse(decode: Decode, socket: Socket) returns (request: Result<Request, Refusal>)
    modifies socket
    ensures request == ReadRequest(decode, old(socket.pieces))
  {
    ghost var pieces := socket.pieces;
    var bytes: Bytes := [];
    var position := HeadEnd(bytes);
    while position.None?
      invariant position == HeadEnd(bytes)
      invariant ReadHead(bytes, socket.pieces) == ReadHead([], pieces)
      decreases |socket.pieces|, if position.None? then 1 else 0
    {
      if |bytes| > HEAD_LIMIT { return Err(HeadersTooLarge); }
      var piece := socket.Read();
      if piece == [] { return Err(Closed); }
      bytes := bytes + piece;
      position := HeadEnd(bytes);
    }
    var end := position.value;
    var head := decode(bytes[..end]);
    if head.None? { return Err(MalformedHead); }
    var length := head.value.contentLength;
    if length > BODY_LIMIT { return Err(BodyTooLarge); }
    var body := bytes[end..];
    ghost var left := socket.pieces;
    while |body| < length
      invariant ReadBody(body, length, socket.pieces) == ReadBody(bytes[end..], length, left)
      decreases |socket.pieces|
    {
      var piece := socket.Read();
      if piece == [] { return Err(IncompleteBody); }
      body := body + piece;
    }
    request := Ok(Request(head.value, body[..length]));
  }

  // ---------------------------------------------------------------- the first blank line

  /** A blank line already seen stays the first one, whatever follows. */
  lemma HeadEndKept(a: Bytes, b: Bytes)
    ensures HeadEnd(a).Some? ==> HeadEnd(a + b) == HeadEnd(a)
    ensures HeadEnd(a + b).Some? && HeadEnd(a + b).value <= |a| ==> HeadEnd(a) == HeadEnd(a + b)
  {
    var x, y := HeadEnd(a), HeadEnd(a + b);
    forall i: nat ensures BlankAt(a, i) ==> BlankAt(a + b, i) {}
    forall i: nat ensures BlankAt(a + b, i) && i + 4 <= |a| ==> BlankAt(a, i) {}
    hide EndFrom;
    hide BlankAt;
    if x.Some? {
      assert BlankAt(a + b, x.value - 4);
    }
  }

  // ---------------------------------------------------------------- segmentation does not matter

  /** What a stream means as a request, with no reference to how it arrived. */
  function Meaning(decode: Decode, stream: Bytes): Result<Request, Refusal> {
    if HeadEnd(stream).None? then Err(Closed)
    else
      var end := HeadEnd(stream).value;
      var head := decode(stream[..end]);
      if head.None? then Err(MalformedHead)
      else if head.value.contentLength > BODY_LIMIT then Err(BodyTooLarge)
      else if |stream| - end < head.value.contentLength then Err(IncompleteBody)
      else Ok(Request(head.value, stream[end..end + head.value.contentLength]))
  }

  lemma {:induction false} HeadFound(buffer: Bytes, pieces: seq<Bytes>, end: nat)
    requires Segmented(pieces)
    requires HeadEnd(buffer + Joined(pieces)) == Some(end) && end <= HEAD_LIMIT + 1
    ensures var h := ReadHead(buffer, pieces);
      && h.Found? && h.end == end && h.buffer + Joined(h.rest) == buffer + Joined(pieces) && Segmented(h.rest)
    decreases |pieces|
  {
    hide HeadEnd;
    HeadEndKept(buffer, Joined(pieces));
    if pieces == [] {
      assert buffer + Joined(pieces) == buffer;
    } else if HeadEnd(buffer).None? {
      assert pieces[0] != [];
      assert buffer + Joined(pieces) == (buffer + pieces[0]) + Joined(pieces[1..]);
      HeadFound(buffer + pieces[0], pieces[1..], end);
    }
  }

  lemma {:induction false} HeadAbsent(buffer: Bytes, pieces: seq<Bytes>)
    requires Segmented(pieces) && HeadEnd(buffer + Joined(pieces)).None?
    ensures ReadHead(buffer, pieces).Refused?
    ensures |buffer + Joined(pieces)| <= HEAD_LIMIT ==> ReadHead(buffer, pieces) == Refused(Closed)
    decreases |pieces|
  {
    hide HeadEnd;
    HeadEndKept(buffer, Joined(pieces));
    if pieces != [] {
      assert pieces[0] != [];
      assert buffer + Joined(pieces) == (buffer + pieces[0]) + Joined(pieces[1..]);
      HeadAbsent(buffer + pieces[0], pieces[1..]);
    }
  }

  lemma {:induction false} BodyRead(body: Bytes, length: nat, pieces: seq<Bytes>)
    requires Segmented(pieces)
    ensures var all := body + Joined(pieces);
      ReadBody(body, length, pieces) == if |all| >= length then Some(all[..length]) else None
    decreases |pieces|
  {
    var all := body + Joined(pieces);
    if |body| >= length {
      assert all[..length] == body[..length];
    } else if pieces != [] {
      assert pieces[0] != [];
      assert all == (body + pieces[0]) + Joined(pieces[1..]);
      BodyRead(body + pieces[0], length, pieces[1..]);
    }
  }

  lemma BodyFollowsHead(buffer: Bytes, end: nat, length: nat, rest: seq<Bytes>)
    requires Segmented(rest) && end <= |buffer|
    ensures var stream := buffer + Joined(rest);
      ReadBody(buffer[end..], length, rest)
      == if |stream| - end >= length then Some(stream[end..end + length]) else None
  {
    var stream := buffer + Joined(rest);
    BodyRead(buffer[end..], length, rest);
    assert buffer[end..] + Joined(rest) == stream[end..];
    if |stream| - end >= length {
      assert stream[end..][..length] == stream[end..end + length];
    }
  }

  /** A stream whose head ends within the limit, or that ends within it without a head, gives one result
      under every segmentation: its meaning. */
  lemma SegmentationIndependent(decode: Decode, pieces: seq<Bytes>)
    requires Segmented(pieces)
    requires var stream := Joined(pieces);
      if HeadEnd(stream).Some? then HeadEnd(stream).value <= HEAD_LIMIT + 1 else |stream| <= HEAD_LIMIT
    ensures ReadRequest(decode, pieces) == Meaning(decode, Joined(pieces))
  {
    hide EndFrom;
    hide BlankAt;
    hide ReadHead;
    hide ReadBody;
    hide Joined;
    var stream := Joined(pieces);
    assert [] + stream == stream;
    if HeadEnd(stream).None? {
      HeadAbsent([], pieces);
    } else {
      var end := HeadEnd(stream).value;
      HeadFound([], pieces, end);
      var h := ReadHead([], pieces);
      assert stream == h.buffer + Joined(h.rest);
      assert h.buffer[..end] == stream[..end];
      var head := decode(stream[..end]);
      if head.Some? && head.value.contentLength <= BODY_LIMIT {
        BodyFollowsHead(h.buffer, end, head.value.contentLength, h.rest);
      }
    }
  }

  /** Two segmentations of such a stream are read alike. */
  lemma AnyTwoSegmentationsAgree(decode: Decode, one: seq<Bytes>, two: seq<Bytes>)
    requires Segmented(one) && Segmented(two) && Joined(one) == Joined(two)
    requires HeadEnd(Joined(one)).Some? && HeadEnd(Joined(one)).value <= HEAD_LIMIT + 1
    ensures ReadRequest(decode, one) == ReadRequest(decode, two)
  {
    SegmentationIndependent(decode, one);
    SegmentationIndependent(decode, two);
  }

  /** A head closed by its only blank line, at most 16385 bytes with it, and a body as long as the head declares:
      that is the request read, however it is cut and whatever follows it. A declared length beyond 65536 is
      refused, and one the stream does not reach is a body cut short. */
  lemma WrittenRequestIsRead(decode: Decode, head: Bytes, rest: Bytes, pieces: seq<Bytes>)
    requires Segmented(pieces) && Joined(pieces) == head + rest && 4 <= |head| <= 16385
    requires BlankAt(head, |head| - 4) && forall i: nat :: i < |head| - 4 ==> !BlankAt(head, i)
    requires decode(head).Some?
    ensures var declared := decode(head).value.contentLength;
      ReadRequest(decode, pieces)
      == if declared > 65536 then Err(BodyTooLarge)
         else if declared > |rest| then Err(IncompleteBody)
         else Ok(Request(decode(head).value, rest[..declared]))
  {
    assert HeadEnd(head).value == |head| by { assert HeadEnd(head).Some?; }
    hide EndFrom;
    HeadEndKept(head, rest);
    hide BlankAt;
    hide Segmented;
    SegmentationIndependent(decode, pieces);
    hide ReadRequest;
    var stream := head + rest;
    assert stream[..|head|] == head && stream[|head|..] == rest;
    var declared := decode(head).value.contentLength;
    if declared <= |rest| { assert stream[|head|..|head| + declared] == rest[..declared]; }
  }

  // ---------------------------------------------------------------- the exact limit

  lemma {:induction false} ArrivingIsSegmented(buffer: Bytes, pieces: seq<Bytes>)
    requires Arrives(buffer, pieces)
    ensures Segmented(pieces)
    decreases |pieces|
  {
    hide HeadEnd;
    if pieces != [] && HeadEnd(buffer).None? && |buffer| <= HEAD_LIMIT {
      ArrivingIsSegmented(buffer + pieces[0], pieces[1..]);
      forall i | 0 <= i < |pieces| ensures pieces[i] != [] {
        if i > 0 { assert pieces[1..][i - 1] == pieces[i]; }
      }
    }
  }

  lemma {:induction false} HeadSizedArrives(buffer: Bytes, pieces: seq<Bytes>)
    requires HeadSized(pieces)
    ensures Arrives(buffer, pieces)
    decreases |pieces|
  {
    hide HeadEnd;
    if pieces != [] {
      assert HeadSized(pieces[1..]) by { assert forall i :: 0 <= i < |pieces[1..]| ==> pieces[1..][i] == pieces[i + 1]; }
      HeadSizedArrives(buffer + pieces[0], pieces[1..]);
    }
  }

  /** A head that ends later than one read beyond the limit is never accepted, nor is a longer stream
      with no end of head. */
  lemma {:induction false} LongHeadRefused(buffer: Bytes, pieces: seq<Bytes>)
    requires Arrives(buffer, pieces) && |buffer| <= HEAD_LIMIT + HEAD_READ && |buffer + Joined(pieces)| > HEAD_LIMIT
    requires HeadEnd(buffer + Joined(pieces)).Some? ==> HeadEnd(buffer + Joined(pieces)).value > HEAD_LIMIT + HEAD_READ
    ensures ReadHead(buffer, pieces) == Refused(HeadersTooLarge)
    decreases |pieces|
  {
    hide HeadEnd;
    HeadEndKept(buffer, Joined(pieces));
    if pieces == [] {
      assert buffer + Joined(pieces) == buffer;
    } else if |buffer| <= HEAD_LIMIT {
      assert buffer + Joined(pieces) == (buffer + pieces[0]) + Joined(pieces[1..]);
      LongHeadRefused(buffer + pieces[0], pieces[1..]);
    }
  }

  /** The stream in pieces of at most `size`. */
  function Cut(b: Bytes, size: nat): (pieces: seq<Bytes>)
    requires size > 0
    ensures Joined(pieces) == b
    ensures forall i :: 0 <= i < |pieces| ==> 0 < |pieces[i]| <= size
    decreases |b|
  {
    if b == [] then []
    else
      var n := Min(size, |b|);
      assert b == b[..n] + b[n..];
      [b[..n]] + Cut(b[n..], size)
  }

  /** As long as neither blank line nor limit is met, pieces are just collected. */
  lemma {:induction false} HeadCollects(buffer: Bytes, pieces: seq<Bytes>, more: seq<Bytes>)
    requires Segmented(pieces) && |buffer + Joined(pieces)| <= HEAD_LIMIT
    requires HeadEnd(buffer + Joined(pieces)).None?
    ensures ReadHead(buffer, pieces + more) == ReadHead(buffer + Joined(pieces), more)
    decreases |pieces|
  {
    hide HeadEnd;
    if pieces == [] {
      assert buffer + Joined(pieces) == buffer && pieces + more == more;
    } else {
      HeadEndKept(buffer, Joined(pieces));
      assert pieces[0] != [];
      assert buffer + Joined(pieces) == (buffer + pieces[0]) + Joined(pieces[1..]);
      HeadCollects(buffer + pieces[0], pieces[1..], more);
      assert (pieces + more)[1..] == pieces[1..] + more;
    }
  }

  lemma {:induction false} JoinedConcat(a: seq<Bytes>, b: seq<Bytes>)
    ensures Joined(a + b) == Joined(a) + Joined(b)
  {
    if a == [] {
      assert a + b == b;
    } else {
      JoinedConcat(a[1..], b);
      var x, y, z := a[0], Joined(a[1..]), Joined(b);
      assert (a + b)[0] == x && (a + b)[1..] == a[1..] + b;
      assert x + (y + z) == (x + y) + z;
    }
  }

  /** The stream cut so that one read ends exactly at `first`, just beyond the limit. */
  function CutAt(stream: Bytes, first: nat): seq<Bytes>
    requires HEAD_LIMIT < first <= |stream|
  {
    Cut(stream[..HEAD_LIMIT], HEAD_READ) + ([stream[HEAD_LIMIT..first]] + Cut(stream[first..], HEAD_READ))
  }

  lemma CutAtJoins(stream: Bytes, first: nat)
    requires HEAD_LIMIT < first <= |stream| && first <= HEAD_LIMIT + HEAD_READ
    ensures HeadSized(CutAt(stream, first)) && Joined(CutAt(stream, first)) == stream
  {
    hide Cut;
    var full, middle, after := stream[..HEAD_LIMIT], stream[HEAD_LIMIT..first], stream[first..];
    var pieces, more := Cut(full, HEAD_READ), [middle] + Cut(after, HEAD_READ);
    JoinedConcat(pieces, more);
    assert more[0] == middle && more[1..] == Cut(after, HEAD_READ);
    assert full + (middle + after) == stream;
  }

  lemma CutAtReads(stream: Bytes, first: nat)
    requires HEAD_LIMIT < first <= |stream|
    requires HeadEnd(stream[..HEAD_LIMIT]).None?
    ensures ReadHead([], CutAt(stream, first)) == ReadHead(stream[..first], Cut(stream[first..], HEAD_READ))
  {
    hide HeadEnd;
    hide Cut;
    hide Joined;
    var full, middle, after := stream[..HEAD_LIMIT], stream[HEAD_LIMIT..first], stream[first..];
    var pieces, more := Cut(full, HEAD_READ), [middle] + Cut(after, HEAD_READ);
    assert [] + Joined(pieces) == full;
    HeadCollects([], pieces, more);
    assert more[0] == middle && more[1..] == Cut(after, HEAD_READ);
    assert full + middle == stream[..first];
  }

  /** Between the limit and one read beyond it, segmentation decides: the same stream is accepted cut
      one way and refused cut another. */
  lemma SegmentationDecides(stream: Bytes, end: nat)
    requires HeadEnd(stream) == Some(end) && HEAD_LIMIT + 1 < end <= HEAD_LIMIT + HEAD_READ
    ensures var accepted := CutAt(stream, end);
      HeadSized(accepted) && Joined(accepted) == stream && ReadHead([], accepted).Found?
    ensures var refused := CutAt(stream, HEAD_LIMIT + 1);
      HeadSized(refused) && Joined(refused) == stream && ReadHead([], refused) == Refused(HeadersTooLarge)
  {
    HeadEndBefore(stream, HEAD_LIMIT);
    HeadEndBefore(stream, HEAD_LIMIT + 1);
    HeadEndBefore(stream, end);
    CutAtReads(stream, end);
    CutAtReads(stream, HEAD_LIMIT + 1);
    CutAtJoins(stream, end);
    CutAtJoins(stream, HEAD_LIMIT + 1);
    hide HeadEnd;
    hide CutAt;
    hide Cut;
  }

  /** Of a prefix, only what lies inside it counts. */
  lemma HeadEndBefore(stream: Bytes, cut: nat)
    requires cut <= |stream|
    ensures HeadEnd(stream).Some? ==>
      HeadEnd(stream[..cut]) == if HeadEnd(stream).value <= cut then HeadEnd(stream) else None
  {
    HeadEndKept(stream[..cut], stream[cut..]);
    assert stream[..cut] + stream[cut..] == stream;
    hide BlankAt;
    hide EndFrom;
  }

  /** The streams whose reading depends on how they arrive: the head ends just beyond the limit, within
      one more read. */
  predicate InWindow(stream: Bytes) {
    HeadEnd(stream).Some? && HEAD_LIMIT + 1 < HeadEnd(stream).value <= HEAD_LIMIT + HEAD_READ
  }

  /** What is read of any other stream, however it arrives: its meaning if it stays within the limit, the
      refusal of its head if not. */
  function Reading(decode: Decode, stream: Bytes): Result<Request, Refusal> {
    if (if HeadEnd(stream).Some? then HeadEnd(stream).value <= HEAD_LIMIT + 1 else |stream| <= HEAD_LIMIT)
    then Meaning(decode, stream)
    else Err(HeadersTooLarge)
  }

  lemma ReadOutsideWindow(decode: Decode, pieces: seq<Bytes>)
    requires Arrives([], pieces) && !InWindow(Joined(pieces))
    ensures ReadRequest(decode, pieces) == Reading(decode, Joined(pieces))
    ensures ReadHead([], pieces).Found? <==>
      HeadEnd(Joined(pieces)).Some? && HeadEnd(Joined(pieces)).value <= HEAD_LIMIT + 1
  {
    ArrivingIsSegmented([], pieces);
    var stream := Joined(pieces);
    assert [] + stream == stream;
    hide EndFrom;
    hide BlankAt;
    hide Joined;
    if HeadEnd(stream).Some? && HeadEnd(stream).value <= HEAD_LIMIT + 1 {
      SegmentationIndependent(decode, pieces);
      HeadFound([], pieces, HeadEnd(stream).value);
    } else if HeadEnd(stream).None? && |stream| <= HEAD_LIMIT {
      SegmentationIndependent(decode, pieces);
      HeadAbsent([], pieces);
    } else {
      hide ReadHead;
      LongHeadRefused([], pieces);
    }
  }

  /** However the stream arrives, its head is accepted, or it is refused. */
  ghost predicate AcceptedAlike(stream: Bytes) {
    forall one, two :: Arrives([], one) && Arrives([], two) && Joined(one) == stream && Joined(two) == stream
      ==> (ReadHead([], one).Found? <==> ReadHead([], two).Found?)
  }

  /** However the stream arrives, the same request or refusal is read from it. */
  ghost predicate ReadAlike(decode: Decode, stream: Bytes) {
    forall one, two :: Arrives([], one) && Arrives([], two) && Joined(one) == stream && Joined(two) == stream
      ==> ReadRequest(decode, one) == ReadRequest(decode, two)
  }

  /** A cut that is accepted and one that is refused, and what is then read. */
  lemma WindowIsReadBothWays(decode: Decode, stream: Bytes)
    requires InWindow(stream)
    ensures var one := CutAt(stream, HeadEnd(stream).value);
      Arrives([], one) && Joined(one) == stream && ReadHead([], one).Found?
      && ReadRequest(decode, one) != Err(HeadersTooLarge)
    ensures var two := CutAt(stream, HEAD_LIMIT + 1);
      Arrives([], two) && Joined(two) == stream && ReadRequest(decode, two) == Err(HeadersTooLarge)
  {
    SegmentationDecides(stream, HeadEnd(stream).value);
    HeadSizedArrives([], CutAt(stream, HeadEnd(stream).value));
    HeadSizedArrives([], CutAt(stream, HEAD_LIMIT + 1));
    hide EndFrom;
    hide BlankAt;
    hide CutAt;
    hide ReadHead;
    hide Arrives;
    hide ReadBody;
  }

  /** Whether the head is accepted depends on the segmentation exactly in that window. */
  lemma HeadAcceptanceIndependentExactly(stream: Bytes)
    ensures AcceptedAlike(stream) <==> !InWindow(stream)
  {
    var decode: Decode := text => None;
    hide EndFrom;
    hide BlankAt;
    hide CutAt;
    hide ReadHead;
    hide Joined;
    hide Arrives;
    hide ReadRequest;
    if InWindow(stream) {
      WindowIsReadBothWays(decode, stream);
      SegmentationDecides(stream, HeadEnd(stream).value);
      var one, two := CutAt(stream, HeadEnd(stream).value), CutAt(stream, HEAD_LIMIT + 1);
      assert ReadHead([], one).Found? && !ReadHead([], two).Found?;
    } else {
      forall pieces | Arrives([], pieces) && Joined(pieces) == stream
        ensures ReadHead([], pieces).Found? <==> HeadEnd(stream).Some? && HeadEnd(stream).value <= HEAD_LIMIT + 1
      {
        ReadOutsideWindow(decode, pieces);
      }
    }
  }

  /** So does the whole result: every stream, with or without a head, gives one result under all
      segmentations if and only if it is outside the window. */
  lemma ReadingIndependentExactly(decode: Decode, stream: Bytes)
    ensures ReadAlike(decode, stream) <==> !InWindow(stream)
  {
    hide HeadEnd;
    hide CutAt;
    hide ReadHead;
    hide Joined;
    hide Arrives;
    hide ReadRequest;
    hide Reading;
    if InWindow(stream) {
      WindowIsReadBothWays(decode, stream);
      var one, two := CutAt(stream, HeadEnd(stream).value), CutAt(stream, HEAD_LIMIT + 1);
      assert ReadRequest(decode, one) != ReadRequest(decode, two);
    } else {
      hide InWindow;
      forall pieces | Arrives([], pieces) && Joined(pieces) == stream
        ensures ReadRequest(decode, pieces) == Reading(decode, stream)
      {
        ReadOutsideWindow(decode, pieces);
      }
    }
  }

  /** "GET / HTTP/1.1" and the name of one header field. */
  const REQUEST_START: Bytes := [71, 69, 84, 32, 47, 32, 72, 84, 84, 80, 47, 49, 46, 49, 13, 10, 65, 58]

  /** A request with one long header field whose head ends after 16386 bytes. */
  function LongRequest(): Bytes { REQUEST_START + seq(16382 - |REQUEST_START|, i => 97) + [13, 10, 13, 10] }

  /** That request is accepted or refused, as it happens to arrive. */
  lemma LongRequestIsReadBothWays()
    ensures HeadEnd(LongRequest()) == Some(16386)
    ensures ReadHead([], CutAt(LongRequest(), 16386)).Found? && Joined(CutAt(LongRequest(), 16386)) == LongRequest()
    ensures ReadHead([], CutAt(LongRequest(), 16385)) == Refused(HeadersTooLarge) && Joined(CutAt(LongRequest(), 16385)) == LongRequest()
    ensures Arrives([], CutAt(LongRequest(), 16386)) && Arrives([], CutAt(LongRequest(), 16385))
  {
    var stream := LongRequest();
    assert |stream| == 16386 && BlankAt(stream, 16382);
    forall i: nat | i < 16382 ensures !BlankAt(stream, i) {
      if i >= |REQUEST_START| {
        assert stream[i] == 97;
      } else {
        assert stream[i] == REQUEST_START[i];
        assert i == 14 ==> stream[i + 2] == 65;
      }
    }
    FirstBlankIsTheEnd(stream, 16382);
    hide LongRequest;
    SegmentationDecides(stream, 16386);
    HeadSizedArrives([], CutAt(stream, 16386));
    HeadSizedArrives([], CutAt(stream, 16385));
    hide *;
  }

  lemma FirstBlankIsTheEnd(stream: Bytes, at: nat)
    requires BlankAt(stream, at) && forall i: nat :: i < at ==> !BlankAt(stream, i)
    ensures HeadEnd(stream) == Some(at + 4)
  {
    hide EndFrom;
    hide BlankAt;
  }
}
