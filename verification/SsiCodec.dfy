/** The SSI ECR frame codec (SSI ECR JSON 1.4.6, sections 1.2 and 1.3): a three-byte prefix, a
    big-endian 16-bit length, the DATA bytes and their XOR checksum, decoded from a byte stream. */
module SsiCodec {
  import opened Prelude

  type Byte = n: nat | n < 256
  type Bytes = seq<Byte>

  const PREFIX: Bytes := [0x02, 0x66, 0x01]
  const MAX_DATA: nat := 65535

  // ---------------------------------------------------------------- checksum

  function Pow2(k: nat): nat { if k == 0 then 1 else 2 * Pow2(k - 1) }

  /** Bitwise exclusive or of two k-bit numbers, bit by bit. */
  function XorBits(a: nat, b: nat, k: nat): (x: nat)
    requires a < Pow2(k) && b < Pow2(k)
    ensures x < Pow2(k)
  {
    if k == 0 then 0 else (a + b) % 2 + 2 * XorBits(a / 2, b / 2, k - 1)
  }

  function Xor(a: Byte, b: Byte): Byte {
    assert Pow2(8) == 256;
    XorBits(a, b, 8)
  }

  lemma XorBitsSplit(a: nat, b: nat, k: nat)
    requires k > 0 && a < Pow2(k) && b < Pow2(k)
    ensures XorBits(a, b, k) % 2 == (a + b) % 2 && XorBits(a, b, k) / 2 == XorBits(a / 2, b / 2, k - 1)
  {
  }

  lemma ParityOfSum(x: nat, y: nat, z: nat)
    requires x % 2 == y % 2
    ensures (x + z) % 2 == (y + z) % 2 && (z + x) % 2 == (y + z) % 2
  {
  }

  lemma HalvesDetermine(x: nat, y: nat)
    requires x % 2 == y % 2 && x / 2 == y / 2
    ensures x == y
  {
  }

  lemma {:induction false} XorBitsAssociative(a: nat, b: nat, c: nat, k: nat)
    requires a < Pow2(k) && b < Pow2(k) && c < Pow2(k)
    ensures XorBits(XorBits(a, b, k), c, k) == XorBits(a, XorBits(b, c, k), k)
  {
    if k > 0 {
      XorBitsAssociative(a / 2, b / 2, c / 2, k - 1);
      hide XorBits;
      XorBitsSplit(a, b, k);
      XorBitsSplit(b, c, k);
      SameHalves(a, b, c, k);
    }
  }

  lemma SameHalves(a: nat, b: nat, c: nat, k: nat)
    requires k > 0 && a < Pow2(k) && b < Pow2(k) && c < Pow2(k)
    requires XorBits(XorBits(a / 2, b / 2, k - 1), c / 2, k - 1) == XorBits(a / 2, XorBits(b / 2, c / 2, k - 1), k - 1)
    requires XorBits(a, b, k) / 2 == XorBits(a / 2, b / 2, k - 1) && XorBits(a, b, k) % 2 == (a + b) % 2
    requires XorBits(b, c, k) / 2 == XorBits(b / 2, c / 2, k - 1) && XorBits(b, c, k) % 2 == (b + c) % 2
    ensures XorBits(XorBits(a, b, k), c, k) == XorBits(a, XorBits(b, c, k), k)
  {
    var left, right := XorBits(a, b, k), XorBits(b, c, k);
    XorBitsSplit(left, c, k);
    XorBitsSplit(a, right, k);
    hide *;
    SameBits(XorBits(left, c, k), XorBits(a, right, k), left, right, a, b, c);
  }

  lemma SameBits(x: nat, y: nat, left: nat, right: nat, a: nat, b: nat, c: nat)
    requires x / 2 == y / 2 && x % 2 == (left + c) % 2 && y % 2 == (a + right) % 2
    requires left % 2 == (a + b) % 2 && right % 2 == (b + c) % 2
    ensures x == y
  {
    ParityOfSum(left, a + b, c);
    ParityOfSum(right, b + c, a);
    HalvesDetermine(x, y);
  }

  lemma {:induction false} XorBitsCancels(a: nat, b: nat, k: nat)
    requires a < Pow2(k) && b < Pow2(k)
    ensures XorBits(a, b, k) == XorBits(b, a, k)
    ensures XorBits(a, a, k) == 0 && XorBits(a, 0, k) == a
  {
    if k > 0 {
      XorBitsCancels(a / 2, b / 2, k - 1);
    }
  }

  function LrcFrom(sum: Byte, data: Bytes): Byte
    decreases |data|
  {
    if data == [] then sum else LrcFrom(Xor(sum, data[0]), data[1..])
  }

  /** XOR of all bytes, folded from the left. */
  function Lrc(data: Bytes): Byte { LrcFrom(0, data) }

  lemma XorGroup(a: Byte, b: Byte, c: Byte)
    ensures Xor(a, b) == Xor(b, a)
    ensures Xor(Xor(a, b), c) == Xor(a, Xor(b, c))
    ensures Xor(a, a) == 0 && Xor(a, 0) == a
  {
    assert Pow2(8) == 256;
    XorBitsCancels(a, b, 8);
    XorBitsAssociative(a, b, c, 8);
  }

  lemma XorLaws(a: Byte, b: Byte, c: Byte)
    ensures Xor(Xor(a, b), c) == Xor(Xor(a, c), b)
    ensures Xor(Xor(a, b), Xor(b, c)) == Xor(a, c)
    ensures b != c ==> Xor(a, Xor(b, c)) != a
  {
    hide Xor;
    XorGroup(a, b, c);
    XorGroup(a, c, b);
    XorGroup(b, c, b);
    XorGroup(a, b, Xor(b, c));
    XorGroup(b, b, c);
    XorGroup(c, b, b);
    if Xor(a, Xor(b, c)) == a {
      XorGroup(a, a, Xor(b, c));
      XorGroup(Xor(b, c), a, a);
      XorGroup(b, c, c);
      XorGroup(c, c, a);
    }
  }

  lemma {:induction false} LrcShifts(sum: Byte, delta: Byte, data: Bytes)
    ensures LrcFrom(Xor(sum, delta), data) == Xor(LrcFrom(sum, data), delta)
    decreases |data|
  {
    hide Xor;
    if data != [] {
      XorLaws(sum, delta, data[0]);
      LrcShifts(Xor(sum, data[0]), delta, data[1..]);
    }
  }

  /** Changing one byte changes the checksum by the bits that changed. */
  lemma {:induction false} LrcAfterChange(sum: Byte, data: Bytes, i: nat, b: Byte)
    requires i < |data|
    ensures LrcFrom(sum, data[i := b]) == Xor(LrcFrom(sum, data), Xor(data[i], b))
    decreases |data|
  {
    hide Xor;
    if i == 0 {
      assert data[0 := b][1..] == data[1..];
      XorLaws(sum, data[0], b);
      LrcShifts(Xor(sum, data[0]), Xor(data[0], b), data[1..]);
    } else {
      assert data[i := b][1..] == data[1..][i - 1 := b];
      LrcAfterChange(Xor(sum, data[0]), data[1..], i - 1, b);
    }
  }

  /** Any one altered byte is detected. */
  lemma LrcDetectsOneByte(data: Bytes, i: nat, b: Byte)
    requires i < |data| && b != data[i]
    ensures Lrc(data[i := b]) != Lrc(data)
  {
    hide Xor;
    LrcAfterChange(0, data, i, b);
    XorLaws(Lrc(data), data[i], b);
  }

  // ---------------------------------------------------------------- encoding

  function High(n: nat): Byte requires n <= MAX_DATA { n / 256 }

  function Low(n: nat): Byte requires n <= MAX_DATA { n % 256 }

  function ReadU16(high: Byte, low: Byte): nat { high * 256 + low }

  lemma U16RoundTrips(n: nat)
    requires n <= MAX_DATA
    ensures ReadU16(High(n), Low(n)) == n
  {
  }

  /** The wire form of DATA. */
  function Frame(data: Bytes): Bytes
    requires |data| <= MAX_DATA
  {
    PREFIX + [High(|data|), Low(|data|)] + data + [Lrc(data)]
  }

  /** Encoding writes prefix, length, DATA and checksum into a new buffer; longer DATA is refused. */
  method Encode(data: Bytes) returns (frame: array?<Byte>)
    ensures |data| > MAX_DATA <==> frame == null
    ensures frame != null ==> fresh(frame) && frame[..] == Frame(data)
  {
    if |data| > MAX_DATA { return null; }
    var buffer := new Byte[|data| + 6];
    forall i | 0 <= i < 3 { buffer[i] := PREFIX[i]; }
    buffer[3], buffer[4] := High(|data|), Low(|data|);
    forall i | 0 <= i < |data| { buffer[5 + i] := data[i]; }
    buffer[buffer.Length - 1] := Lrc(data);
    frame := buffer;
    assert buffer[5..5 + |data|] == data;
    assert buffer[..] == Frame(data);
  }

  // ---------------------------------------------------------------- what a byte stream means

  /** JSON text is decoded by a partial function outside this model, of which only its domain matters
      here: a payload stands for the value of its DATA bytes. */
  datatype Decoded =
    | Payload(hex: Bytes, data: Bytes)
    | BadChecksum(hex: Bytes)   // E02
    | NotJson(hex: Bytes)       // E03
    | Unframed(hex: Bytes)      // E01, fatal

  /** What is left behind the complete frames: a partial frame, or bytes that are no frame. */
  datatype Tail = Pending(rest: Bytes) | Broken(rest: Bytes)

  datatype Parsed = Parsed(frames: seq<Decoded>, tail: Tail)

  /** A whole frame as its bytes say. */
  function Interpret(isJson: Bytes -> bool, raw: Bytes): Decoded
    requires |raw| >= 6
  {
    var data := raw[5..|raw| - 1];
    if Lrc(data) != raw[|raw| - 1] then BadChecksum(raw)
    else if isJson(data) then Payload(raw, data)
    else NotJson(raw)
  }

  function FrameLength(b: Bytes): nat
    requires |b| >= 5
  {
    ReadU16(b[3], b[4]) + 6
  }

  /** The meaning of a byte stream, by recursion on its frames. */
  function Parse(isJson: Bytes -> bool, b: Bytes): Parsed
    decreases |b|
  {
    if |b| < 5 then Parsed([], Pending(b))
    else if b[..3] != PREFIX then Parsed([], Broken(b))
    else if |b| < FrameLength(b) then Parsed([], Pending(b))
    else
      var rest := Parse(isJson, b[FrameLength(b)..]);
      Parsed([Interpret(isJson, b[..FrameLength(b)])] + rest.frames, rest.tail)
  }

  /** What one push emits and keeps. */
  function Emitted(p: Parsed): seq<Decoded> {
    p.frames + if p.tail.Broken? then [Unframed(p.tail.rest)] else []
  }

  function Kept(p: Parsed): Bytes { if p.tail.Broken? then [] else p.tail.rest }

  class Decoder {
    const isJson: Bytes -> bool
    var pending: Bytes

    constructor (isJson: Bytes -> bool)
      ensures this.isJson == isJson && pending == []
    {
      this.isJson := isJson;
      pending := [];
    }

    /** Consume one chunk: the emitted frames and the bytes kept are what the bytes so far mean. */
    method Push(chunk: Bytes) returns (frames: seq<Decoded>)
      modifies this
      ensures frames == Emitted(Parse(isJson, old(pending) + chunk))
      ensures pending == Kept(Parse(isJson, old(pending) + chunk))
    {
      hide ReadU16;
      hide Lrc;
      hide Interpret;
      pending := pending + chunk;
      frames := [];
      ghost var all := Parse(isJson, pending);
      while |pending| >= 5
        invariant all == Parsed(frames + Parse(isJson, pending).frames, Parse(isJson, pending).tail)
        decreases |pending|
      {
        if pending[..3] != PREFIX {
          frames := frames + [Unframed(pending)];
          pending := [];
          return;
        }
        var length := ReadU16(pending[3], pending[4]) + 6;
        if |pending| < length { break; }
        var raw := pending[..length];
        FrameTaken(isJson, frames, pending, length);
        hide Parse;
        pending := pending[length..];
        var frame := Read(raw);
        frames := frames + [frame];
      }
    }

    /** One whole frame, its checksum compared and its DATA decoded. */
    method Read(raw: Bytes) returns (frame: Decoded)
      requires |raw| >= 6
      ensures frame == Interpret(isJson, raw)
    {
      hide Lrc;
      var data := raw[5..|raw| - 1];
      if Lrc(data) != raw[|raw| - 1] {
        frame := BadChecksum(raw);
      } else {
        frame := if isJson(data) then Payload(raw, data) else NotJson(raw);
      }
    }
  }

  /** A whole frame moves from the bytes to the frames. */
  lemma FrameTaken(isJson: Bytes -> bool, frames: seq<Decoded>, b: Bytes, n: nat)
    requires |b| >= 5 && b[..3] == PREFIX && n == FrameLength(b) && n <= |b|
    ensures |b[..n]| >= 6
    ensures var p, q := Parse(isJson, b), Parse(isJson, b[n..]);
      p.tail == q.tail && frames + p.frames == (frames + [Interpret(isJson, b[..n])]) + q.frames
  {
    ParseAfterFrame(isJson, b, n);
    hide Parse;
    hide Interpret;
    var first, q := [Interpret(isJson, b[..n])], Parse(isJson, b[n..]);
    assert frames + (first + q.frames) == (frames + first) + q.frames;
  }

  // ---------------------------------------------------------------- chunking does not matter

  lemma ParseAfterFrame(isJson: Bytes -> bool, b: Bytes, n: nat)
    requires |b| >= 5 && b[..3] == PREFIX && n == FrameLength(b) && n <= |b|
    ensures Parse(isJson, b)
         == Parsed([Interpret(isJson, b[..n])] + Parse(isJson, b[n..]).frames, Parse(isJson, b[n..]).tail)
  {
  }

  /** Parsing resumes where it stopped; a broken stream stays broken at the same place. */
  lemma {:induction false} ParseResumes(isJson: Bytes -> bool, a: Bytes, b: Bytes)
    ensures var p := Parse(isJson, a); var q := Parse(isJson, a + b);
      && (p.tail.Pending? ==>
            q == Parsed(p.frames + Parse(isJson, p.tail.rest + b).frames, Parse(isJson, p.tail.rest + b).tail))
      && (p.tail.Broken? ==> q == Parsed(p.frames, Broken(p.tail.rest + b)))
    decreases |a|
  {
    hide ReadU16;
    hide Interpret;
    if |a| >= 5 && a[..3] == PREFIX && |a| >= FrameLength(a) {
      ParseResumes(isJson, a[FrameLength(a)..], b);
      FrameThenResumes(isJson, a, b);
    } else {
      assert |a| >= 5 ==> (a + b)[..3] == a[..3];
      assert [] + Parse(isJson, a + b).frames == Parse(isJson, a + b).frames;
    }
  }

  /** A whole frame in front of bytes from which parsing resumes. */
  lemma FrameThenResumes(isJson: Bytes -> bool, a: Bytes, b: Bytes)
    requires |a| >= 5 && a[..3] == PREFIX && |a| >= FrameLength(a)
    requires var p := Parse(isJson, a[FrameLength(a)..]); var q := Parse(isJson, a[FrameLength(a)..] + b);
      && (p.tail.Pending? ==>
            q == Parsed(p.frames + Parse(isJson, p.tail.rest + b).frames, Parse(isJson, p.tail.rest + b).tail))
      && (p.tail.Broken? ==> q == Parsed(p.frames, Broken(p.tail.rest + b)))
    ensures var p := Parse(isJson, a); var q := Parse(isJson, a + b);
      && (p.tail.Pending? ==>
            q == Parsed(p.frames + Parse(isJson, p.tail.rest + b).frames, Parse(isJson, p.tail.rest + b).tail))
      && (p.tail.Broken? ==> q == Parsed(p.frames, Broken(p.tail.rest + b)))
  {
    hide ReadU16;
    hide Interpret;
    hide Parse;
    var n := FrameLength(a);
    assert (a + b)[..3] == a[..3] && FrameLength(a + b) == n;
    assert (a + b)[n..] == a[n..] + b && (a + b)[..n] == a[..n];
    ParseAfterFrame(isJson, a, n);
    ParseAfterFrame(isJson, a + b, n);
    var first, p := [Interpret(isJson, a[..n])], Parse(isJson, a[n..]);
    if p.tail.Pending? {
      var q := Parse(isJson, p.tail.rest + b);
      assert first + (p.frames + q.frames) == (first + p.frames) + q.frames;
    }
  }

  function Joined(chunks: seq<Bytes>): Bytes {
    if chunks == [] then [] else chunks[0] + Joined(chunks[1..])
  }

  datatype Reception = Reception(frames: seq<Decoded>, pending: Bytes)

  /** Everything one decoder emits for a list of chunks, and what it still holds. */
  function Receive(isJson: Bytes -> bool, pending: Bytes, chunks: seq<Bytes>): Reception
    decreases |chunks|
  {
    if chunks == [] then Reception([], pending)
    else
      var p := Parse(isJson, pending + chunks[0]);
      var rest := Receive(isJson, Kept(p), chunks[1..]);
      Reception(Emitted(p) + rest.frames, rest.pending)
  }

  function BeforeFatal(frames: seq<Decoded>): seq<Decoded> {
    if frames == [] || frames[0].Unframed? then [] else [frames[0]] + BeforeFatal(frames[1..])
  }

  predicate HasFatal(frames: seq<Decoded>) {
    exists i :: 0 <= i < |frames| && frames[i].Unframed?
  }

  lemma {:induction false} ParsedFramesAreNotFatal(isJson: Bytes -> bool, b: Bytes)
    ensures !HasFatal(Parse(isJson, b).frames)
    decreases |b|
  {
    if |b| >= 5 && b[..3] == PREFIX && |b| >= FrameLength(b) {
      ParsedFramesAreNotFatal(isJson, b[FrameLength(b)..]);
    }
  }

  lemma {:induction false} BeforeFatalOf(good: seq<Decoded>, more: seq<Decoded>)
    requires !HasFatal(good)
    ensures BeforeFatal(good + more) == good + BeforeFatal(more)
    ensures HasFatal(good + more) <==> HasFatal(more)
  {
    if good == [] {
      assert good + more == more;
    } else {
      assert !good[0].Unframed?;
      HasFatalBeyond(good);
      HasFatalBeyond(good + more);
      hide HasFatal;
      BeforeFatalOf(good[1..], more);
      assert (good + more)[1..] == good[1..] + more;
      assert [good[0]] + (good[1..] + BeforeFatal(more)) == good + BeforeFatal(more);
    }
  }

  lemma HasFatalBeyond(frames: seq<Decoded>)
    requires frames != [] && !frames[0].Unframed?
    ensures HasFatal(frames) <==> HasFatal(frames[1..])
  {
    if HasFatal(frames) {
      var i :| 0 <= i < |frames| && frames[i].Unframed?;
      assert frames[1..][i - 1] == frames[i];
    }
  }

  /** The frames before the first fatal one, whether there is a fatal one, and otherwise the pending
      bytes, are what the joined stream means: chunk boundaries have no influence. */
  lemma {:induction false} ChunksDoNotMatter(isJson: Bytes -> bool, pending: Bytes, chunks: seq<Bytes>)
    requires Parse(isJson, pending) == Parsed([], Pending(pending))
    ensures var r := Receive(isJson, pending, chunks); var p := Parse(isJson, pending + Joined(chunks));
      && BeforeFatal(r.frames) == p.frames
      && (HasFatal(r.frames) <==> p.tail.Broken?)
      && (p.tail.Pending? ==> r == Reception(p.frames, p.tail.rest))
    decreases |chunks|
  {
    hide Parse;
    hide HasFatal;
    if chunks == [] {
      assert pending + Joined(chunks) == pending;
      NothingReceived(pending);
    } else {
      var head := pending + chunks[0];
      var p, tail := Parse(isJson, head), Joined(chunks[1..]);
      assert pending + Joined(chunks) == head + tail;
      ParseResumes(isJson, head, tail);
      ParsedFramesAreNotFatal(isJson, head);
      var rest := Receive(isJson, Kept(p), chunks[1..]);
      if p.tail.Pending? {
        ParseOfPending(isJson, head);
        ChunksDoNotMatter(isJson, p.tail.rest, chunks[1..]);
        assert Emitted(p) == p.frames;
        BeforeFatalOf(p.frames, rest.frames);
      } else {
        FatalStops(p, rest.frames);
      }
    }
  }

  lemma NothingReceived(pending: Bytes)
    ensures BeforeFatal([]) == [] && !HasFatal([])
  {
  }

  lemma FatalStops(p: Parsed, more: seq<Decoded>)
    requires p.tail.Broken? && !HasFatal(p.frames)
    ensures BeforeFatal(Emitted(p) + more) == p.frames && HasFatal(Emitted(p) + more)
  {
    var after := [Unframed(p.tail.rest)] + more;
    assert after[0].Unframed?;
    assert Emitted(p) + more == p.frames + after;
    BeforeFatalOf(p.frames, after);
  }

  lemma {:induction false} ParseOfPending(isJson: Bytes -> bool, b: Bytes)
    requires Parse(isJson, b).tail.Pending?
    ensures var rest := Parse(isJson, b).tail.rest; Parse(isJson, rest) == Parsed([], Pending(rest))
    decreases |b|
  {
    hide ReadU16;
    hide Interpret;
    if |b| >= 5 && |b| >= FrameLength(b) {
      ParseOfPending(isJson, b[FrameLength(b)..]);
    }
  }

  /** Two chunkings of one stream are indistinguishable up to the first fatal frame. */
  lemma AnyTwoChunkingsAgree(isJson: Bytes -> bool, one: seq<Bytes>, two: seq<Bytes>)
    requires Joined(one) == Joined(two)
    ensures var a := Receive(isJson, [], one); var b := Receive(isJson, [], two);
      && BeforeFatal(a.frames) == BeforeFatal(b.frames)
      && (HasFatal(a.frames) <==> HasFatal(b.frames))
      && (!HasFatal(a.frames) ==> a == b)
  {
    ChunksDoNotMatter(isJson, [], one);
    ChunksDoNotMatter(isJson, [], two);
  }

  // ---------------------------------------------------------------- round trips

  /** Prefix and length field describe exactly these bytes. */
  predicate Delimited(raw: Bytes) {
    |raw| >= 6 && raw[..3] == PREFIX && |raw| == FrameLength(raw)
  }

  predicate AllDelimited(raws: seq<Bytes>) {
    forall i :: 0 <= i < |raws| ==> Delimited(raws[i])
  }

  function InterpretAll(isJson: Bytes -> bool, raws: seq<Bytes>): (r: seq<Decoded>)
    requires AllDelimited(raws)
    ensures |r| == |raws| && forall i :: 0 <= i < |raws| ==> Delimited(raws[i]) && r[i] == Interpret(isJson, raws[i])
  {
    if raws == [] then [] else assert Delimited(raws[0]); [Interpret(isJson, raws[0])] + InterpretAll(isJson, raws[1..])
  }

  lemma {:induction false} ParseOfFrames(isJson: Bytes -> bool, raws: seq<Bytes>)
    requires AllDelimited(raws)
    ensures Parse(isJson, Joined(raws)) == Parsed(InterpretAll(isJson, raws), Pending([]))
  {
    if raws != [] {
      var raw, b := raws[0], Joined(raws);
      assert Delimited(raw);
      ParseOfFrames(isJson, raws[1..]);
      assert b[..3] == raw[..3] && b[3] == raw[3] && b[4] == raw[4];
      assert b[|raw|..] == Joined(raws[1..]) && b[..|raw|] == raw;
    }
  }

  lemma FrameIsDelimited(data: Bytes)
    requires |data| <= MAX_DATA
    ensures Delimited(Frame(data)) && Frame(data)[5..|Frame(data)| - 1] == data
    ensures Frame(data)[|Frame(data)| - 1] == Lrc(data)
  {
    var f := Frame(data);
    assert f[3] == High(|data|) && f[4] == Low(|data|);
    U16RoundTrips(|data|);
    assert f[..3] == PREFIX;
  }

  predicate Encodable(payloads: seq<Bytes>) {
    forall i :: 0 <= i < |payloads| ==> |payloads[i]| <= MAX_DATA
  }

  function FramesOf(payloads: seq<Bytes>): (r: seq<Bytes>)
    requires Encodable(payloads)
    ensures |r| == |payloads| && forall i :: 0 <= i < |r| ==> r[i] == Frame(payloads[i])
  {
    if payloads == [] then [] else [Frame(payloads[0])] + FramesOf(payloads[1..])
  }

  /** What a payload becomes on the other side. */
  function Delivered(isJson: Bytes -> bool, data: Bytes): Decoded
    requires |data| <= MAX_DATA
  {
    if isJson(data) then Payload(Frame(data), data) else NotJson(Frame(data))
  }

  /** Encode, cut into any fragments, decode: exactly the payloads, in order, nothing pending. */
  lemma EncodeFragmentDecode(isJson: Bytes -> bool, payloads: seq<Bytes>, fragments: seq<Bytes>)
    requires Encodable(payloads) && Joined(fragments) == Joined(FramesOf(payloads))
    ensures var r := Receive(isJson, [], fragments);
      && r.pending == [] && |r.frames| == |payloads|
      && forall i :: 0 <= i < |payloads| ==> r.frames[i] == Delivered(isJson, payloads[i])
  {
    var raws := FramesOf(payloads);
    forall i | 0 <= i < |payloads|
      ensures Delimited(raws[i]) && Interpret(isJson, raws[i]) == Delivered(isJson, payloads[i])
    {
      FrameIsDelimited(payloads[i]);
    }
    ParseOfFrames(isJson, raws);
    ChunksDoNotMatter(isJson, [], fragments);
    assert [] + Joined(fragments) == Joined(raws);
  }

  /** Altering any one byte of one frame's DATA or checksum makes that frame, and no other, E02. */
  lemma OneBadByteCostsOneFrame(
    isJson: Bytes -> bool, payloads: seq<Bytes>, k: nat, i: nat, b: Byte, fragments: seq<Bytes>)
    requires Encodable(payloads) && k < |payloads| && 5 <= i < |payloads[k]| + 6
    requires b != Frame(payloads[k])[i]
    requires Joined(fragments) == Joined(FramesOf(payloads)[k := Frame(payloads[k])[i := b]])
    ensures var r := Receive(isJson, [], fragments);
      && r.pending == [] && |r.frames| == |payloads|
      && r.frames[k] == BadChecksum(Frame(payloads[k])[i := b])
      && forall j :: 0 <= j < |payloads| && j != k ==> r.frames[j] == Delivered(isJson, payloads[j])
  {
    var bad := Frame(payloads[k])[i := b];
    var raws := FramesOf(payloads)[k := bad];
    forall j | 0 <= j < |payloads|
      ensures Delimited(raws[j])
      ensures Interpret(isJson, raws[j]) == if j == k then BadChecksum(bad) else Delivered(isJson, payloads[j])
    {
      FrameIsDelimited(payloads[j]);
      if j == k {
        BadByteIsSeen(isJson, payloads[k], i, b);
      }
    }
    ParseOfFrames(isJson, raws);
    ChunksDoNotMatter(isJson, [], fragments);
    assert [] + Joined(fragments) == Joined(raws);
  }

  lemma AlteredStaysDelimited(raw: Bytes, i: nat, b: Byte)
    requires Delimited(raw) && 5 <= i < |raw|
    ensures Delimited(raw[i := b])
  {
    hide ReadU16;
    assert raw[i := b][..3] == raw[..3];
  }

  lemma AlteredData(raw: Bytes, i: nat, b: Byte)
    requires |raw| >= 6 && 5 <= i < |raw| - 1 && b != raw[i]
    ensures Lrc(raw[i := b][5..|raw| - 1]) != Lrc(raw[5..|raw| - 1])
  {
    hide Lrc;
    var data := raw[5..|raw| - 1];
    assert raw[i := b][5..|raw| - 1] == data[i - 5 := b];
    LrcDetectsOneByte(data, i - 5, b);
  }

  lemma BadByteIsSeen(isJson: Bytes -> bool, data: Bytes, i: nat, b: Byte)
    requires |data| <= MAX_DATA && 5 <= i < |data| + 6 && b != Frame(data)[i]
    ensures Delimited(Frame(data)[i := b])
    ensures Interpret(isJson, Frame(data)[i := b]) == BadChecksum(Frame(data)[i := b])
  {
    FrameIsDelimited(data);
    var raw := Frame(data);
    hide Lrc;
    hide Frame;
    AlteredStaysDelimited(raw, i, b);
    hide Delimited;
    if i < |raw| - 1 {
      AlteredData(raw, i, b);
    } else {
      assert raw[i := b][5..|raw| - 1] == data;
    }
  }

  // ---------------------------------------------------------------- the responder's writing loop

  /** The reply cut into pieces of `fragmentBytes`, or written whole when that is zero. */
  method Fragment(bytes: Bytes, fragmentBytes: nat) returns (chunks: seq<Bytes>)
    requires bytes != []
    ensures Joined(chunks) == bytes
    ensures var size := if fragmentBytes == 0 then |bytes| else fragmentBytes;
      forall i :: 0 <= i < |chunks| ==> 0 < |chunks[i]| <= size && (i < |chunks| - 1 ==> |chunks[i]| == size)
  {
    var size := if fragmentBytes == 0 then |bytes| else fragmentBytes;
    var at := 0;
    chunks := [];
    while at < |bytes|
      invariant Joined(chunks) == bytes[..Min(at, |bytes|)]
      invariant forall i :: 0 <= i < |chunks| ==> 0 < |chunks[i]| <= size
      invariant at < |bytes| ==> forall i :: 0 <= i < |chunks| ==> |chunks[i]| == size
      invariant forall i :: 0 <= i < |chunks| - 1 ==> |chunks[i]| == size
    {
      var chunk := bytes[at..Min(at + size, |bytes|)];
      JoinedAppend(chunks, chunk);
      chunks := chunks + [chunk];
      at := at + size;
    }
    assert bytes[..|bytes|] == bytes;
  }

  lemma {:induction false} JoinedAppend(chunks: seq<Bytes>, chunk: Bytes)
    ensures Joined(chunks + [chunk]) == Joined(chunks) + chunk
  {
    if chunks == [] {
      assert [chunk][1..] == [];
    } else {
      JoinedAppend(chunks[1..], chunk);
      var x, y := chunks[0], Joined(chunks[1..]);
      assert (chunks + [chunk])[0] == x && (chunks + [chunk])[1..] == chunks[1..] + [chunk];
      assert x + (y + chunk) == (x + y) + chunk;
    }
  }

  // ---------------------------------------------------------------- injected frame faults

  datatype FrameFault = BadLrc | BadLength | BadJson

  /** The bytes written for a reply under a frame fault; a length that does not fit is refused. */
  function Spoiled(fault: FrameFault, data: Bytes): Option<Bytes>
    requires 0 < |data| <= MAX_DATA
  {
    var f := Frame(data);
    match fault
    case BadLrc => Some(f[|f| - 1 := Xor(f[|f| - 1], 1)])
    case BadLength =>
      if |f| + 20 > MAX_DATA then None else Some(f[3 := High(|f| + 20)][4 := Low(|f| + 20)])
    case BadJson =>
      var g := f[5 := 0x21];
      Some(g[|g| - 1 := Lrc(g[5..|g| - 1])])
  }

  lemma FlippedBitDiffers(b: Byte)
    ensures Xor(b, 1) != b
  {
    XorGroup(1, 1, 0);
    XorLaws(b, 1, 0);
  }

  /** A reader sees each fault as what it is named for: a checksum error, a frame that never completes,
      or a sound frame whose DATA begins with an exclamation mark. */
  lemma FaultsAreSeen(isJson: Bytes -> bool, data: Bytes)
    requires 0 < |data| <= MAX_DATA
    ensures var b := Spoiled(BadLrc, data).value;
      Parse(isJson, b) == Parsed([BadChecksum(b)], Pending([]))
    ensures Spoiled(BadLength, data).Some? ==>
      var b := Spoiled(BadLength, data).value; Parse(isJson, b) == Parsed([], Pending(b))
    ensures Spoiled(BadLength, data).None? <==> |data| + 26 > MAX_DATA
    ensures Spoiled(BadJson, data) == Some(Frame(data[0 := 0x21]))
  {
    BadLrcIsSeen(isJson, data);
    BadLengthIsSeen(isJson, data);
    BadJsonIsFramed(data);
  }

  lemma BadLrcIsSeen(isJson: Bytes -> bool, data: Bytes)
    requires 0 < |data| <= MAX_DATA
    ensures var b := Spoiled(BadLrc, data).value;
      Parse(isJson, b) == Parsed([BadChecksum(b)], Pending([]))
  {
    var f := Frame(data);
    FlippedBitDiffers(f[|f| - 1]);
    hide Xor;
    hide Lrc;
    hide ReadU16;
    BadByteIsSeen(isJson, data, |f| - 1, Xor(f[|f| - 1], 1));
    var b := Spoiled(BadLrc, data).value;
    assert b[|b|..] == [] && b[..|b|] == b;
  }

  lemma LongLengthIsPending(isJson: Bytes -> bool, b: Bytes)
    requires |b| >= 5 && b[..3] == PREFIX && |b| < FrameLength(b)
    ensures Parse(isJson, b) == Parsed([], Pending(b))
  {
  }

  lemma BadLengthIsSeen(isJson: Bytes -> bool, data: Bytes)
    requires 0 < |data| <= MAX_DATA
    ensures Spoiled(BadLength, data).Some? ==>
      var b := Spoiled(BadLength, data).value; Parse(isJson, b) == Parsed([], Pending(b))
    ensures Spoiled(BadLength, data).None? <==> |data| + 26 > MAX_DATA
  {
    hide Parse;
    hide ReadU16;
    hide High;
    hide Low;
    var f := Frame(data);
    if |f| + 20 <= MAX_DATA {
      FrameIsDelimited(data);
      U16RoundTrips(|f| + 20);
      hide Frame;
      var b := f[3 := High(|f| + 20)][4 := Low(|f| + 20)];
      assert b[..3] == f[..3];
      LongLengthIsPending(isJson, b);
    }
  }

  lemma BadJsonIsFramed(data: Bytes)
    requires 0 < |data| <= MAX_DATA
    ensures Spoiled(BadJson, data) == Some(Frame(data[0 := 0x21]))
  {
    hide Lrc;
    hide High;
    hide Low;
    var f := Frame(data);
    var g := f[5 := 0x21];
    assert g[5..|g| - 1] == data[0 := 0x21];
    assert Frame(data[0 := 0x21]) == g[|g| - 1 := Lrc(data[0 := 0x21])];
  }
}
