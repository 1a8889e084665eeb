/** Operation identifiers `g<generation>-op<number>`: printing, parsing back, and the byte order
    that BTreeMap keys and the scheduler's tie-break use. */
module OperationIds {
  import opened Prelude

  function Digit(d: nat): (c: char)
    requires d < 10
    ensures '0' <= c <= '9'
  {
    '0' + (d as char)
  }

  /** Decimal text without leading zeros, as Rust prints a u64. */
  function Decimal(n: nat): (s: string)
    ensures |s| > 0 && forall i :: 0 <= i < |s| ==> '0' <= s[i] <= '9'
  {
    if n < 10 then [Digit(n)] else Decimal(n / 10) + [Digit(n % 10)]
  }

  predicate AllDigits(s: string) {
    forall i :: 0 <= i < |s| ==> '0' <= s[i] <= '9'
  }

  function Value(s: string): nat
    requires AllDigits(s)
  {
    if s == "" then 0
    else Value(s[..|s| - 1]) * 10 + (s[|s| - 1] as int - '0' as int)
  }

  lemma {:induction false} ValueOfDecimal(n: nat)
    ensures Value(Decimal(n)) == n
  {
    if n < 10 {
      assert Decimal(n)[..0] == "";
    } else {
      var s := Decimal(n);
      assert s[..|s| - 1] == Decimal(n / 10);
      ValueOfDecimal(n / 10);
    }
  }

  /** Rust's str::parse::<u64>: an optional plus sign, then digits only, in range. */
  function ParseU64(s: string): Option<nat> {
    var body := if |s| > 1 && s[0] == '+' then s[1..] else s;
    if body != "" && AllDigits(body) && Value(body) <= U64_MAX then Some(Value(body)) else None
  }

  function Print(generation: nat, number: nat): string {
    "g" + Decimal(generation) + "-op" + Decimal(number)
  }

  /** What `split("-op").last()` yields: the text after the last separator, scanned left to right. */
  function LastPiece(s: string): string
    decreases |s|
  {
    LastPieceFrom(s, 0)
  }

  /** `from` is the scanning position inside the piece that starts at index 0 of `s`. */
  function LastPieceFrom(s: string, from: nat): string
    requires from <= |s|
    decreases |s|, |s| - from
  {
    if from + 3 > |s| then s
    else if s[from..from + 3] == "-op" then LastPieceFrom(s[from + 3..], 0)
    else LastPieceFrom(s, from + 1)
  }

  lemma {:induction false} LastPieceOfDigits(s: string, from: nat)
    requires AllDigits(s) && from <= |s|
    ensures LastPieceFrom(s, from) == s
    decreases |s| - from
  {
    if from + 3 <= |s| {
      assert s[from..from + 3][0] == s[from];
      LastPieceOfDigits(s, from + 1);
    }
  }

  lemma {:induction false} LastPieceSkips(left: string, tail: string, from: nat)
    requires from <= |left|
    requires forall i :: 0 <= i < |left| ==> left[i] != '-'
    requires AllDigits(tail)
    ensures LastPieceFrom(left + "-op" + tail, from) == tail
    decreases |left| - from
  {
    var s := left + "-op" + tail;
    if from == |left| {
      assert s[from..from + 3] == "-op";
      assert s[from + 3..] == tail;
      LastPieceOfDigits(tail, 0);
    } else {
      assert s[from..from + 3][0] == left[from];
      LastPieceSkips(left, tail, from + 1);
    }
  }

  /** The number that `result` recovers from an id is the number that was printed into it. */
  lemma NumberRoundTrips(generation: nat, number: nat)
    requires number <= U64_MAX
    ensures ParseU64(LastPiece(Print(generation, number))) == Some(number)
  {
    var left, tail := "g" + Decimal(generation), Decimal(number);
    assert Print(generation, number) == left + "-op" + tail;
    LastPieceSkips(left, tail, 0);
    ValueOfDecimal(number);
  }

  lemma {:induction false} SameCut(a: string, x: string, c: string, y: string)
    requires '-' !in a && '-' !in c
    requires a + "-" + x == c + "-" + y
    ensures a == c && x == y
  {
    var s, t := a + "-" + x, c + "-" + y;
    assert s[0] == t[0];
    if a == "" || c == "" {
      assert a == "" && c == "";
      assert x == s[1..] && y == t[1..];
    } else {
      assert s[1..] == a[1..] + "-" + x && t[1..] == c[1..] + "-" + y;
      SameCut(a[1..], x, c[1..], y);
      assert a == [a[0]] + a[1..] && c == [c[0]] + c[1..];
    }
  }

  /** Different generations or numbers never share an id. */
  lemma PrintInjective(g1: nat, n1: nat, g2: nat, n2: nat)
    requires Print(g1, n1) == Print(g2, n2)
    ensures g1 == g2 && n1 == n2
  {
    var a, b, c, d := Decimal(g1), Decimal(n1), Decimal(g2), Decimal(n2);
    assert Print(g1, n1) == ("g" + a) + "-" + ("op" + b);
    assert Print(g2, n2) == ("g" + c) + "-" + ("op" + d);
    SameCut("g" + a, "op" + b, "g" + c, "op" + d);
    assert a == ("g" + a)[1..] && c == ("g" + c)[1..];
    assert b == ("op" + b)[2..] && d == ("op" + d)[2..];
    ValueOfDecimal(g1); ValueOfDecimal(g2);
    ValueOfDecimal(n1); ValueOfDecimal(n2);
  }

  /** Byte-wise lexicographic order on ids. */
  predicate AtMost(a: string, b: string) {
    a == "" || (b != "" && (a[0] < b[0] || (a[0] == b[0] && AtMost(a[1..], b[1..]))))
  }

  lemma {:induction false} AtMostTotal(a: string, b: string)
    ensures AtMost(a, b) || AtMost(b, a)
  {
    if a != "" && b != "" && a[0] == b[0] {
      AtMostTotal(a[1..], b[1..]);
    }
  }

  lemma {:induction false} AtMostAntisymmetric(a: string, b: string)
    requires AtMost(a, b) && AtMost(b, a)
    ensures a == b
  {
    if a != "" && b != "" {
      AtMostAntisymmetric(a[1..], b[1..]);
      assert a == [a[0]] + a[1..];
      assert b == [b[0]] + b[1..];
    }
  }

  lemma {:induction false} AtMostTransitive(a: string, b: string, c: string)
    requires AtMost(a, b) && AtMost(b, c)
    ensures AtMost(a, c)
  {
    if a != "" && a[0] == b[0] && b[0] == c[0] {
      AtMostTransitive(a[1..], b[1..], c[1..]);
    }
  }

  /** The first character in which two ids differ decides, and a beginning comes before its continuations. */
  lemma {:induction false} FirstDifferenceDecides(a: string, b: string, k: nat)
    requires k <= |a| && k <= |b| && a[..k] == b[..k]
    requires k == |a| || (k < |b| && a[k] < b[k])
    ensures AtMost(a, b) && (a != b ==> !AtMost(b, a))
  {
    if k > 0 {
      assert a[0] == a[..k][0] == b[..k][0] == b[0];
      assert a[1..][..k - 1] == a[..k][1..] == b[..k][1..] == b[1..][..k - 1];
      assert a == [a[0]] + a[1..] && b == [b[0]] + b[1..];
      FirstDifferenceDecides(a[1..], b[1..], k - 1);
    }
  }

  /** So of two payments due together the tenth of a generation goes before its second. */
  lemma TenthBeforeSecond(generation: nat)
    ensures AtMost(Print(generation, 10), Print(generation, 2)) && !AtMost(Print(generation, 2), Print(generation, 10))
  {
    assert Decimal(10) == "10" && Decimal(2) == "2";
    var a, b := Print(generation, 10), Print(generation, 2);
    var k := |"g" + Decimal(generation) + "-" + "op"|;
    assert a == "g" + Decimal(generation) + "-" + "op" + "10" && b == "g" + Decimal(generation) + "-" + "op" + "2";
    FirstDifferenceDecides(a, b, k);
  }
}
