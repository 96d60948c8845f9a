/** UTF-8 as in section 3 of RFC 3629, and cutting a text on a character
    boundary. */
module Utf8 {
  import opened Framing

  /** A Unicode scalar value. */
  type Scalar = c: int | 0 <= c < 0xD800 || 0xE000 <= c < 0x11_0000

  predicate IsContinuation(b: byte) { 0x80 <= b < 0xC0 }

  function Continuation(bits: int): (b: byte)
    ensures IsContinuation(b)
  {
    0x80 + bits % 64
  }

  function EncodeScalar(c: Scalar): (r: seq<byte>)
    ensures 1 <= |r| <= 4 && !IsContinuation(r[0])
    ensures forall i :: 0 < i < |r| ==> IsContinuation(r[i])
  {
    if c < 0x80 then [c]
    else if c < 0x800 then [0xC0 + c / 64, Continuation(c)]
    else if c < 0x1_0000 then [0xE0 + c / 0x1000, Continuation(c / 64), Continuation(c)]
    else [0xF0 + c / 0x4_0000, Continuation(c / 0x1000), Continuation(c / 64), Continuation(c)]
  }

  function Encode(cs: seq<Scalar>): (r: seq<byte>) {
    if cs == [] then [] else EncodeScalar(cs[0]) + Encode(cs[1..])
  }

  ghost predicate IsUtf8(text: seq<byte>) { exists cs :: Encode(cs) == text }

  /** Rust's `is_char_boundary`. */
  predicate IsBoundary(text: seq<byte>, i: nat) {
    i == 0 || i == |text| || (i < |text| && !IsContinuation(text[i]))
  }

  /** The last boundary at or before `i`. */
  function BoundaryBefore(text: seq<byte>, i: nat): (r: nat)
    requires i <= |text|
    ensures r <= i && IsBoundary(text, r)
    ensures forall j :: r < j <= i ==> !IsBoundary(text, j)
  {
    if IsBoundary(text, i) then i else BoundaryBefore(text, i - 1)
  }

  /** What fits of a text: cut at the last boundary within the capacity. */
  function Truncated(text: seq<byte>, capacity: nat): (r: seq<byte>) {
    text[..BoundaryBefore(text, if |text| < capacity then |text| else capacity)]
  }

  lemma {:induction false} EncodeConcat(a: seq<Scalar>, b: seq<Scalar>)
    ensures Encode(a + b) == Encode(a) + Encode(b)
  {
    if a == [] {
      assert a + b == b;
    } else {
      assert (a + b)[1..] == a[1..] + b;
      EncodeConcat(a[1..], b);
    }
  }

  /** Where the `k`-th character starts is a boundary. */
  lemma {:induction false} StartsAreBoundaries(cs: seq<Scalar>, k: nat)
    requires k <= |cs|
    ensures Encode(cs[..k]) <= Encode(cs) && IsBoundary(Encode(cs), |Encode(cs[..k])|)
  {
    assert cs == cs[..k] + cs[k..];
    EncodeConcat(cs[..k], cs[k..]);
    if k < |cs| {
      assert Encode(cs[k..]) == EncodeScalar(cs[k]) + Encode(cs[k..][1..]);
    } else {
      assert cs[..k] == cs;
    }
  }

  /** Inside a character there is none. */
  lemma InsideIsNoBoundary(cs: seq<Scalar>, k: nat, i: nat)
    requires k < |cs| && |Encode(cs[..k])| < i < |Encode(cs[..k + 1])|
    ensures |Encode(cs[..k + 1])| <= |Encode(cs)| && !IsBoundary(Encode(cs), i)
  {
    var before, c := Encode(cs[..k]), EncodeScalar(cs[k]);
    assert cs[..k + 1] == cs[..k] + [cs[k]];
    EncodeConcat(cs[..k], [cs[k]]);
    assert Encode([cs[k]]) == c + Encode([]);
    assert cs == cs[..k + 1] + cs[k + 1..];
    EncodeConcat(cs[..k + 1], cs[k + 1..]);
    assert Encode(cs)[i] == c[i - |before|];
  }

  /** Each character takes one to four bytes. */
  lemma OneMoreCharacter(cs: seq<Scalar>, k: nat)
    requires k < |cs|
    ensures |Encode(cs[..k])| < |Encode(cs[..k + 1])| <= |Encode(cs[..k])| + 4
  {
    assert cs[..k + 1] == cs[..k] + [cs[k]];
    EncodeConcat(cs[..k], [cs[k]]);
    assert Encode([cs[k]]) == EncodeScalar(cs[k]) + Encode([]);
  }

  /** How many characters fit, counting up from `k` that do. */
  function Fitting(cs: seq<Scalar>, capacity: nat, k: nat): (n: nat)
    requires k <= |cs| && |Encode(cs[..k])| <= capacity
    ensures k <= n <= |cs| && |Encode(cs[..n])| <= capacity
    ensures n < |cs| ==> |Encode(cs[..n + 1])| > capacity
    decreases |cs| - k
  {
    if k < |cs| && |Encode(cs[..k + 1])| <= capacity then Fitting(cs, capacity, k + 1) else k
  }

  /** For every text and every capacity, what is copied is exactly the longest
      run of whole characters that fits: it is UTF-8 itself, and when anything
      is cut off, fewer than four bytes of the capacity go unused. */
  lemma TruncatedIsLongestRun(cs: seq<Scalar>, capacity: nat)
    ensures
      var n, kept := Fitting(cs, capacity, 0), Truncated(Encode(cs), capacity);
      && kept == Encode(cs[..n]) && IsUtf8(kept)
      && (n < |cs| ==> capacity - 3 <= |kept|)
      && (n == |cs| ==> kept == Encode(cs))
  {
    var text, n := Encode(cs), Fitting(cs, capacity, 0);
    var limit := if |text| < capacity then |text| else capacity;
    var cut := BoundaryBefore(text, limit);
    StartsAreBoundaries(cs, n);
    if n < |cs| {
      OneMoreCharacter(cs, n);
      StartsAreBoundaries(cs, n + 1);
      assert limit == capacity;
      if cut > |Encode(cs[..n])| {
        InsideIsNoBoundary(cs, n, cut);
      }
    } else {
      assert cs[..n] == cs;
    }
    assert cut == |Encode(cs[..n])|;
  }
}
