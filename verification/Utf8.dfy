/** Strings as the byte sequences Rust keeps them in, with the character boundaries that
    truncation has to respect (driver/src/bson_util.rs:318-341). */
module Utf8 {

  type Byte = x: int | 0 <= x < 256

  type Bytes = seq<Byte>

  predicate Continuation(b: Byte) { 0x80 <= b < 0xC0 }

  /** Bytes in the character that starts with `b`. */
  function Width(b: Byte): (w: nat)
    ensures 1 <= w <= 4
  {
    if b < 0x80 then 1 else if b < 0xE0 then 2 else if b < 0xF0 then 3 else 4
  }

  /** A sequence of whole characters. */
  predicate WellFormed(s: Bytes)
    decreases |s|
  {
    s != [] ==>
      var w := Width(s[0]);
      && !Continuation(s[0])
      && w <= |s|
      && (forall i | 1 <= i < w :: Continuation(s[i]))
      && WellFormed(s[w..])
  }

  type Text = s: Bytes | WellFormed(s) witness []

  predicate Boundary(s: Bytes, i: nat) { i == 0 || i == |s| || (i < |s| && !Continuation(s[i])) }

  /** The first character boundary at or after `n`. */
  function Ceiling(s: Bytes, n: nat): (i: nat)
    requires n <= |s|
    ensures n <= i <= |s| && Boundary(s, i)
    ensures forall j | n <= j < i :: !Boundary(s, j)
    decreases |s| - n
  {
    if Boundary(s, n) then n else Ceiling(s, n + 1)
  }

  lemma {:induction false} ConcatWellFormed(s: Bytes, t: Bytes)
    requires WellFormed(s) && WellFormed(t)
    ensures WellFormed(s + t)
    decreases |s|
  {
    if s == [] {
      assert s + t == t;
    } else {
      var w := Width(s[0]);
      ConcatWellFormed(s[w..], t);
      assert (s + t)[w..] == s[w..] + t;
    }
  }

  /** Cutting at a boundary leaves whole characters on both sides. */
  lemma {:induction false} CutWellFormed(s: Bytes, i: nat)
    requires WellFormed(s) && i <= |s| && Boundary(s, i)
    ensures WellFormed(s[..i]) && WellFormed(s[i..])
    decreases |s|
  {
    if i > 0 {
      var w := Width(s[0]);
      assert i >= w;
      CutWellFormed(s[w..], i - w);
      assert s[..i][w..] == s[w..][..i - w];
      assert s[w..][i - w..] == s[i..];
    }
  }

  /** A character has at most four bytes, so rounding up adds at most three. */
  lemma {:induction false} CeilingIsNear(s: Bytes, n: nat)
    requires WellFormed(s) && n <= |s|
    ensures Ceiling(s, n) <= n + 3
    decreases |s|
  {
    if n > 0 {
      var w := Width(s[0]);
      if n < w {
        assert Boundary(s, w) by {
          assert WellFormed(s[w..]);
          assert w < |s| ==> s[w..][0] == s[w];
        }
      } else {
        CeilingIsNear(s[w..], n - w);
        var i := Ceiling(s[w..], n - w);
        assert Boundary(s, i + w) by {
          assert i + w < |s| ==> s[w..][i] == s[i + w];
          assert s[w..] != [] ==> s[w..][0] == s[w];
        }
      }
    }
  }

  /** Boundaries do not move when whole characters are put around a string. */
  lemma CeilingOfMiddle(before: Text, s: Text, rest: Text, n: nat)
    requires n <= |s|
    ensures Ceiling(before + s + rest, |before| + n) == |before| + Ceiling(s, n)
  {
    var whole := before + s + rest;
    var i := Ceiling(s, n);
    assert forall j | n <= j < i :: whole[|before| + j] == s[j];
    if i < |s| {
      assert whole[|before| + i] == s[i];
    } else if rest != [] {
      assert whole[|before| + i] == rest[0];
    }
    assert Boundary(whole, |before| + i);
    assert forall j | |before| + n <= j < |before| + i :: !Boundary(whole, j) by {
      forall j | |before| + n <= j < |before| + i
        ensures !Boundary(whole, j)
      {
        assert !Boundary(s, j - |before|);
        assert whole[j] == s[j - |before|];
      }
    }
  }

  /** Cuts `s` at the first boundary at or after `newLength`; says whether anything was cut off. */
  method TruncateOnCharBoundary(s: Text, newLength: nat) returns (r: Text, cut: bool)
    ensures r == if newLength >= |s| then s else s[..Ceiling(s, newLength)]
    ensures cut <==> |r| < |s|
  {
    if newLength >= |s| {
      return s, false;
    }
    var index := newLength;
    while !Boundary(s, index)
      invariant newLength <= index <= |s|
      invariant Ceiling(s, index) == Ceiling(s, newLength)
      decreases |s| - index
    {
      index := index + 1;
    }
    CutWellFormed(s, index);
    return s[..index], index < |s|;
  }
}
