// Fixed-width integers as bytes, least or most significant byte first.

module Bytes {
  import opened Outcomes

  type byte = x: int | 0 <= x < 256

  function Power256(width: nat): (p: nat)
    ensures p > 0
  {
    if width == 0 then 1 else 256 * Power256(width - 1)
  }

  lemma {:induction false} PowersOf256()
    ensures Power256(1) == 0x100
    ensures Power256(2) == 0x1_0000
    ensures Power256(4) == 0x1_0000_0000
    ensures Power256(8) == 0x1_0000_0000_0000_0000
  {
    assert Power256(0) == 1;
    assert Power256(1) == 256 * Power256(0);
    assert Power256(2) == 256 * Power256(1);
    assert Power256(3) == 256 * Power256(2);
    assert Power256(4) == 256 * Power256(3);
    assert Power256(5) == 256 * Power256(4);
    assert Power256(6) == 256 * Power256(5);
    assert Power256(7) == 256 * Power256(6);
    assert Power256(8) == 256 * Power256(7);
  }

  function LittleEndian(n: nat, width: nat): (s: seq<byte>)
    ensures |s| == width
  {
    if width == 0 then [] else [n % 256] + LittleEndian(n / 256, width - 1)
  }

  function FromLittleEndian(s: seq<byte>): (n: nat)
  {
    if s == [] then 0 else s[0] + 256 * FromLittleEndian(s[1..])
  }

  // The value survives the trip through bytes exactly when the width can hold it.
  lemma {:induction false} LittleEndianReadsBack(n: nat, width: nat)
    ensures FromLittleEndian(LittleEndian(n, width)) == n % Power256(width)
    ensures n < Power256(width) <==> FromLittleEndian(LittleEndian(n, width)) == n
  {
    if width == 0 {
    } else {
      LittleEndianReadsBack(n / 256, width - 1);
      var p := Power256(width - 1);
      SplitModulus(n, p);
      assert LittleEndian(n, width)[1..] == LittleEndian(n / 256, width - 1);
    }
  }

  lemma {:induction false} SplitModulus(n: nat, p: nat)
    requires p > 0
    ensures n % 256 + 256 * (n / 256 % p) == n % (256 * p)
  {
    var high, low := n / 256, n % 256;
    var q, r := high / p, high % p;
    assert n == (256 * p) * q + (low + 256 * r) by {
      assert high == p * q + r;
    }
    QuotientIsUnique(n, 256 * p, q, low + 256 * r);
  }

  lemma {:induction false} AtLeastOneMultiple(d: nat, k: int)
    requires k >= 1
    ensures d * k >= d
  {
    assert d * k == d * (k - 1) + d;
  }

  lemma {:induction false} QuotientIsUnique(n: int, d: nat, q: int, r: int)
    requires d > 0 && 0 <= r < d
    requires n == d * q + r
    ensures n / d == q && n % d == r
  {
    var q', r' := n / d, n % d;
    var gap := q - q';
    assert d * gap == r' - r by {
      assert n == d * q' + r';
      assert d * gap == d * q - d * q';
    }
    if gap > 0 {
      AtLeastOneMultiple(d, gap);
      assert false;
    } else if gap < 0 {
      assert d * (-gap) == -(d * gap);
      AtLeastOneMultiple(d, -gap);
      assert false;
    }
  }

  // Every byte string of the width is the encoding of the number it reads as.
  lemma {:induction false} LittleEndianWritesBack(s: seq<byte>)
    ensures FromLittleEndian(s) < Power256(|s|)
    ensures LittleEndian(FromLittleEndian(s), |s|) == s
  {
    if s == [] {
    } else {
      LittleEndianWritesBack(s[1..]);
      var n := FromLittleEndian(s);
      assert n % 256 == s[0] && n / 256 == FromLittleEndian(s[1..]);
      assert s == [s[0]] + s[1..];
    }
  }

  function BigEndian(n: nat, width: nat): (s: seq<byte>)
    ensures |s| == width
  {
    if width == 0 then [] else BigEndian(n / 256, width - 1) + [n % 256]
  }

  function FromBigEndian(s: seq<byte>): (n: nat)
  {
    if s == [] then 0 else 256 * FromBigEndian(s[..|s| - 1]) + s[|s| - 1]
  }

  lemma {:induction false} BigEndianReadsBack(n: nat, width: nat)
    requires n < Power256(width)
    ensures FromBigEndian(BigEndian(n, width)) == n
  {
    if width == 0 {
    } else {
      BigEndianReadsBack(n / 256, width - 1);
      assert BigEndian(n, width)[..width - 1] == BigEndian(n / 256, width - 1);
    }
  }

  // ---- Pieces of a byte string.

  // piece stands in bytes at position at.
  predicate Holds(bytes: seq<byte>, at: nat, piece: seq<byte>) {
    at + |piece| <= |bytes| && bytes[at..at + |piece|] == piece
  }

  lemma {:induction false} HoldsSplit(bytes: seq<byte>, at: nat, a: seq<byte>, b: seq<byte>)
    ensures Holds(bytes, at, a + b) <==> Holds(bytes, at, a) && Holds(bytes, at + |a|, b)
  {
    if at + |a| + |b| <= |bytes| {
      var window := bytes[at..at + |a| + |b|];
      assert window[..|a|] == bytes[at..at + |a|] && window[|a|..] == bytes[at + |a|..at + |a| + |b|];
      assert window == bytes[at..at + |a|] + bytes[at + |a|..at + |a| + |b|];
      assert (a + b)[..|a|] == a && (a + b)[|a|..] == b;
    }
  }

  lemma {:induction false} HoldsAll(bytes: seq<byte>, piece: seq<byte>)
    requires |piece| == |bytes|
    ensures Holds(bytes, 0, piece) <==> bytes == piece
  {
    assert bytes[0..|piece|] == bytes;
  }

  // An unsigned little-endian field: None past the end.
  function Field(bytes: seq<byte>, at: nat, width: nat): Option<nat> {
    if at + width <= |bytes| then Some(FromLittleEndian(bytes[at..at + width])) else None
  }

  // A field reads as n exactly where the bytes of n stand.
  lemma {:induction false} FieldIsItsBytes(bytes: seq<byte>, at: nat, width: nat, n: nat)
    ensures Field(bytes, at, width) == Some(n) <==> n < Power256(width) && Holds(bytes, at, LittleEndian(n, width))
  {
    if at + width <= |bytes| {
      LittleEndianWritesBack(bytes[at..at + width]);
    }
    if n < Power256(width) {
      LittleEndianReadsBack(n, width);
    }
  }

  function Concat(pieces: seq<seq<byte>>): seq<byte> {
    if pieces == [] then [] else Concat(pieces[..|pieces| - 1]) + pieces[|pieces| - 1]
  }

  lemma {:induction false} ConcatOneMore(pieces: seq<seq<byte>>, piece: seq<byte>)
    ensures Concat(pieces + [piece]) == Concat(pieces) + piece
  {
    assert (pieces + [piece])[..|pieces|] == pieces;
  }

  lemma {:induction false} ConcatSplit(pieces: seq<seq<byte>>, n: nat)
    requires n <= |pieces|
    ensures Concat(pieces) == Concat(pieces[..n]) + Concat(pieces[n..])
    decreases |pieces|
  {
    var last := |pieces| - 1;
    if n == |pieces| {
      assert pieces[..n] == pieces && pieces[n..] == [];
    } else {
      ConcatSplit(pieces[..last], n);
      assert pieces[..last][..n] == pieces[..n];
      assert pieces[n..][..last - n] == pieces[..last][n..];
    }
  }

  // A piece stands right after the pieces before it.
  lemma {:induction false} PieceStands(bytes: seq<byte>, at: nat, pieces: seq<seq<byte>>, n: nat)
    requires Holds(bytes, at, Concat(pieces)) && n < |pieces|
    ensures Holds(bytes, at + |Concat(pieces[..n])|, pieces[n])
    ensures Concat(pieces[..n + 1]) == Concat(pieces[..n]) + pieces[n]
    ensures |Concat(pieces)| == |Concat(pieces[..n + 1])| + |Concat(pieces[n + 1..])|
  {
    ConcatSplit(pieces, n + 1);
    assert pieces[..n + 1] == pieces[..n] + [pieces[n]];
    ConcatOneMore(pieces[..n], pieces[n]);
    HoldsSplit(bytes, at, Concat(pieces[..n + 1]), Concat(pieces[n + 1..]));
    HoldsSplit(bytes, at, Concat(pieces[..n]), pieces[n]);
  }

  lemma {:induction false} ConcatAtLeast(pieces: seq<seq<byte>>, least: nat)
    requires forall k :: 0 <= k < |pieces| ==> |pieces[k]| >= least
    ensures |Concat(pieces)| >= least * |pieces|
  {
    if pieces != [] {
      ConcatAtLeast(pieces[..|pieces| - 1], least);
      assert least * |pieces| == least * (|pieces| - 1) + least;
    }
  }
}
