/** The bitmap of src/lib/bitmap.c. */
module Bitmap {

  type Byte = bv8

  /** BITMAP_MASK << i, cut to a byte. */
  function Mask(i: nat): Byte
    requires i < 8
  {
    if i == 0 then 0x01 else if i == 1 then 0x02 else if i == 2 then 0x04 else if i == 3 then 0x08
    else if i == 4 then 0x10 else if i == 5 then 0x20 else if i == 6 then 0x40 else 0x80
  }

  predicate Bit(b: Byte, i: nat)
    requires i < 8
  {
    b & Mask(i) != 0
  }

  lemma SetOne(b: Byte, i: nat, j: nat)
    requires i < 8 && j < 8
    ensures Bit(b | Mask(i), j) <==> i == j || Bit(b, j)
  {
  }

  lemma ClearOne(b: Byte, i: nat, j: nat)
    requires i < 8 && j < 8
    ensures Bit(b & !Mask(i), j) <==> i != j && Bit(b, j)
  {
  }

  lemma FullByte(b: Byte)
    ensures b == 0xff <==> forall i: nat | i < 8 :: Bit(b, i)
  {
    if forall i: nat | i < 8 :: Bit(b, i) {
      assert Bit(b, 0) && Bit(b, 1) && Bit(b, 2) && Bit(b, 3) && Bit(b, 4) && Bit(b, 5) && Bit(b, 6) && Bit(b, 7);
    }
  }

  /** Bit number k of a sequence of bytes. */
  predicate BitOf(s: seq<Byte>, k: nat)
    requires k < 8 * |s|
  {
    Bit(s[k / 8], k % 8)
  }

  function BitsOf(s: seq<Byte>): (r: seq<bool>)
    ensures |r| == 8 * |s|
    ensures forall k: nat | k < |r| :: r[k] == BitOf(s, k)
  {
    seq(8 * |s|, k requires 0 <= k < 8 * |s| => BitOf(s, k))
  }

  /** cnt clear bits from position i on. */
  predicate RunAt(s: seq<bool>, cnt: nat, i: nat) {
    i + cnt <= |s| && forall k | i <= k < i + cnt :: !s[k]
  }

  /** r is where the first run of cnt clear bits starts, or -1 if there is none. */
  ghost predicate IsFirstRun(s: seq<bool>, cnt: nat, r: int) {
    if r == -1 then forall i: nat :: !RunAt(s, cnt, i)
    else r >= 0 && RunAt(s, cnt, r) && forall i: nat | i < r :: !RunAt(s, cnt, i)
  }

  /** r is one past the first set bit that has a clear bit before it, or -1 if there is none. */
  ghost predicate IsPastClear(s: seq<bool>, r: int) {
    if r == -1 then forall i: nat, k: nat | i < k < |s| :: s[i] || !s[k]
    else
      && 2 <= r <= |s| && s[r - 1] && (exists i: nat :: i < r - 1 && !s[i])
      && forall i: nat, k: nat | i < k < r - 1 :: s[i] || !s[k]
  }

  lemma FirstRunUnique(s: seq<bool>, cnt: nat, a: int, b: int)
    requires IsFirstRun(s, cnt, a) && IsFirstRun(s, cnt, b)
    ensures a == b
  {
  }

  predicate Full(s: seq<bool>) { forall k: nat | k < |s| :: s[k] }

  function SetBits(s: seq<bool>): (n: nat)
    ensures n <= |s|
  {
    if s == [] then 0 else SetBits(s[..|s| - 1]) + if s[|s| - 1] then 1 else 0
  }

  /** Pigeonhole: all bits below the lowest clear one are set, so it is at most the number of set bits. */
  lemma {:induction false} LowestClearBound(s: seq<bool>, r: nat)
    requires r <= |s| && forall k: nat | k < r :: s[k]
    ensures r <= SetBits(s)
  {
    if r < |s| {
      LowestClearBound(s[..|s| - 1], r);
    } else if r > 0 {
      LowestClearBound(s[..r - 1], r - 1);
    }
  }

  /** A bitmap of `len` bytes; the array holds one byte more, which bitmap_scan may look at. */
  class BitMap {
    const len: nat
    const bits: array<Byte>

    ghost predicate Valid()
      reads this
    {
      bits.Length == len + 1 && 8 * len < 0x7fff_ffff
    }

    /** All bits of the map, and those of the byte after it. */
    ghost function Stored(): (s: seq<bool>)
      reads this, bits
      requires Valid()
      ensures |s| == 8 * len + 8
    {
      BitsOf(bits[..])
    }

    ghost function Bits(): (s: seq<bool>)
      reads this, bits
      requires Valid()
      ensures |s| == 8 * len
    {
      Stored()[..8 * len]
    }

    constructor (len: nat)
      requires 8 * len < 0x7fff_ffff
      ensures Valid() && this.len == len && fresh(bits)
      ensures forall k: nat | k < 8 * len :: !Bits()[k]
    {
      this.len := len;
      bits := new Byte[len + 1](_ => 0);
      new;
      Init();
    }

    /** bitmap_init */
    method Init()
      requires Valid()
      modifies bits
      ensures forall k: nat | k < 8 * len :: !Bits()[k]
      ensures bits[len] == old(bits[len])
    {
      for i := 0 to len
        invariant forall k | 0 <= k < i :: bits[k] == 0
        invariant bits[len] == old(bits[len])
      {
        bits[i] := 0;
      }
    }

    /** bitmap_scan_test */
    method ScanTest(idx: nat) returns (r: bool)
      requires Valid() && idx < 8 * len + 8
      ensures r == Stored()[idx]
    {
      var byteIdx, odd := idx / 8, idx % 8;
      r := bits[byteIdx] & Mask(odd) != 0;
    }

    /** bitmap_set */
    method Set(idx: nat, value: bool)
      requires Valid() && idx < 8 * len
      modifies bits
      ensures Bits() == old(Bits())[idx := value]
      ensures bits[len] == old(bits[len])
    {
      hide Mask, BitsOf;
      var byteIdx, odd := idx / 8, idx % 8;
      ghost var was := bits[..];
      if value {
        bits[byteIdx] := bits[byteIdx] | Mask(odd);
      } else {
        bits[byteIdx] := bits[byteIdx] & !Mask(odd);
      }
      SetBitOf(was, bits[..], idx, value);
    }

    /** bitmap_scan: the lowest clear bit for cnt 1; for more, the first run of cnt clear bits in the map
        followed by the one bit after it. -1 if there is none; on a full map the source asserts first. For
        cnt 0 the counting loop stops behind the first set bit after a clear one. */
    method Scan(cnt: nat) returns (r: int)
      requires Valid()
      ensures Full(Bits()) ==> r == -1
      ensures cnt == 1 ==> IsFirstRun(Bits(), 1, r)
      ensures cnt >= 2 && !Full(Bits()) ==> IsFirstRun(Stored()[..8 * len + 1], cnt, r)
      ensures cnt == 0 && !Full(Bits()) ==> IsPastClear(Stored()[..8 * len + 1], r)
    {
      hide BitOf, Bit, Mask, IsFirstRun, IsPastClear;
      var idxByte := 0;
      while bits[idxByte] == 0xff && idxByte < len
        invariant idxByte <= len
        invariant forall k | 0 <= k < idxByte :: bits[k] == 0xff
      {
        idxByte := idxByte + 1;
      }
      if idxByte == len {
        AllFull(bits[..], len);
        assert forall k: nat | k < 8 * len :: Bits()[k] == Stored()[k];
        assert Full(Bits());
        NoClearBit(Bits());
        return -1;
      }
      var idxBit := ScanByte(bits[idxByte]);
      var start := idxByte * 8 + idxBit;
      LowestIs(bits[..], idxByte, idxBit);
      assert forall k: nat | k <= start :: Bits()[k] == Stored()[k];
      LowestIsFirst(Bits(), start);
      if cnt == 1 {
        return start;
      }
      r := ScanRun(cnt, start);
    }

    /** The part of bitmap_scan that looks for more than one bit. */
    method ScanRun(cnt: nat, start: nat) returns (r: int)
      requires Valid() && start < 8 * len && !Bits()[start] && forall k: nat | k < start :: Bits()[k]
      ensures cnt >= 2 ==> IsFirstRun(Stored()[..8 * len + 1], cnt, r)
      ensures cnt == 0 ==> IsPastClear(Stored()[..8 * len + 1], r)
    {
      hide BitsOf, BitOf;
      ghost var s := Stored()[..8 * len + 1];
      assert Bits() == s[..8 * len];
      assert forall k: nat | k <= start :: s[k] == s[..8 * len][k];
      var bitLeft := 8 * len - start;
      var nextBit, count := start + 1, 1;
      SearchStarts(s, cnt, start);
      assert forall k: nat | k < start :: s[k];
      assert !s[start];
      hide Searching, IsFirstRun;
      r := -1;
      while bitLeft > 0
        invariant 0 <= bitLeft && nextBit + bitLeft == 8 * len + 1
        invariant cnt >= 2 ==> Searching(s, cnt, nextBit, count)
        invariant cnt == 0 ==> start < nextBit && count >= 1 && forall k: nat | start <= k < nextBit :: !s[k]
      {
        bitLeft := bitLeft - 1;
        var isSet := ScanTest(nextBit);
        if cnt >= 2 { SearchSteps(s, cnt, nextBit, count); }
        if !isSet {
          count := count + 1;
        } else {
          count := 0;
        }
        if count == cnt {
          r := nextBit - cnt + 1;
          return;
        }
        nextBit := nextBit + 1;
      }
      if cnt >= 2 { SearchEnds(s, cnt, count); }
    }
  }

  /** The lowest clear bit of a byte that has one. */
  method ScanByte(b: Byte) returns (i: nat)
    requires b != 0xff
    ensures i < 8 && !Bit(b, i) && forall k: nat | k < i :: Bit(b, k)
  {
    FullByte(b);
    hide Mask;
    i := 0;
    while Mask(i) & b != 0
      invariant i < 8 && forall k: nat | k < i :: Bit(b, k)
      decreases 8 - i
    {
      assert b & Mask(i) == Mask(i) & b;
      i := i + 1;
    }
    assert b & Mask(i) == Mask(i) & b;
  }

  /** bitmap_scan has looked at the bits before n; the last `count` of them are clear. */
  ghost predicate Searching(s: seq<bool>, cnt: nat, n: nat, count: nat) {
    && count <= n <= |s| && count < cnt
    && (forall k | n - count <= k < n :: !s[k])
    && (count < n ==> s[n - count - 1])
    && (forall i: nat | i + cnt <= n :: !RunAt(s, cnt, i))
  }

  lemma SearchStarts(s: seq<bool>, cnt: nat, start: nat)
    requires start < |s| && !s[start] && forall k: nat | k < start :: s[k]
    ensures cnt >= 2 ==> Searching(s, cnt, start + 1, 1)
  {
    if cnt >= 2 {
      forall i: nat | i + cnt <= start + 1 ensures !RunAt(s, cnt, i) {
        assert s[i];
      }
    }
  }

  lemma SearchSteps(s: seq<bool>, cnt: nat, n: nat, count: nat)
    requires Searching(s, cnt, n, count) && n < |s|
    ensures s[n] ==> Searching(s, cnt, n + 1, 0)
    ensures !s[n] && count + 1 < cnt ==> Searching(s, cnt, n + 1, count + 1)
    ensures !s[n] && count + 1 == cnt ==> n + 1 - cnt >= 0 && IsFirstRun(s, cnt, n + 1 - cnt)
  {
    if s[n] || count + 1 < cnt {
      forall i: nat | i + cnt <= n + 1 ensures !RunAt(s, cnt, i) {
        var p := if s[n] then n else n - count - 1;
        if i + cnt == n + 1 { assert i <= p < i + cnt && s[p]; }
      }
    }
  }

  lemma SearchEnds(s: seq<bool>, cnt: nat, count: nat)
    requires Searching(s, cnt, |s|, count)
    ensures IsFirstRun(s, cnt, -1)
  {
  }

  lemma NoClearBit(s: seq<bool>)
    requires Full(s)
    ensures IsFirstRun(s, 1, -1)
  {
    forall i: nat ensures !RunAt(s, 1, i) {
      if i < |s| { assert s[i]; }
    }
  }

  lemma LowestIsFirst(s: seq<bool>, start: nat)
    requires start < |s| && !s[start] && forall k: nat | k < start :: s[k]
    ensures IsFirstRun(s, 1, start) && !Full(s)
  {
    forall i: nat | i < start ensures !RunAt(s, 1, i) {
      assert s[i];
    }
  }

  lemma SetBitOf(a: seq<Byte>, b: seq<Byte>, idx: nat, value: bool)
    requires |a| == |b| && idx < 8 * |a|
    requires b == a[idx / 8 := if value then a[idx / 8] | Mask(idx % 8) else a[idx / 8] & !Mask(idx % 8)]
    ensures BitsOf(b) == BitsOf(a)[idx := value]
  {
    hide Mask, Bit;
    forall k: nat | k < 8 * |a| ensures BitOf(b, k) == if k == idx then value else BitOf(a, k) {
      if k / 8 == idx / 8 {
        SetOne(a[idx / 8], idx % 8, k % 8);
        ClearOne(a[idx / 8], idx % 8, k % 8);
      }
    }
  }

  lemma AllFull(s: seq<Byte>, n: nat)
    requires n <= |s| && forall k | 0 <= k < n :: s[k] == 0xff
    ensures forall k: nat | k < 8 * n :: BitsOf(s)[k]
  {
    forall k: nat | k < 8 * n ensures BitsOf(s)[k] {
      FullByte(s[k / 8]);
    }
  }

  lemma LowestIs(s: seq<Byte>, i: nat, j: nat)
    requires i < |s| && j < 8 && (forall k | 0 <= k < i :: s[k] == 0xff)
    requires !Bit(s[i], j) && forall k: nat | k < j :: Bit(s[i], k)
    ensures !BitsOf(s)[8 * i + j] && forall k: nat | k < 8 * i + j :: BitsOf(s)[k]
  {
    AllFull(s, i);
    forall k: nat | k < 8 * i + j ensures BitsOf(s)[k] {
      if k >= 8 * i { assert k / 8 == i; }
    }
  }

  /** The source's answer is the right one for the map itself exactly when the bit after the map is set, or
      the map has a run of its own, or it does not end in cnt - 1 clear bits. */
  lemma SentinelNeeded(s: seq<bool>, cnt: nat, r: int, proper: int)
    requires |s| >= 1 && cnt >= 2 && IsFirstRun(s, cnt, r) && IsFirstRun(s[..|s| - 1], cnt, proper)
    ensures r == proper <==> s[|s| - 1] || proper != -1 || !RunAt(s, cnt - 1, if |s| >= cnt then |s| - cnt else |s|)
  {
    var n := |s| - 1;
    var m := s[..n];
    forall i: nat ensures RunAt(m, cnt, i) <==> RunAt(s, cnt, i) && i + cnt <= n {
      if RunAt(s, cnt, i) && i + cnt <= n {
        forall k | i <= k < i + cnt ensures !m[k] { assert m[k] == s[k]; }
      }
      if RunAt(m, cnt, i) {
        forall k | i <= k < i + cnt ensures !s[k] { assert m[k] == s[k]; }
      }
    }
    if |s| >= cnt {
      var e := |s| - cnt;
      assert RunAt(s, cnt, e) <==> RunAt(s, cnt - 1, e) && !s[n];
    }
  }
}
