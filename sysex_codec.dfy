/**
 * The 7-bit packing that the RD-8 applies to every payload it exchanges over
 * System Exclusive.  A packed stream is a run of groups; each group is one mask
 * byte followed by up to seven payload bytes with their top bit cleared, and
 * bit i of the mask holds bit 7 of the i-th payload byte of its group.
 *
 * Escape and Unescape are the reference definitions, group by group;
 * EscapeSysex and UnescapeSysex are the index-driven loops of RD8DataFile,
 * proved to compute them.
 */
module SysexCodec {

  function Min(a: int, b: int): int { if a < b then a else b }

  /** The single bit at position i. */
  function Bit(i: nat): bv8
    requires i < 8
  {
    (1 as bv8) << i
  }

  /** Bit 7 of byte b moved down to bit position i, the packer's contribution of b to its mask byte. */
  function HighBitTo(b: bv8, i: nat): bv8
    requires i < 7
  {
    (b & 0x80) >> (7 - i)
  }

  /** The mask byte for a group of at most seven bytes, accumulated byte by byte as the packer does. */
  function MaskOf(g: seq<bv8>): bv8
    requires |g| <= 7
  {
    if g == [] then 0
    else MaskOf(g[..|g| - 1]) | HighBitTo(g[|g| - 1], |g| - 1)
  }

  /** The payload bytes of a group with their top bit cleared. */
  function Low7(g: seq<bv8>): seq<bv8>
  {
    seq(|g|, i requires 0 <= i < |g| => g[i] & 0x7F)
  }

  /** Payload byte b at position i of its group, with mask bit i put back into bit 7. */
  function UnmaskByte(mask: bv8, b: bv8, i: nat): bv8
    requires i < 7
  {
    b | ((mask & Bit(i)) << (7 - i))
  }

  /** The decoded bytes of one group: only as many as there are payload bytes. */
  function Unmask(mask: bv8, d: seq<bv8>): seq<bv8>
    requires |d| <= 7
  {
    seq(|d|, i requires 0 <= i < |d| => UnmaskByte(mask, d[i], i))
  }

  /** Packing: groups of seven decoded bytes, each led by its mask byte. */
  function Escape(s: seq<bv8>): seq<bv8>
    decreases |s|
  {
    if s == [] then []
    else
      var k := Min(7, |s|);
      [MaskOf(s[..k])] + Low7(s[..k]) + Escape(s[k..])
  }

  /** Unpacking: chunks of up to eight packed bytes, the first of each the mask. */
  function Unescape(s: seq<bv8>): seq<bv8>
    decreases |s|
  {
    if s == [] then []
    else
      var k := Min(8, |s|);
      Unmask(s[0], s[1..k]) + Unescape(s[k..])
  }

  /** A group of packed bytes that a packer could have produced: 7-bit payload, mask bits only for present bytes. */
  predicate GroupOk(mask: bv8, d: seq<bv8>)
  {
    1 <= |d| <= 7 && mask < Bit(|d|) && forall i :: 0 <= i < |d| ==> d[i] < 0x80
  }

  /** A packed stream: full groups of eight bytes and possibly a shorter last group, each carrying at least one payload byte. */
  predicate WellFormed(e: seq<bv8>)
    decreases |e|
  {
    e == [] || (var k := Min(8, |e|); GroupOk(e[0], e[1..k]) && WellFormed(e[k..]))
  }

  // ----- Bit-level facts about one group -----

  /** Bit i of the mask is bit 7 of the i-th byte of the group, and zero past the group. */
  lemma {:induction false} MaskBit(g: seq<bv8>, i: nat)
    requires |g| <= 7 && i < 8
    ensures MaskOf(g) & Bit(i) == if i < |g| then (g[i] & 0x80) >> (7 - i) else 0
  {
    if g != [] {
      var n := |g| - 1;
      MaskBit(g[..n], i);
      OrBit(MaskOf(g[..n]), HighBitTo(g[n], n), i);
      HighBitOnly(g[n], n, i);
    }
  }

  /** Bit i of a disjunction is the disjunction of the bits. */
  lemma OrBit(x: bv8, y: bv8, i: nat)
    requires i < 8
    ensures (x | y) & Bit(i) == (x & Bit(i)) | (y & Bit(i))
  {
  }

  /** The moved top bit sits at position j and nowhere else. */
  lemma HighBitOnly(b: bv8, j: nat, i: nat)
    requires j < 7 && i < 8
    ensures HighBitTo(b, j) & Bit(i) == if i == j then HighBitTo(b, j) else 0
  {
  }

  /** The mask of a group of n bytes uses only the low n bits. */
  lemma {:induction false} MaskBound(g: seq<bv8>)
    requires |g| <= 7
    ensures MaskOf(g) < Bit(|g|)
  {
    if g != [] {
      MaskBound(g[..|g| - 1]);
    }
  }

  /** Two bytes that agree on every bit are equal. */
  lemma BitsDetermineByte(x: bv8, y: bv8)
    requires forall i :: 0 <= i < 8 ==> x & Bit(i) == y & Bit(i)
    ensures x == y
  {
    assert x & Bit(0) == y & Bit(0);
    assert x & Bit(1) == y & Bit(1);
    assert x & Bit(2) == y & Bit(2);
    assert x & Bit(3) == y & Bit(3);
    assert x & Bit(4) == y & Bit(4);
    assert x & Bit(5) == y & Bit(5);
    assert x & Bit(6) == y & Bit(6);
    assert x & Bit(7) == y & Bit(7);
  }

  /** A byte is its low seven bits with its top bit moved down to position i and back. */
  lemma HighBitRestore(b: bv8, i: nat)
    requires i < 7
    ensures (b & 0x7F) | (((b & 0x80) >> (7 - i)) << (7 - i)) == b
  {
  }

  /** Unmasking a 7-bit byte puts exactly mask bit i into bit 7 and keeps the low bits. */
  lemma HighBitTake(d: bv8, mask: bv8, i: nat)
    requires i < 7 && d < 0x80
    ensures (UnmaskByte(mask, d, i) & 0x80) >> (7 - i) == mask & Bit(i)
    ensures UnmaskByte(mask, d, i) & 0x7F == d
  {
  }

  /** Unpacking one packed group gives the group back. */
  lemma UnmaskOfPacked(g: seq<bv8>)
    requires 1 <= |g| <= 7
    ensures Unmask(MaskOf(g), Low7(g)) == g
  {
    forall i | 0 <= i < |g|
      ensures Unmask(MaskOf(g), Low7(g))[i] == g[i]
    {
      MaskBit(g, i);
      HighBitRestore(g[i], i);
    }
  }

  /** Packing one unpacked group gives the packed group back. */
  lemma PackOfUnmasked(mask: bv8, d: seq<bv8>)
    requires GroupOk(mask, d)
    ensures MaskOf(Unmask(mask, d)) == mask
    ensures Low7(Unmask(mask, d)) == d
  {
    MaskOfUnmasked(mask, d);
    Low7OfUnmasked(mask, d);
  }

  lemma MaskOfUnmasked(mask: bv8, d: seq<bv8>)
    requires GroupOk(mask, d)
    ensures MaskOf(Unmask(mask, d)) == mask
  {
    var g := Unmask(mask, d);
    forall i | 0 <= i < 8
      ensures MaskOf(g) & Bit(i) == mask & Bit(i)
    {
      MaskBit(g, i);
      if i < |d| {
        HighBitTake(d[i], mask, i);
      } else {
        NoBitsPastBound(mask, |d|, i);
      }
    }
    BitsDetermineByte(MaskOf(g), mask);
  }

  lemma Low7OfUnmasked(mask: bv8, d: seq<bv8>)
    requires GroupOk(mask, d)
    ensures Low7(Unmask(mask, d)) == d
  {
    forall i | 0 <= i < |d|
      ensures Low7(Unmask(mask, d))[i] == d[i]
    {
      HighBitTake(d[i], mask, i);
    }
  }

  /** A byte below 2^n has no bit at position n or above. */
  lemma NoBitsPastBound(x: bv8, n: nat, i: nat)
    requires n <= i < 8 && x < Bit(n)
    ensures x & Bit(i) == 0
  {
  }

  /** Unmasking one more payload byte of the group starting at `from`. */
  lemma UnmaskExtend(mask: bv8, s: seq<bv8>, from: nat, to: nat)
    requires from <= to < |s| && to - from < 7
    ensures Unmask(mask, s[from .. to + 1]) == Unmask(mask, s[from .. to]) + [UnmaskByte(mask, s[to], to - from)]
  {
  }

  lemma Low7Snoc(g: seq<bv8>, x: bv8)
    ensures Low7(g + [x]) == Low7(g) + [x & 0x7F]
  {
  }

  lemma MaskSnoc(g: seq<bv8>, x: bv8)
    requires |g| < 7
    ensures MaskOf(g + [x]) == MaskOf(g) | HighBitTo(x, |g|)
  {
    assert (g + [x])[..|g|] == g;
  }

  /** Unpacking from a chunk boundary: the chunk's bytes, then the rest. */
  lemma UnescapeFrom(s: seq<bv8>, start: nat)
    requires start < |s|
    ensures Unescape(s[start..]) == Unmask(s[start], s[start + 1 .. Min(start + 8, |s|)]) + Unescape(s[Min(start + 8, |s|)..])
  {
    var t := s[start..];
    var k := Min(8, |t|);
    assert t[1..k] == s[start + 1 .. Min(start + 8, |s|)];
    assert t[k..] == s[Min(start + 8, |s|)..];
  }

  /** Packing from a group boundary: the group's mask and bytes, then the rest. */
  lemma EscapeFrom(s: seq<bv8>, start: nat)
    requires start < |s|
    ensures Escape(s[start..]) == [MaskOf(s[start .. Min(start + 7, |s|)])] + Low7(s[start .. Min(start + 7, |s|)]) + Escape(s[Min(start + 7, |s|)..])
  {
    var t := s[start..];
    var k := Min(7, |t|);
    assert t[..k] == s[start .. Min(start + 7, |s|)];
    assert t[k..] == s[Min(start + 7, |s|)..];
  }

  // ----- Properties of the reference definitions -----

  /** Packing a full group (or the last, shorter one) followed by the rest. */
  lemma EscapeCons(g: seq<bv8>, rest: seq<bv8>)
    requires 1 <= |g| <= 7 && (|g| == 7 || rest == [])
    ensures Escape(g + rest) == [MaskOf(g)] + Low7(g) + Escape(rest)
  {
    var x := g + rest;
    assert x[..Min(7, |x|)] == g;
    assert x[Min(7, |x|)..] == rest;
  }

  /** Unpacking a full chunk (or the last, shorter one) followed by the rest. */
  lemma UnescapeCons(mask: bv8, d: seq<bv8>, rest: seq<bv8>)
    requires |d| <= 7 && (|d| == 7 || rest == [])
    ensures Unescape([mask] + d + rest) == Unmask(mask, d) + Unescape(rest)
  {
    var x := [mask] + d + rest;
    assert x[0] == mask;
    assert x[1..Min(8, |x|)] == d;
    assert x[Min(8, |x|)..] == rest;
  }

  /** Unpacking undoes packing, for every byte sequence. */
  lemma {:induction false} UnescapeEscape(x: seq<bv8>)
    ensures Unescape(Escape(x)) == x
  {
    if x != [] {
      var k := Min(7, |x|);
      var g := x[..k];
      var rest := x[k..];
      assert x == g + rest;
      EscapeCons(g, rest);
      UnescapeCons(MaskOf(g), Low7(g), Escape(rest));
      UnmaskOfPacked(g);
      UnescapeEscape(rest);
    }
  }

  /** Packing undoes unpacking on every well-formed packed stream. */
  lemma {:induction false} EscapeUnescape(e: seq<bv8>)
    requires WellFormed(e)
    ensures Escape(Unescape(e)) == e
  {
    if e != [] {
      var k := Min(8, |e|);
      var d := e[1..k];
      var rest := e[k..];
      assert e == [e[0]] + d + rest;
      UnescapeCons(e[0], d, rest);
      var g := Unmask(e[0], d);
      PackOfUnmasked(e[0], d);
      EscapeUnescape(rest);
      EscapeCons(g, Unescape(rest));
    }
  }

  /** Packing n bytes adds one mask byte per group of seven: n + ceil(n/7) bytes in all. */
  lemma {:induction false} EscapeLength(x: seq<bv8>)
    ensures |Escape(x)| == |x| + (|x| + 6) / 7
  {
    if x != [] {
      EscapeLength(x[Min(7, |x|)..]);
    }
  }

  /** Unpacking n bytes drops one mask byte per chunk of eight: n - ceil(n/8) bytes in all. */
  lemma {:induction false} UnescapeLength(e: seq<bv8>)
    ensures |Unescape(e)| == |e| - (|e| + 7) / 8
  {
    if e != [] {
      UnescapeLength(e[Min(8, |e|)..]);
    }
  }

  /** The packer's output is a well-formed packed stream, so every byte of it is below 0x80. */
  lemma {:induction false} EscapeWellFormed(x: seq<bv8>)
    ensures WellFormed(Escape(x))
    ensures forall i :: 0 <= i < |Escape(x)| ==> Escape(x)[i] < 0x80
  {
    if x != [] {
      var k := Min(7, |x|);
      var g := x[..k];
      var rest := x[k..];
      assert x == g + rest;
      EscapeCons(g, rest);
      EscapeWellFormed(rest);
      MaskBound(g);
      var e := [MaskOf(g)] + Low7(g) + Escape(rest);
      assert e[1..Min(8, |e|)] == Low7(g);
      assert e[Min(8, |e|)..] == Escape(rest);
    }
    WellFormedIsSevenBit(Escape(x));
  }

  /** Well-formed packed streams have only 7-bit bytes. */
  lemma {:induction false} WellFormedIsSevenBit(e: seq<bv8>)
    requires WellFormed(e)
    ensures forall i :: 0 <= i < |e| ==> e[i] < 0x80
  {
    if e != [] {
      var k := Min(8, |e|);
      WellFormedIsSevenBit(e[k..]);
      forall i | 0 <= i < |e|
        ensures e[i] < 0x80
      {
        if i >= k {
          assert e[i] == e[k..][i - k];
        } else if i > 0 {
          assert e[i] == e[1..k][i - 1];
        }
      }
    }
  }

  // ----- The loops of RD8DataFile -----

  /** The unpacked bytes of the chunks starting at index `from`, which may lie past the end. */
  function UnescapeAt(s: seq<bv8>, from: nat): seq<bv8>
    decreases |s| - from
  {
    if from >= |s| then []
    else Unmask(s[from], s[from + 1 .. Min(from + 8, |s|)]) + UnescapeAt(s, from + 8)
  }

  lemma {:induction false} UnescapeAtSuffix(s: seq<bv8>, from: nat)
    ensures UnescapeAt(s, from) == if from <= |s| then Unescape(s[from..]) else []
    decreases |s| - from
  {
    if from < |s| {
      UnescapeAtSuffix(s, from + 8);
      UnescapeFrom(s, from);
      if from + 8 > |s| {
        assert s[Min(from + 8, |s|)..] == [];
      }
    }
  }

  /** unescapeSysex: reads a mask byte, then up to seven payload bytes, until the input is used up. */
  method UnescapeSysex(input: seq<bv8>) returns (result: seq<bv8>)
    ensures result == Unescape(input)
  {
    result := [];
    var dataIndex := 0;
    while dataIndex < |input|
      invariant result + UnescapeAt(input, dataIndex) == UnescapeAt(input, 0)
    {
      ghost var maskIndex := dataIndex;
      var group;
      group, dataIndex := UnpackGroup(input, dataIndex);
      UnescapeAtStep(input, maskIndex, result, group);
      result := result + group;
    }
    UnescapeAtWhole(input);
  }

  lemma UnescapeAtStep(s: seq<bv8>, from: nat, before: seq<bv8>, group: seq<bv8>)
    requires from < |s| && group == Unmask(s[from], s[from + 1 .. Min(from + 8, |s|)])
    ensures before + group + UnescapeAt(s, from + 8) == before + UnescapeAt(s, from)
  {
    assert UnescapeAt(s, from) == group + UnescapeAt(s, from + 8);
  }

  lemma UnescapeAtWhole(s: seq<bv8>)
    ensures UnescapeAt(s, 0) == Unescape(s)
  {
    UnescapeAtSuffix(s, 0);
    assert s[0..] == s;
  }

  /** The body of unescapeSysex's outer loop: the mask byte at `maskIndex` and the up to seven bytes after it. */
  method UnpackGroup(input: seq<bv8>, maskIndex: nat) returns (group: seq<bv8>, dataIndex: nat)
    requires maskIndex < |input|
    ensures group == Unmask(input[maskIndex], input[maskIndex + 1 .. Min(maskIndex + 8, |input|)])
    ensures dataIndex == maskIndex + 8
  {
    var msBits := input[maskIndex];
    group := [];
    dataIndex := maskIndex + 1;
    for i := 0 to 7
      invariant dataIndex == maskIndex + 1 + i
      invariant group == Unmask(msBits, input[maskIndex + 1 .. Min(dataIndex, |input|)])
    {
      if dataIndex < |input| {
        UnmaskExtend(msBits, input, maskIndex + 1, dataIndex);
        group := group + [UnmaskByte(msBits, input[dataIndex], i)];
      }
      dataIndex := dataIndex + 1;
    }
  }

  /** The packed group of the up to seven bytes starting at index `from`. */
  function GroupAt(s: seq<bv8>, from: nat): seq<bv8>
    requires from < |s|
  {
    var g := s[from .. Min(from + 7, |s|)];
    [MaskOf(g)] + Low7(g)
  }

  /** The packed groups of the bytes from index `from` on, which may lie past the end. */
  function EscapeAt(s: seq<bv8>, from: nat): seq<bv8>
    decreases |s| - from
  {
    if from >= |s| then [] else GroupAt(s, from) + EscapeAt(s, from + 7)
  }

  lemma {:induction false} EscapeAtSuffix(s: seq<bv8>, from: nat)
    ensures EscapeAt(s, from) == if from <= |s| then Escape(s[from..]) else []
    decreases |s| - from
  {
    if from < |s| {
      EscapeAtSuffix(s, from + 7);
      EscapeFrom(s, from);
      if from + 7 > |s| {
        assert s[Min(from + 7, |s|)..] == [];
      }
    }
  }

  /** escapeSysex: packs seven input bytes at a time until the input is used up. */
  method EscapeSysex(input: seq<bv8>) returns (result: seq<bv8>)
    ensures result == Escape(input)
  {
    result := [];
    var readIndex := 0;
    while readIndex < |input|
      invariant result + EscapeAt(input, readIndex) == EscapeAt(input, 0)
    {
      ghost var start := readIndex;
      ghost var before := result;
      result, readIndex := PackGroup(input, readIndex, result);
      EscapeAtStep(input, start, before, result);
    }
    EscapeAtWhole(input);
  }

  lemma EscapeAtStep(s: seq<bv8>, from: nat, before: seq<bv8>, after: seq<bv8>)
    requires from < |s| && after == before + GroupAt(s, from)
    ensures after + EscapeAt(s, from + 7) == before + EscapeAt(s, from)
  {
    assert EscapeAt(s, from) == GroupAt(s, from) + EscapeAt(s, from + 7);
  }

  lemma EscapeAtWhole(s: seq<bv8>)
    ensures EscapeAt(s, 0) == Escape(s)
  {
    EscapeAtSuffix(s, 0);
    assert s[0..] == s;
  }

  /**
   * The body of escapeSysex's outer loop: appends a placeholder mask byte and
   * the up to seven 7-bit bytes from `start`, then writes the mask over the placeholder.
   */
  method PackGroup(input: seq<bv8>, start: nat, prefix: seq<bv8>) returns (result: seq<bv8>, readIndex: nat)
    requires start < |input|
    ensures result == prefix + GroupAt(input, start)
    ensures readIndex == start + 7
  {
    result := prefix + [0];
    var msbIndex := |result| - 1;
    var msb: bv8 := 0;
    readIndex := start;
    ghost var taken: seq<bv8> := [];
    for i := 0 to 7
      invariant readIndex == start + i
      invariant taken == input[start .. Min(readIndex, |input|)] && |taken| <= i
      invariant msb == MaskOf(taken)
      invariant result == prefix + [0] + Low7(taken)
    {
      if readIndex < |input| {
        assert |taken| == i;
        SliceSnoc(input, start, readIndex);
        MaskSnoc(taken, input[readIndex]);
        PushLow7(prefix, taken, input[readIndex]);
        result := result + [input[readIndex] & 0x7F];
        msb := msb | HighBitTo(input[readIndex], i);
        taken := taken + [input[readIndex]];
      }
      readIndex := readIndex + 1;
    }
    PatchMask(prefix, Low7(taken), msb);
    result := result[msbIndex := msb];
  }

  lemma SliceSnoc(s: seq<bv8>, from: nat, to: nat)
    requires from <= to < |s|
    ensures s[from .. to + 1] == s[from .. to] + [s[to]]
  {
  }

  /** One more 7-bit byte appended after the placeholder and the bytes so far. */
  lemma PushLow7(prefix: seq<bv8>, taken: seq<bv8>, x: bv8)
    ensures prefix + [0] + Low7(taken) + [x & 0x7F] == prefix + [0] + Low7(taken + [x])
  {
    Low7Snoc(taken, x);
  }

  /** Writing the mask over the placeholder. */
  lemma PatchMask(prefix: seq<bv8>, low: seq<bv8>, mask: bv8)
    ensures (prefix + [0] + low)[|prefix| := mask] == prefix + [mask] + low
  {
  }
}
