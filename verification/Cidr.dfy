// Decomposition of inclusive IPv4 ranges into CIDR blocks (section 3.1 of
// RFC 4632), as used for the ranges of a binary MRS rule provider.

module Cidr {
  import opened Types
  import opened Collections

  // Addresses are the numbers 0 .. 2^32 - 1; a block is a start and its number
  // of host bits.
  datatype Block = Block(start: nat, bits: nat) {
    function End(): nat { start + Pow2(bits) }  // exclusive

    predicate Aligned() { bits <= 32 && AlignedTo(start, bits) }

    predicate Covers(x: nat) { start <= x < End() }
  }

  const ADDRESSES := 0x1_0000_0000
  const MAX_ENTRIES := 65536

  function Pow2(n: nat): (p: nat)
    ensures p >= 1
  {
    if n == 0 then 1 else 2 * Pow2(n - 1)
  }

  // The low `bits` bits of x are zero.
  predicate AlignedTo(x: nat, bits: nat) {
    bits == 0 || (x % 2 == 0 && AlignedTo(x / 2, bits - 1))
  }

  // The largest number of host bits, up to `limit`, for which start is aligned.
  function TrailingZeros(start: nat, limit: nat): (t: nat)
    ensures t <= limit
  {
    if limit == 0 || start % 2 != 0 then 0 else 1 + TrailingZeros(start / 2, limit - 1)
  }

  // The position of the highest set bit.
  function FloorLog2(n: nat): nat
    requires n > 0
  {
    if n == 1 then 0 else 1 + FloorLog2(n / 2)
  }

  // ---------------------------------------------------- powers and bits

  lemma {:induction false} Pow2Monotone(a: nat, b: nat)
    requires a <= b
    ensures Pow2(a) <= Pow2(b)
    ensures a < b ==> 2 * Pow2(a) <= Pow2(b)
  {
    if a < b { Pow2Monotone(a, b - 1); }
  }

  // Recursive alignment is divisibility by the block size.
  lemma {:induction false} AlignedToMeaning(x: nat, bits: nat)
    ensures AlignedTo(x, bits) <==> x % Pow2(bits) == 0
  {
    if bits > 0 {
      AlignedToMeaning(x / 2, bits - 1);
      RemainderOfHalf(x, Pow2(bits - 1));
    }
  }

  lemma RemainderOfHalf(x: nat, m: nat)
    requires m > 0
    ensures x % (2 * m) == 2 * ((x / 2) % m) + x % 2
  {
    var q, r := (x / 2) / m, (x / 2) % m;
    assert x == q * (2 * m) + (2 * r + x % 2) by {
      assert x / 2 == q * m + r;
    }
    UniqueRemainder(x, 2 * m, q, 2 * r + x % 2);
  }

  lemma UniqueRemainder(x: nat, d: nat, q: nat, r: nat)
    requires x == q * d + r && r < d
    ensures x % d == r
  {
    var k := x / d - q;
    assert k * d == r - x % d by {
      assert x == (x / d) * d + x % d;
    }
    if k > 0 { Multiple(k, d); } else if k < 0 { Multiple(-k, d); }
  }

  lemma Multiple(k: int, d: nat)
    requires k >= 1
    ensures k * d >= d
  {
    assert (k - 1) * d >= 0;
  }

  lemma {:induction false} AlignedDown(x: nat, a: nat, b: nat)
    requires a <= b && AlignedTo(x, b)
    ensures AlignedTo(x, a)
  {
    if a > 0 { AlignedDown(x / 2, a - 1, b - 1); }
  }

  lemma {:induction false} Pow2Aligned(bits: nat)
    ensures AlignedTo(Pow2(bits), bits) && AlignedTo(0, bits)
  {
    if bits > 0 { Pow2Aligned(bits - 1); }
  }

  // Aligned numbers are closed under sums and lie a block apart.
  lemma {:induction false} AlignedSum(x: nat, y: nat, bits: nat)
    requires AlignedTo(x, bits) && AlignedTo(y, bits)
    ensures AlignedTo(x + y, bits)
    ensures y < x ==> y + Pow2(bits) <= x
  {
    if bits > 0 {
      AlignedSum(x / 2, y / 2, bits - 1);
      assert (x + y) / 2 == x / 2 + y / 2;
    }
  }

  lemma {:induction false} TrailingZerosMeaning(start: nat, limit: nat)
    ensures AlignedTo(start, TrailingZeros(start, limit))
    ensures forall b: nat | b <= limit && AlignedTo(start, b) :: b <= TrailingZeros(start, limit)
  {
    if limit > 0 && start % 2 == 0 {
      TrailingZerosMeaning(start / 2, limit - 1);
      forall b: nat | b <= limit && AlignedTo(start, b) ensures b <= TrailingZeros(start, limit) {
        if b > 0 { assert AlignedTo(start / 2, b - 1); }
      }
    }
  }

  lemma AlignedTwice(y: nat, bits: nat)
    requires AlignedTo(y, bits)
    ensures AlignedTo(2 * y, bits + 1)
  {
    assert (2 * y) / 2 == y;
  }

  // Adding the lowest set bit raises the alignment.
  lemma {:induction false} NextAlignment(start: nat, limit: nat)
    requires TrailingZeros(start, limit) < limit
    ensures AlignedTo(start + Pow2(TrailingZeros(start, limit)), TrailingZeros(start, limit) + 1)
  {
    if start % 2 == 0 {
      var t := TrailingZeros(start / 2, limit - 1);
      NextAlignment(start / 2, limit - 1);
      AlignedTwice(start / 2 + Pow2(t), t + 1);
      assert 2 * (start / 2 + Pow2(t)) == start + Pow2(t + 1);
    } else {
      AlignedTwice((start + 1) / 2, 0);
    }
  }

  lemma {:induction false} FloorLog2Meaning(n: nat)
    requires n > 0
    ensures Pow2(FloorLog2(n)) <= n < Pow2(FloorLog2(n) + 1)
  {
    if n > 1 { FloorLog2Meaning(n / 2); }
  }

  // ---------------------------------------------------------- the greedy step

  function HostBits(start: nat, end: nat): nat
    requires start <= end
  {
    var alignment := TrailingZeros(start, 32);
    var remaining := FloorLog2(end - start + 1);
    if alignment <= remaining then alignment else remaining
  }

  // The largest aligned block that starts at start and stays within the range.
  lemma HostBitsMeaning(start: nat, end: nat)
    requires start <= end
    ensures var h := HostBits(start, end); Block(start, h).Aligned() && start + Pow2(h) <= end + 1
    ensures forall b: nat | Block(start, b).Aligned() && start + Pow2(b) <= end + 1 :: b <= HostBits(start, end)
  {
    var h, n := HostBits(start, end), end - start + 1;
    TrailingZerosMeaning(start, 32);
    FloorLog2Meaning(n);
    AlignedDown(start, h, TrailingZeros(start, 32));
    Pow2Monotone(h, FloorLog2(n));
    forall b: nat | Block(start, b).Aligned() && start + Pow2(b) <= end + 1 ensures b <= h {
      if b > FloorLog2(n) { Pow2Monotone(FloorLog2(n) + 1, b); }
    }
  }

  function Decompose(start: nat, end: int): seq<Block>
    decreases end - start
  {
    if start > end then []
    else [Block(start, HostBits(start, end))] + Decompose(start + Pow2(HostBits(start, end)), end)
  }

  // Aligned blocks, each beginning where the previous one ended, from start to
  // the end of the range.
  ghost predicate Tiles(blocks: seq<Block>, start: nat, end: int) {
    if blocks == [] then start == end + 1
    else
      && blocks[0].start == start && blocks[0].Aligned() && blocks[0].End() <= end + 1
      && Tiles(blocks[1..], blocks[0].End(), end)
  }

  lemma {:induction false} DecomposeTiles(start: nat, end: int)
    requires start <= end + 1
    ensures Tiles(Decompose(start, end), start, end)
    decreases end - start
  {
    if start <= end {
      HostBitsMeaning(start, end);
      DecomposeTiles(start + Pow2(HostBits(start, end)), end);
    }
  }

  ghost predicate Covered(blocks: seq<Block>, x: nat) {
    exists i | 0 <= i < |blocks| :: blocks[i].Covers(x)
  }

  // A tiling covers exactly the range; its blocks are increasing and disjoint.
  lemma {:induction false} TilesMeaning(blocks: seq<Block>, start: nat, end: int)
    requires Tiles(blocks, start, end)
    ensures forall x: nat :: Covered(blocks, x) <==> start <= x <= end
    ensures forall i, j | 0 <= i < j < |blocks| :: blocks[i].End() <= blocks[j].start
    ensures forall i | 0 <= i < |blocks| ::
      blocks[i].Aligned() && start <= blocks[i].start && blocks[i].End() <= end + 1
    ensures start <= end + 1
  {
    if blocks != [] {
      var rest := blocks[1..];
      TilesMeaning(rest, blocks[0].End(), end);
      forall x: nat ensures Covered(blocks, x) <==> start <= x <= end {
        assert Covered(rest, x) <==> blocks[0].End() <= x <= end;
        if Covered(rest, x) {
          var i :| 0 <= i < |rest| && rest[i].Covers(x);
          assert blocks[i + 1].Covers(x);
        }
        if Covered(blocks, x) {
          var i :| 0 <= i < |blocks| && blocks[i].Covers(x);
          if i > 0 { assert rest[i - 1].Covers(x); }
        }
      }
      forall i, j | 0 <= i < j < |blocks| ensures blocks[i].End() <= blocks[j].start {
        assert blocks[j] == rest[j - 1];
        if i > 0 { assert blocks[i] == rest[i - 1]; }
      }
      forall i | 0 <= i < |blocks|
        ensures blocks[i].Aligned() && start <= blocks[i].start && blocks[i].End() <= end + 1
      {
        if i > 0 { assert blocks[i] == rest[i - 1]; }
      }
    }
  }

  // ------------------------------------------------------------- optimality

  // Any collection of aligned blocks, in any order and possibly overlapping,
  // whose union is exactly the range.
  ghost predicate CoversExactly(blocks: seq<Block>, start: nat, end: int) {
    && (forall i | 0 <= i < |blocks| :: blocks[i].Aligned() && start <= blocks[i].start && blocks[i].End() <= end + 1)
    && (forall x: nat | start <= x <= end :: Covered(blocks, x))
  }

  // Within the range, a block that begins inside the greedy block stays inside.
  lemma Nested(b: Block, start: nat, end: int)
    requires start <= end && b.Aligned() && start <= b.start && b.End() <= end + 1
    requires b.start < start + Pow2(HostBits(start, end))
    ensures b.End() <= start + Pow2(HostBits(start, end))
  {
    var h := HostBits(start, end);
    HostBitsMeaning(start, end);
    if b.start > start && b.bits > h {
      AlignedDown(b.start, h, b.bits);
      AlignedSum(b.start, start, h);
      assert false;
    } else if b.bits <= h {
      AlignedDown(start, b.bits, h);
      Pow2Aligned(h);
      AlignedDown(Pow2(h), b.bits, h);
      AlignedSum(start, Pow2(h), b.bits);
      AlignedSum(start + Pow2(h), b.start, b.bits);
    }
  }

  function Beyond(blocks: seq<Block>, cut: nat): (r: seq<Block>)
    ensures |r| <= |blocks|
    ensures forall b :: b in r <==> b in blocks && b.start >= cut
    ensures (exists b :: b in blocks && b.start < cut) ==> |r| < |blocks|
  {
    if blocks == [] then []
    else (if blocks[0].start >= cut then [blocks[0]] else []) + Beyond(blocks[1..], cut)
  }

  // What the greedy block leaves over is covered by the blocks beyond it.
  lemma BeyondCovers(blocks: seq<Block>, start: nat, end: int, x: nat)
    requires start <= end && CoversExactly(blocks, start, end)
    requires start + Pow2(HostBits(start, end)) <= x <= end
    ensures Covered(Beyond(blocks, start + Pow2(HostBits(start, end))), x)
  {
    var rest := Beyond(blocks, start + Pow2(HostBits(start, end)));
    assert Covered(blocks, x);
    var i :| 0 <= i < |blocks| && blocks[i].Covers(x);
    if blocks[i].start < start + Pow2(HostBits(start, end)) { Nested(blocks[i], start, end); }
    assert blocks[i] in rest;
  }

  // No collection of blocks with the same union is shorter.
  lemma {:induction false} Optimal(blocks: seq<Block>, start: nat, end: int)
    requires CoversExactly(blocks, start, end)
    ensures |Decompose(start, end)| <= |blocks|
    decreases end - start
  {
    if start <= end {
      var cut := start + Pow2(HostBits(start, end));
      var rest := Beyond(blocks, cut);
      assert |rest| < |blocks| by {
        assert Covered(blocks, start);
        var first :| 0 <= first < |blocks| && blocks[first].Covers(start);
        assert blocks[first] in blocks && blocks[first].start < cut;
      }
      assert CoversExactly(rest, cut, end) by {
        forall x: nat | cut <= x <= end ensures Covered(rest, x) { BeyondCovers(blocks, start, end, x); }
        forall i | 0 <= i < |rest| ensures rest[i].Aligned() && cut <= rest[i].start && rest[i].End() <= end + 1 {
          assert rest[i] in blocks;
        }
      }
      Optimal(rest, cut, end);
    }
  }

  // ---------------------------------------------------------- at most 62

  // Once the remaining length is below the alignment, sizes strictly fall.
  lemma {:induction false} Descending(start: nat, end: int, a: nat)
    requires a <= 32 && AlignedTo(start, a) && start <= end + 1 < start + Pow2(a)
    ensures |Decompose(start, end)| <= a
    decreases end - start
  {
    if start <= end {
      var h, n := HostBits(start, end), end - start + 1;
      TrailingZerosMeaning(start, 32);
      FloorLog2Meaning(n);
      if FloorLog2(n) >= a { Pow2Monotone(a, FloorLog2(n)); }
      assert h == FloorLog2(n);
      AlignedDown(start, h, a);
      Pow2Aligned(h);
      AlignedSum(start, Pow2(h), h);
      Descending(start + Pow2(h), end, h);
    }
  }

  // Until then, alignment strictly grows.
  lemma {:induction false} Ascending(start: nat, end: int, t: nat)
    requires 0 < start <= end < ADDRESSES && AlignedTo(start, t) && t <= 31
    ensures |Decompose(start, end)| <= 62 - t
    decreases end - start
  {
    var z := TrailingZeros(start, 32);
    TrailingZerosMeaning(start, 32);
    AlignmentBelow32(start, z);
    if end + 1 < start + Pow2(z) {
      Descending(start, end, z);
    } else {
      HostBitsMeaning(start, end);
      assert HostBits(start, end) == z;
      var next := start + Pow2(z);
      NextAlignment(start, 32);
      if next <= end {
        AlignmentBelow32(next, z + 1);
        Ascending(next, end, z + 1);
      }
    }
  }

  lemma AlignmentBelow32(x: nat, t: nat)
    requires 0 < x < ADDRESSES && AlignedTo(x, t) && t <= 32
    ensures t <= 31
  {
    Pow2Of32();
    Pow2Aligned(t);
    AlignedSum(x, 0, t);
  }

  lemma Pow2Of32()
    ensures Pow2(32) == ADDRESSES
  {
    assert Pow2(8) == 256;
    assert Pow2(16) == 65536;
    assert Pow2(24) == 16777216;
  }

  lemma WholeSpace(end: int)
    requires end + 1 == ADDRESSES
    ensures |Decompose(0, end)| == 1
  {
    Pow2Of32();
    Pow2Aligned(32);
    assert Block(0, 32).Aligned();
    HostBitsMeaning(0, end);
    assert Decompose(ADDRESSES, end) == [];
  }

  lemma AtMost62(start: nat, end: int)
    requires start <= end < ADDRESSES
    ensures 1 <= |Decompose(start, end)| <= 62
  {
    if start > 0 {
      Ascending(start, end, 0);
    } else if end + 1 < ADDRESSES {
      Pow2Of32();
      Pow2Aligned(32);
      Descending(0, end, 32);
    } else {
      WholeSpace(end);
    }
  }

  // ------------------------------------------------------------- the program

  datatype Prefixes = Ok(blocks: seq<Block>) | BadRange | TooMany

  ghost predicate Progress(result: seq<Block>, start: nat, from: nat, to: nat) {
    start <= to + 1 && result + Decompose(start, to) == Decompose(from, to)
  }

  lemma ProgressStep(result: seq<Block>, start: nat, from: nat, to: nat)
    requires Progress(result, start, from, to) && start <= to
    ensures var h := HostBits(start, to); Progress(result + [Block(start, h)], start + Pow2(h), from, to)
    ensures |result| < |Decompose(from, to)|
  {
    DecomposeStep(start, to);
    var h := HostBits(start, to);
    assert result + ([Block(start, h)] + Decompose(start + Pow2(h), to))
        == (result + [Block(start, h)]) + Decompose(start + Pow2(h), to);
  }

  method RangePrefixes(from: nat, to: nat, limit: int) returns (r: Prefixes)
    ensures r.BadRange? <==> from > to || limit <= 0
    ensures r.Ok? <==> from <= to && 0 < limit && |Decompose(from, to)| <= limit
    ensures r.Ok? ==> r.blocks == Decompose(from, to)
  {
    if from > to || limit <= 0 { return BadRange; }
    var start: nat := from;
    var result := [];
    while start <= to
      invariant Progress(result, start, from, to) && |result| <= limit
      decreases (to + 1) - start
    {
      ProgressStep(result, start, from, to);
      var hostBits := HostBits(start, to);
      result := result + [Block(start, hostBits)];
      if |result| > limit { return TooMany; }
      start := start + Pow2(hostBits);
    }
    assert result == Decompose(from, to);
    r := Ok(result);
  }

  lemma DecomposeStep(start: nat, end: int)
    requires start <= end
    ensures var h := HostBits(start, end);
      start + Pow2(h) <= end + 1 && Decompose(start, end) == [Block(start, h)] + Decompose(start + Pow2(h), end)
  {
    HostBitsMeaning(start, end);
  }

  // The 128-bit addresses of a provider file. IPv4 appears in mapped form.
  datatype Range = Range(from: nat, to: nat)

  const MAPPED := 0xffff_0000_0000

  predicate Is4(x: nat) { MAPPED <= x < MAPPED + ADDRESSES }

  function V4(x: nat): nat
    requires Is4(x)
  {
    x - MAPPED
  }

  // Both ends of one family and in order.
  predicate WellFormed(r: Range) {
    Is4(r.from) == Is4(r.to) && r.from <= r.to
  }

  // A mapped address has the mapping prefix above its 32 bits.
  lemma Is4Meaning(x: nat)
    ensures Is4(x) <==> x / ADDRESSES == 0xffff
    ensures Is4(x) ==> V4(x) == x % ADDRESSES
  {
  }

  // A well-formed range has an address and does not cross families.
  lemma WellFormedMeaning(r: Range)
    ensures WellFormed(r) <==>
              r.to - r.from + 1 > 0 && (r.from / ADDRESSES == 0xffff <==> r.to / ADDRESSES == 0xffff)
  {
    Is4Meaning(r.from);
    Is4Meaning(r.to);
  }

  function BlocksOf(r: Range): seq<Block> {
    if Is4(r.from) && Is4(r.to) then Decompose(V4(r.from), V4(r.to)) else []
  }

  // The concatenation of the first n parts.
  function Flatten(parts: seq<seq<Block>>, n: nat): seq<Block>
    requires n <= |parts|
  {
    if n == 0 then [] else Flatten(parts, n - 1) + parts[n - 1]
  }

  lemma {:induction false} FlattenGrows(parts: seq<seq<Block>>, n: nat, m: nat)
    requires n <= m <= |parts|
    ensures |Flatten(parts, n)| <= |Flatten(parts, m)|
  {
    if n < m { FlattenGrows(parts, n, m - 1); }
  }

  lemma {:induction false} FlattenMembers(parts: seq<seq<Block>>, n: nat)
    requires n <= |parts|
    ensures forall b :: b in Flatten(parts, n) <==> exists i | 0 <= i < n :: b in parts[i]
  {
    if n > 0 { FlattenMembers(parts, n - 1); }
  }

  // The blocks of each range, and all of them in order.
  function Parts(ranges: seq<Range>): seq<seq<Block>> {
    seq(|ranges|, i requires 0 <= i < |ranges| => BlocksOf(ranges[i]))
  }

  function AllBlocks(ranges: seq<Range>): seq<Block> { Flatten(Parts(ranges), |ranges|) }

  ghost predicate InRange(r: Range, x: nat) {
    Is4(r.from) && Is4(r.to) && V4(r.from) <= x <= V4(r.to)
  }

  lemma BlocksOfCover(r: Range, x: nat)
    requires WellFormed(r)
    ensures (exists b | b in BlocksOf(r) :: b.Covers(x)) <==> InRange(r, x)
    ensures forall b | b in BlocksOf(r) :: b.Aligned() && b.End() <= ADDRESSES
  {
    if Is4(r.from) {
      DecomposeTiles(V4(r.from), V4(r.to));
      TilesMeaning(BlocksOf(r), V4(r.from), V4(r.to));
      assert Covered(BlocksOf(r), x) <==> InRange(r, x);
    }
  }

  // A range list the decoder accepts: its length is in bounds, every range is
  // well formed, and all of them together need no more than the entries allowed.
  ghost predicate Decodable(ranges: seq<Range>) {
    && 1 <= |ranges| <= MAX_ENTRIES
    && (forall i | 0 <= i < |ranges| :: WellFormed(ranges[i]))
    && |AllBlocks(ranges)| <= MAX_ENTRIES
  }

  // One turn of the decoding loop.
  method AppendRange(result: seq<Block>, range: Range) returns (r: Option<seq<Block>>)
    requires |result| <= MAX_ENTRIES
    ensures r.Some? <==> WellFormed(range) && |result| + |BlocksOf(range)| <= MAX_ENTRIES
    ensures r.Some? ==> r.value == result + BlocksOf(range)
  {
    if !WellFormed(range) { return None; }
    if !Is4(range.from) { return Some(result); }
    AtMost62(V4(range.from), V4(range.to));
    var prefixes := RangePrefixes(V4(range.from), V4(range.to), MAX_ENTRIES - |result|);
    if !prefixes.Ok? { return None; }
    r := Some(result + prefixes.blocks);
  }

  method DecodeRanges(ranges: seq<Range>) returns (r: Option<seq<Block>>)
    ensures r.Some? <==> Decodable(ranges)
    ensures r.Some? ==> r.value == AllBlocks(ranges)
  {
    if |ranges| < 1 || |ranges| > MAX_ENTRIES { return None; }
    ghost var parts := Parts(ranges);
    var result := [];
    for n := 0 to |ranges|
      invariant result == Flatten(parts, n) && |result| <= MAX_ENTRIES
      invariant forall i | 0 <= i < n :: WellFormed(ranges[i])
    {
      FlattenGrows(parts, n + 1, |ranges|);
      var next := AppendRange(result, ranges[n]);
      if next.None? { return None; }
      result := next.value;
    }
    r := Some(result);
  }

  // What a successful decoding contributes: aligned IPv4 blocks, at most the
  // allowed number of them, and together exactly the addresses of the IPv4 ranges.
  lemma DecodedMeaning(ranges: seq<Range>, x: nat)
    requires Decodable(ranges)
    ensures |AllBlocks(ranges)| <= MAX_ENTRIES
    ensures (exists b: Block | b in AllBlocks(ranges) :: b.Covers(x))
       <==> exists i | 0 <= i < |ranges| :: InRange(ranges[i], x)
    ensures forall b: Block | b in AllBlocks(ranges) :: b.Aligned() && b.End() <= ADDRESSES
  {
    var parts := Parts(ranges);
    FlattenMembers(parts, |ranges|);
    forall i | 0 <= i < |ranges|
      ensures (exists b: Block | b in parts[i] :: b.Covers(x)) <==> InRange(ranges[i], x)
      ensures forall b: Block | b in parts[i] :: b.Aligned() && b.End() <= ADDRESSES
    {
      BlocksOfCover(ranges[i], x);
    }
  }

  // ------------------------------------------------- policy prefix collection

  // A prefix as a provider gives it: possibly invalid, possibly with address
  // bits beyond its length.
  datatype Prefix = Invalid | Prefix(address: nat, hostBits: nat)

  // The address with its host bits cleared.
  function ClearHostBits(x: nat, bits: nat): nat {
    if bits == 0 then x else 2 * ClearHostBits(x / 2, bits - 1)
  }

  function Masked(p: Prefix): Block
    requires p.Prefix?
  {
    Block(ClearHostBits(p.address, p.hostBits), p.hostBits)
  }

  lemma {:induction false} ClearedMeaning(x: nat, bits: nat)
    ensures AlignedTo(ClearHostBits(x, bits), bits)
    ensures ClearHostBits(x, bits) <= x < ClearHostBits(x, bits) + Pow2(bits)
  {
    if bits > 0 {
      ClearedMeaning(x / 2, bits - 1);
      AlignedTwice(ClearHostBits(x / 2, bits - 1), bits - 1);
    }
  }

  // Masking gives the aligned block that holds the address.
  lemma MaskedMeaning(p: Prefix)
    requires p.Prefix?
    ensures AlignedTo(Masked(p).start, p.hostBits) && Masked(p).Covers(p.address)
  {
    ClearedMeaning(p.address, p.hostBits);
  }

  // The blocks of the valid prefixes, in order.
  function Usable(values: seq<Prefix>): seq<Block> {
    if values == [] then []
    else
      var last := values[|values| - 1];
      Usable(values[..|values| - 1]) + (if last.Prefix? then [Masked(last)] else [])
  }

  lemma {:induction false} UsablePrefix(base: set<Block>, values: seq<Prefix>, n: nat)
    requires n <= |values|
    ensures base + Members(Usable(values[..n])) <= base + Members(Usable(values))
    ensures |base + Members(Usable(values[..n]))| <= |base + Members(Usable(values))|
    decreases |values| - n
  {
    if n < |values| {
      UsablePrefix(base, values, n + 1);
      assert values[..n + 1][..n] == values[..n];
    } else {
      assert values[..n] == values;
    }
    Fewer(base + Members(Usable(values[..n])), base + Members(Usable(values)));
  }

  // Appends the masked valid prefixes not seen before. `maxEntries` bounds the
  // distinct entries of all the calls that share one result; a call is refused
  // exactly when the blocks that are new do not fit.
  method AppendBounded(result: seq<Block>, seen: set<Block>, values: seq<Prefix>, maxEntries: int)
    returns (ok: bool, grown: seq<Block>, known: set<Block>)
    requires Distinct(result) && seen == Members(result) && |result| <= maxEntries
    ensures Distinct(grown) && known == Members(grown) && result <= grown && |grown| <= maxEntries
    ensures ok <==> 0 < maxEntries && |seen + Members(Usable(values))| <= maxEntries
    ensures ok ==> known == seen + Members(Usable(values))
    ensures known <= seen + Members(Usable(values))
  {
    grown, known := result, seen;
    if maxEntries <= 0 { return false, grown, known; }
    for i := 0 to |values|
      invariant known == Members(grown) && |grown| == |known| <= maxEntries
      invariant result <= grown
      invariant known == seen + Members(Usable(values[..i]))
    {
      UsableStep(seen, values, i);
      if values[i].Invalid? { continue; }
      var block := Masked(values[i]);
      if block !in known {
        if |grown| >= maxEntries { return false, grown, known; }
        MembersGrow(grown, block);
        grown, known := grown + [block], known + {block};
      }
    }
    assert values[..|values|] == values;
    ok := true;
  }

  lemma UsableStep(base: set<Block>, values: seq<Prefix>, n: nat)
    requires n < |values|
    ensures base + Members(Usable(values[..n + 1]))
         == base + Members(Usable(values[..n])) + if values[n].Prefix? then {Masked(values[n])} else {}
    ensures base + Members(Usable(values[..n])) <= base + Members(Usable(values))
    ensures |base + Members(Usable(values[..n + 1]))| <= |base + Members(Usable(values))|
  {
    assert values[..n + 1][..n] == values[..n];
    if values[n].Prefix? { MembersGrow(Usable(values[..n]), Masked(values[n])); }
    UsablePrefix(base, values, n);
    UsablePrefix(base, values, n + 1);
  }
}
