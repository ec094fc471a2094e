/**
 What the memory of the stack allocator means: a chain of blocks, newest first, each holding its live
 regions, newest first, stacked downwards from the end of the block.

 Addresses are integers and memory is a map over words of eight bytes. Every word the allocator itself
 reads or writes holds an optional pointer: the two words of a block header (`previous` and `last`) and
 the back pointer under each region.
 */
module StackBlocks {
  import opened Wrappers
  import opened Powers

  const WORD: nat := 8     // MINIMUM_ALIGN and BACK_POINTER_SIZE
  const HEADER: nat := 16  // size of a block header

  type Memory = map<int, Option<int>>

  /** A region handed out: its address, and the size and alignment it was asked for. */
  datatype Region = Region(res: int, size: nat, align: nat)

  datatype Block = Block(addr: int, size: nat, live: seq<Region>) {
    ghost function End(): int { addr + size }
    /** The lowest address in use, which is where the next region goes under. */
    ghost function Low(): int { LowOf(live, End()) }
    ghost predicate Spans(p: int) { addr <= p < End() }
  }

  ghost function LowOf(live: seq<Region>, end: int): int {
    if live == [] then end else live[0].res - WORD
  }

  ghost predicate IsWord(p: int) { p % WORD == 0 }

  // What the chain stands for

  ghost function HeadOf(chain: seq<Block>): Option<int> {
    if chain == [] then None else Some(chain[0].addr)
  }

  /** All live regions, newest first. */
  ghost function Flatten(chain: seq<Block>): seq<Region> {
    if chain == [] then [] else chain[0].live + Flatten(chain[1..])
  }

  /** The newest back pointer of a list of regions. */
  ghost function TopOf(rs: seq<Region>): Option<int> {
    if rs == [] then None else Some(rs[0].res - WORD)
  }

  // Shape: where blocks and regions lie

  ghost predicate AlignedAsAsked(r: Region) {
    IsWord(r.res) && IsPowerOfTwo(r.align) && r.res % r.align == 0
  }

  ghost predicate Stacked(live: seq<Region>, end: int) {
    live == [] || (
      && AlignedAsAsked(live[0])
      && live[0].res + live[0].size <= LowOf(live[1..], end)
      && Stacked(live[1..], end))
  }

  ghost predicate BlockOk(b: Block) {
    && b.addr > 0 && IsWord(b.addr)
    && IsPowerOfTwo(b.size) && b.size >= 2 * HEADER
    && Stacked(b.live, b.End())
    && b.Low() >= b.addr + HEADER
  }

  ghost predicate Apart(b: Block, c: Block) {
    b.End() <= c.addr || c.End() <= b.addr
  }

  ghost predicate Shape(chain: seq<Block>) {
    chain == [] || (
      && BlockOk(chain[0])
      && (forall i :: 1 <= i < |chain| ==> Apart(chain[0], chain[i]))
      && (|chain| > 1 ==> chain[0].size >= 2 * chain[1].size)
      && Shape(chain[1..]))
  }

  // Memory: what the words of the allocator hold

  ghost predicate Holds(mem: Memory, p: int, v: Option<int>) {
    p in mem && mem[p] == v
  }

  ghost predicate BacksOk(mem: Memory, live: seq<Region>, below: seq<Region>) {
    live == [] || (
      && Holds(mem, live[0].res - WORD, TopOf(live[1..] + below))
      && BacksOk(mem, live[1..], below))
  }

  ghost predicate MemOk(mem: Memory, chain: seq<Block>) {
    chain == [] || (
      && Holds(mem, chain[0].addr, HeadOf(chain[1..]))
      && Holds(mem, chain[0].addr + WORD, Some(chain[0].End()))
      && BacksOk(mem, chain[0].live, Flatten(chain[1..]))
      && MemOk(mem, chain[1..]))
  }

  /** Some block of the chain spans the address. */
  ghost predicate Held(chain: seq<Block>, p: int) {
    exists i :: 0 <= i < |chain| && chain[i].Spans(p)
  }

  /** The allocator holds the words of its blocks and no others. */
  ghost predicate Owns(mem: Memory, chain: seq<Block>) {
    forall p :: p in mem <==> IsWord(p) && Held(chain, p)
  }

  // The words the allocator relies on

  ghost predicate IsBack(live: seq<Region>, p: int) {
    exists i :: 0 <= i < |live| && live[i].res - WORD == p
  }

  ghost predicate IsOwn(chain: seq<Block>, p: int) {
    exists i :: 0 <= i < |chain| && OwnOf(chain[i], p)
  }

  ghost predicate OwnOf(b: Block, p: int) {
    p == b.addr || p == b.addr + WORD || IsBack(b.live, p)
  }

  /** The word at `p` shares a byte with the region. */
  ghost predicate Touches(r: Region, p: int) {
    p < r.res + r.size && r.res < p + WORD
  }

  ghost predicate TouchesLive(live: seq<Region>, p: int) {
    exists k :: 0 <= k < |live| && Touches(live[k], p)
  }

  ghost predicate SameOwn(mem: Memory, mem': Memory, chain: seq<Block>) {
    forall p :: IsOwn(chain, p) && p in mem ==> Holds(mem', p, mem[p])
  }

  // Consequences of the shape

  lemma {:induction false} StackedAt(live: seq<Region>, end: int, i: nat)
    requires Stacked(live, end) && i < |live|
    ensures AlignedAsAsked(live[i]) && IsWord(live[i].res)
    ensures LowOf(live, end) <= live[i].res - WORD && live[i].res + live[i].size <= end
    ensures forall j :: i < j < |live| ==> live[i].res + live[i].size <= live[j].res - WORD
  {
    if i > 0 {
      StackedAt(live[1..], end, i - 1);
      assert forall j :: i < j < |live| ==> live[j] == live[1..][j - 1];
    } else {
      if |live| > 1 {
        StackedAt(live[1..], end, 0);
      }
      forall j | 0 < j < |live|
        ensures live[0].res + live[0].size <= live[j].res - WORD
      {
        StackedAt(live[1..], end, j - 1);
      }
    }
  }

  lemma {:induction false} ShapeAt(chain: seq<Block>, i: nat)
    requires Shape(chain) && i < |chain|
    ensures BlockOk(chain[i])
    ensures forall j :: i < j < |chain| ==> Apart(chain[i], chain[j])
    ensures i + 1 < |chain| ==> chain[i].size >= 2 * chain[i + 1].size
  {
    if i > 0 {
      ShapeAt(chain[1..], i - 1);
      assert forall j :: i < j < |chain| ==> chain[j] == chain[1..][j - 1];
    }
  }

  /** The chain seen position by position. */
  lemma {:induction false} ShapeIsEverywhere(chain: seq<Block>)
    requires Shape(chain)
    ensures forall i :: 0 <= i < |chain| ==> BlockOk(chain[i])
    ensures forall i, j :: 0 <= i < j < |chain| ==> Apart(chain[i], chain[j])
  {
    forall i | 0 <= i < |chain|
      ensures BlockOk(chain[i]) && forall j :: i < j < |chain| ==> Apart(chain[i], chain[j])
    {
      ShapeAt(chain, i);
    }
  }

  /** Where each live region lies. */
  lemma {:induction false} RegionHasBlock(chain: seq<Block>, k: nat) returns (i: nat, j: nat)
    requires k < |Flatten(chain)|
    ensures i < |chain| && j < |chain[i].live| && chain[i].live[j] == Flatten(chain)[k]
    ensures k == |Flatten(chain[..i])| + j
  {
    if k < |chain[0].live| {
      i, j := 0, k;
      assert chain[..0] == [];
    } else {
      i, j := RegionHasBlock(chain[1..], k - |chain[0].live|);
      i := i + 1;
      assert chain[..i][0] == chain[0] && chain[..i][1..] == chain[1..][..i - 1];
    }
  }

  /**
   Every live region, with the back pointer under it, lies inside one block strictly above the header
   of that block, and is aligned as it was asked for.
   */
  lemma {:induction false} LiveRegionsAreInside(chain: seq<Block>, k: nat) returns (i: nat)
    requires Shape(chain) && k < |Flatten(chain)|
    ensures i < |chain|
    ensures var r := Flatten(chain)[k];
      && chain[i].addr + HEADER <= r.res - WORD && r.res + r.size <= chain[i].End()
      && AlignedAsAsked(r)
  {
    var j;
    i, j := RegionHasBlock(chain, k);
    ShapeAt(chain, i);
    StackedAt(chain[i].live, chain[i].End(), j);
  }

  /** Regions, each taken with its back pointer, that share no byte. */
  ghost predicate Disjoint(r: Region, s: Region) {
    r.res + r.size <= s.res - WORD || s.res + s.size <= r.res - WORD
  }

  lemma {:induction false} LiveRegionsAreDisjoint(chain: seq<Block>, k: nat, l: nat)
    requires Shape(chain) && k < l < |Flatten(chain)|
    ensures Disjoint(Flatten(chain)[k], Flatten(chain)[l])
  {
    var i, j := RegionHasBlock(chain, k);
    var i', j' := RegionHasBlock(chain, l);
    ShapeIsEverywhere(chain);
    StackedAt(chain[i].live, chain[i].End(), j);
    StackedAt(chain[i'].live, chain[i'].End(), j');
    if i == i' {
      assert j < j';
    } else {
      assert Apart(chain[i], chain[i']);
    }
  }

  ghost function SumOfSizes(chain: seq<Block>): nat {
    if chain == [] then 0 else chain[0].size + SumOfSizes(chain[1..])
  }

  /** All older blocks together are smaller than the newest. */
  lemma {:induction false} OlderBlocksAreSmaller(chain: seq<Block>)
    requires Shape(chain) && chain != []
    ensures SumOfSizes(chain[1..]) < chain[0].size
  {
    if |chain| > 1 {
      OlderBlocksAreSmaller(chain[1..]);
    }
  }

  // Which block an address belongs to

  /** The test of `within_block`, whose end is inclusive. */
  ghost predicate Within(b: Block, p: int) {
    b.addr <= p <= b.End()
  }

  /** The newest back pointer is within a block exactly when the newest region is in that block. */
  lemma {:induction false} WithinFindsOwner(chain: seq<Block>, i: nat)
    requires Shape(chain) && i < |chain| && Flatten(chain) != []
    ensures Within(chain[i], Flatten(chain)[0].res - WORD) <==>
      chain[i].live != [] && forall h :: 0 <= h < i ==> chain[h].live == []
  {
    var o, j := RegionHasBlock(chain, 0);
    ShapeIsEverywhere(chain);
    StackedAt(chain[o].live, chain[o].End(), j);
    EmptyBefore(chain[..o]);
    forall h | 0 <= h < o
      ensures chain[h].live == []
    {
      assert chain[h] == chain[..o][h];
    }
    if i != o {
      assert Apart(chain[i], chain[o]);
    }
  }

  lemma {:induction false} EmptyBefore(chain: seq<Block>)
    requires Flatten(chain) == []
    ensures forall h :: 0 <= h < |chain| ==> chain[h].live == []
  {
    if chain != [] {
      EmptyBefore(chain[1..]);
      assert forall h :: 1 <= h < |chain| ==> chain[h] == chain[1..][h - 1];
    }
  }

  // Writes and what they leave alone

  lemma {:induction false} BacksFrame(mem: Memory, mem': Memory, live: seq<Region>, below: seq<Region>)
    requires BacksOk(mem, live, below)
    requires forall p :: IsBack(live, p) && p in mem ==> Holds(mem', p, mem[p])
    ensures BacksOk(mem', live, below)
  {
    if live != [] {
      assert IsBack(live, live[0].res - WORD);
      forall p | IsBack(live[1..], p) && p in mem
        ensures Holds(mem', p, mem[p])
      {
        var i :| 0 <= i < |live[1..]| && live[1..][i].res - WORD == p;
        assert live[i + 1].res - WORD == p;
      }
      BacksFrame(mem, mem', live[1..], below);
    }
  }

  lemma {:induction false} MemFrame(mem: Memory, mem': Memory, chain: seq<Block>)
    requires MemOk(mem, chain) && SameOwn(mem, mem', chain)
    ensures MemOk(mem', chain)
  {
    if chain != [] {
      var c := chain[0];
      assert OwnOf(c, c.addr) && OwnOf(c, c.addr + WORD);
      forall p | IsBack(c.live, p) && p in mem
        ensures Holds(mem', p, mem[p])
      {
        assert OwnOf(chain[0], p) && IsOwn(chain, p);
      }
      BacksFrame(mem, mem', c.live, Flatten(chain[1..]));
      forall p | IsOwn(chain[1..], p) && p in mem
        ensures Holds(mem', p, mem[p])
      {
        var i :| 0 <= i < |chain[1..]| && OwnOf(chain[1..][i], p);
        assert OwnOf(chain[i + 1], p);
      }
      MemFrame(mem, mem', chain[1..]);
    }
  }

  /** The words the allocator relies on lie in their block, and in no region. */
  lemma {:induction false} OwnIsHeld(b: Block, p: int)
    requires BlockOk(b) && OwnOf(b, p)
    ensures IsWord(p) && b.Spans(p)
    ensures forall r :: r in b.live ==> !Touches(r, p)
  {
    hide Stacked, AlignedAsAsked, IsPowerOfTwo;
    if p != b.addr && p != b.addr + WORD {
      var i :| 0 <= i < |b.live| && b.live[i].res - WORD == p;
      StackedAt(b.live, b.End(), i);
      forall j | 0 <= j < |b.live|
        ensures !Touches(b.live[j], p)
      {
        StackedAt(b.live, b.End(), j);
      }
    } else {
      forall j | 0 <= j < |b.live|
        ensures !Touches(b.live[j], p)
      {
        StackedAt(b.live, b.End(), j);
      }
    }
  }

  /** No word the allocator relies on shares a byte with a live region. */
  lemma {:induction false} OwnOffRegions(chain: seq<Block>, p: int, k: nat)
    requires Shape(chain) && IsOwn(chain, p) && k < |Flatten(chain)|
    ensures !Touches(Flatten(chain)[k], p)
  {
    var i :| 0 <= i < |chain| && OwnOf(chain[i], p);
    var o, j := RegionHasBlock(chain, k);
    ShapeIsEverywhere(chain);
    OwnIsHeld(chain[i], p);
    StackedAt(chain[o].live, chain[o].End(), j);
    if i != o {
      assert Apart(chain[i], chain[o]);
    }
  }

  // Steps on the chain

  /** A block in front. */
  ghost function Grown(chain: seq<Block>, addr: int, size: nat): seq<Block> {
    [Block(addr, size, [])] + chain
  }

  /** A region on the newest block. */
  ghost function Pushed(chain: seq<Block>, r: Region): seq<Block>
    requires chain != []
  {
    [chain[0].(live := [r] + chain[0].live)] + chain[1..]
  }

  /** The newest region removed. */
  ghost function Popped(chain: seq<Block>): seq<Block> {
    if chain == [] then []
    else if chain[0].live != [] then [chain[0].(live := chain[0].live[1..])] + chain[1..]
    else [chain[0]] + Popped(chain[1..])
  }

  /** The second block taken out. */
  ghost function Unlinked(chain: seq<Block>): seq<Block>
    requires |chain| > 1
  {
    [chain[0]] + chain[2..]
  }

  lemma {:induction false} PushedKeeps(mem: Memory, chain: seq<Block>, r: Region)
    requires Shape(chain) && MemOk(mem, chain) && Owns(mem, chain) && chain != []
    requires AlignedAsAsked(r)
    requires chain[0].addr + HEADER <= r.res - WORD && r.res + r.size <= chain[0].Low()
    ensures r.res - WORD in mem
    ensures var mem' := mem[r.res - WORD := TopOf(Flatten(chain))]; var chain' := Pushed(chain, r);
      Shape(chain') && MemOk(mem', chain') && Owns(mem', chain') && Flatten(chain') == [r] + Flatten(chain)
  {
    hide Shape, Held, IsOwn, MemOk, Stacked;
    var p := r.res - WORD;
    PushedShape(chain, r);
    PushedIsWritten(mem, chain, r);
    SpansFirst(chain, p);
    SameSpans(chain, Pushed(chain, r));
    PushedFlatten(chain, r);
  }

  lemma {:induction false} PushedFlatten(chain: seq<Block>, r: Region)
    requires chain != []
    ensures Flatten(Pushed(chain, r)) == [r] + Flatten(chain)
  {
    assert [r] + Flatten(chain) == [r] + chain[0].live + Flatten(chain[1..]);
  }

  lemma {:induction false} SpansFirst(chain: seq<Block>, p: int)
    requires Shape(chain) && chain != []
    requires chain[0].addr <= p < chain[0].Low()
    ensures Held(chain, p)
  {
    LowIsInside(chain[0]);
    assert chain[0].Spans(p);
  }

  lemma {:induction false} PushedIsWritten(mem: Memory, chain: seq<Block>, r: Region)
    requires Shape(chain) && MemOk(mem, chain) && chain != []
    requires chain[0].addr + HEADER <= r.res - WORD && r.res + r.size <= chain[0].Low()
    ensures MemOk(mem[r.res - WORD := TopOf(Flatten(chain))], Pushed(chain, r))
  {
    var p := r.res - WORD;
    var mem' := mem[p := TopOf(Flatten(chain))];
    var chain' := Pushed(chain, r);
    forall q | IsOwn(chain, q) && q in mem
      ensures Holds(mem', q, mem[q])
    {
      NotUnderLow(chain, r, q);
    }
    MemFrame(mem, mem', chain);
    assert chain'[0].live[1..] == chain[0].live && chain'[1..] == chain[1..];
  }

  lemma {:induction false} LowIsInside(b: Block)
    requires BlockOk(b)
    ensures b.Low() <= b.End()
  {
    if b.live != [] {
      StackedAt(b.live, b.End(), 0);
    }
  }

  lemma {:induction false} PushedShape(chain: seq<Block>, r: Region)
    requires Shape(chain) && chain != []
    requires AlignedAsAsked(r)
    requires chain[0].addr + HEADER <= r.res - WORD && r.res + r.size <= chain[0].Low()
    ensures Shape(Pushed(chain, r))
  {
    var b' := Pushed(chain, r)[0];
    assert b'.live[1..] == chain[0].live;
    assert Stacked(b'.live, b'.End());
    assert Pushed(chain, r)[1..] == chain[1..];
    assert forall i :: 1 <= i < |chain| ==> Apart(chain[0], chain[i]);
  }

  lemma {:induction false} NotUnderLow(chain: seq<Block>, r: Region, q: int)
    requires Shape(chain) && chain != [] && IsOwn(chain, q)
    requires chain[0].addr + HEADER <= r.res - WORD && r.res + r.size <= chain[0].Low()
    ensures q != r.res - WORD
  {
    var i :| 0 <= i < |chain| && OwnOf(chain[i], q);
    ShapeIsEverywhere(chain);
    OwnIsHeld(chain[i], q);
    LowIsInside(chain[0]);
    if i == 0 {
      if IsBack(chain[0].live, q) {
        var j :| 0 <= j < |chain[0].live| && chain[0].live[j].res - WORD == q;
        StackedAt(chain[0].live, chain[0].End(), j);
      }
    } else {
      assert Apart(chain[0], chain[i]);
    }
  }

  lemma {:induction false} SameSpans(chain: seq<Block>, chain': seq<Block>)
    requires |chain| == |chain'|
    requires forall i :: 0 <= i < |chain| ==> chain[i].addr == chain'[i].addr && chain[i].size == chain'[i].size
    ensures forall p :: Held(chain, p) <==> Held(chain', p)
  {
    forall p
      ensures Held(chain, p) <==> Held(chain', p)
    {
      if Held(chain, p) {
        var i :| 0 <= i < |chain| && chain[i].Spans(p);
        assert chain'[i].Spans(p);
      }
      if Held(chain', p) {
        var i :| 0 <= i < |chain'| && chain'[i].Spans(p);
        assert chain[i].Spans(p);
      }
    }
  }

  /** A fresh block in front, its header written. */
  lemma {:induction false} GrownKeeps(mem: Memory, mem': Memory, chain: seq<Block>, addr: int, size: nat)
    requires Shape(chain) && MemOk(mem, chain) && Owns(mem, chain)
    requires BlockOk(Block(addr, size, [])) && (chain != [] ==> size >= 2 * chain[0].size)
    requires forall i :: 0 <= i < |chain| ==> Apart(Block(addr, size, []), chain[i])
    requires forall p :: p in mem' <==> p in mem || (IsWord(p) && addr <= p < addr + size)
    requires forall p :: p in mem ==> mem'[p] == mem[p]
    requires Holds(mem', addr, HeadOf(chain)) && Holds(mem', addr + WORD, Some(addr + size))
    ensures var chain' := Grown(chain, addr, size);
      Shape(chain') && MemOk(mem', chain') && Owns(mem', chain') && Flatten(chain') == Flatten(chain)
  {
    hide IsOwn, BlockOk, Apart, Held, IsWord;
    var chain' := Grown(chain, addr, size);
    assert chain'[1..] == chain;
    MemFrame(mem, mem', chain);
    GrownOwns(mem, mem', chain, addr, size);
  }

  lemma {:induction false} GrownOwns(mem: Memory, mem': Memory, chain: seq<Block>, addr: int, size: nat)
    requires Owns(mem, chain)
    requires forall p :: p in mem' <==> p in mem || (IsWord(p) && addr <= p < addr + size)
    ensures Owns(mem', Grown(chain, addr, size))
  {
    hide Held;
    var chain' := Grown(chain, addr, size);
    assert chain'[1..] == chain;
    forall p
      ensures Held(chain', p) <==> Held(chain, p) || addr <= p < addr + size
    {
      HeldSplit(chain', p);
    }
  }

  lemma {:induction false} HeldSplit(chain: seq<Block>, p: int)
    requires chain != []
    ensures Held(chain, p) <==> chain[0].Spans(p) || Held(chain[1..], p)
  {
    if Held(chain, p) {
      var i :| 0 <= i < |chain| && chain[i].Spans(p);
      if i > 0 {
        assert chain[1..][i - 1].Spans(p);
      }
    }
    if Held(chain[1..], p) {
      var i :| 0 <= i < |chain[1..]| && chain[1..][i].Spans(p);
      assert chain[i + 1].Spans(p);
    }
  }

  /** The same blocks, whatever is live in them. */
  ghost predicate SameBlocks(chain: seq<Block>, chain': seq<Block>) {
    && |chain| == |chain'|
    && forall i :: 0 <= i < |chain| ==> chain'[i].addr == chain[i].addr && chain'[i].size == chain[i].size
  }

  lemma {:induction false} PoppedBlocks(chain: seq<Block>)
    ensures SameBlocks(chain, Popped(chain))
  {
    if chain != [] && chain[0].live == [] {
      PoppedBlocks(chain[1..]);
      assert forall i :: 1 <= i < |chain| ==> chain[i] == chain[1..][i - 1];
    }
  }

  lemma {:induction false} PoppedFlatten(chain: seq<Block>)
    requires Flatten(chain) != []
    ensures Flatten(Popped(chain)) == Flatten(chain)[1..]
  {
    if chain[0].live == [] {
      PoppedFlatten(chain[1..]);
    } else {
      assert Flatten(chain)[1..] == chain[0].live[1..] + Flatten(chain[1..]);
    }
  }

  lemma {:induction false} PoppedShape(chain: seq<Block>)
    requires Shape(chain)
    ensures Shape(Popped(chain))
  {
    if chain != [] {
      var chain' := Popped(chain);
      PoppedBlocks(chain);
      if chain[0].live == [] {
        PoppedShape(chain[1..]);
        assert chain'[1..] == Popped(chain[1..]);
      } else {
        var c := chain[0];
        StackedAt(c.live, c.End(), 0);
        if |c.live| > 1 {
          StackedAt(c.live, c.End(), 1);
        }
        assert chain'[1..] == chain[1..];
      }
      assert forall i :: 1 <= i < |chain| ==> Apart(chain[0], chain[i]);
    }
  }

  /** Reading the newest back pointer gives the one before it, and forgetting its region keeps the rest. */
  lemma {:induction false} PoppedKeeps(mem: Memory, chain: seq<Block>)
    requires MemOk(mem, chain) && Flatten(chain) != []
    ensures MemOk(mem, Popped(chain))
    ensures Holds(mem, Flatten(chain)[0].res - WORD, TopOf(Flatten(chain)[1..]))
  {
    var c, rest := chain[0], chain[1..];
    var chain' := Popped(chain);
    PoppedHead(chain);
    if c.live != [] {
      assert chain'[1..] == rest;
      assert Flatten(chain)[1..] == c.live[1..] + Flatten(rest);
    } else {
      PoppedKeeps(mem, rest);
      PoppedHead(rest);
      assert chain'[1..] == Popped(rest);
    }
  }

  lemma {:induction false} PoppedHead(chain: seq<Block>)
    ensures HeadOf(Popped(chain)) == HeadOf(chain)
  {
  }

  /** The block behind the newest taken out: nothing live is in it, and all else stays. */
  lemma {:induction false} UnlinkedKeeps(mem: Memory, mem': Memory, chain: seq<Block>)
    requires Shape(chain) && MemOk(mem, chain) && Owns(mem, chain) && |chain| > 1 && chain[1].live == []
    requires forall p :: p in mem' <==> p in mem && !chain[1].Spans(p)
    requires forall p :: p in mem' && p != chain[0].addr ==> mem'[p] == mem[p]
    requires Holds(mem', chain[0].addr, HeadOf(chain[2..]))
    ensures var chain' := Unlinked(chain);
      Shape(chain') && MemOk(mem', chain') && Owns(mem', chain') && Flatten(chain') == Flatten(chain)
  {
    hide Shape, IsBack, IsOwn, OwnOf, BacksOk, Held;
    var chain' := Unlinked(chain);
    var rest := chain[2..];
    assert chain[1..][1..] == rest && chain'[1..] == rest && chain[1..][0] == chain[1];
    assert Flatten(chain[1..]) == Flatten(rest);
    UnlinkedShape(chain);
    UnlinkedFrame(mem, mem', chain);
    UnlinkedBacks(mem, mem', chain);
    UnlinkedOwns(mem, mem', chain);
  }

  lemma {:induction false} UnlinkedBacks(mem: Memory, mem': Memory, chain: seq<Block>)
    requires Shape(chain) && |chain| > 1
    requires BacksOk(mem, chain[0].live, Flatten(chain[1..])) && Holds(mem, chain[0].addr + WORD, Some(chain[0].End()))
    requires forall p :: p in mem' <==> p in mem && !chain[1].Spans(p)
    requires forall p :: p in mem' && p != chain[0].addr ==> mem'[p] == mem[p]
    ensures BacksOk(mem', chain[0].live, Flatten(chain[1..])) && Holds(mem', chain[0].addr + WORD, Some(chain[0].End()))
  {
    ShapeAt(chain, 0);
    assert Apart(chain[0], chain[1]);
    OwnIsHeld(chain[0], chain[0].addr + WORD);
    forall p | IsBack(chain[0].live, p) && p in mem
      ensures Holds(mem', p, mem[p])
    {
      OwnIsHeld(chain[0], p);
      var i :| 0 <= i < |chain[0].live| && chain[0].live[i].res - WORD == p;
      StackedAt(chain[0].live, chain[0].End(), i);
    }
    BacksFrame(mem, mem', chain[0].live, Flatten(chain[1..]));
  }

  lemma {:induction false} UnlinkedShape(chain: seq<Block>)
    requires Shape(chain) && |chain| > 1
    ensures Shape(Unlinked(chain))
  {
    var chain' := Unlinked(chain);
    assert chain'[1..] == chain[1..][1..];
    ShapeIsEverywhere(chain);
    ShapeAt(chain, 0);
    ShapeAt(chain, 1);
    assert forall i :: 1 <= i < |chain'| ==> chain'[i] == chain[i + 1];
  }

  lemma {:induction false} UnlinkedFrame(mem: Memory, mem': Memory, chain: seq<Block>)
    requires Shape(chain) && |chain| > 1 && MemOk(mem, chain[2..])
    requires forall p :: p in mem' <==> p in mem && !chain[1].Spans(p)
    requires forall p :: p in mem' && p != chain[0].addr ==> mem'[p] == mem[p]
    ensures MemOk(mem', chain[2..])
  {
    var rest := chain[2..];
    ShapeIsEverywhere(chain);
    forall p | IsOwn(rest, p) && p in mem
      ensures Holds(mem', p, mem[p])
    {
      var i :| 0 <= i < |rest| && OwnOf(rest[i], p);
      assert rest[i] == chain[i + 2];
      OwnIsHeld(chain[i + 2], p);
      assert Apart(chain[0], chain[i + 2]) && Apart(chain[1], chain[i + 2]);
    }
    MemFrame(mem, mem', rest);
  }

  lemma {:induction false} UnlinkedOwns(mem: Memory, mem': Memory, chain: seq<Block>)
    requires Shape(chain) && Owns(mem, chain) && |chain| > 1
    requires forall p :: p in mem' <==> p in mem && !chain[1].Spans(p)
    ensures Owns(mem', Unlinked(chain))
  {
    var chain' := Unlinked(chain);
    ShapeIsEverywhere(chain);
    forall p
      ensures Held(chain', p) <==> Held(chain, p) && !chain[1].Spans(p)
    {
      HeldSplit(chain, p);
      HeldSplit(chain[1..], p);
      HeldSplit(chain', p);
      assert chain'[1..] == chain[1..][1..] && chain[1..][0] == chain[1];
      if Held(chain[2..], p) {
        var i :| 0 <= i < |chain[2..]| && chain[2..][i].Spans(p);
        assert Apart(chain[1], chain[i + 2]);
      }
      assert Apart(chain[0], chain[1]);
    }
  }

  /** Whatever is written into live regions, the allocator's own words stay. */
  lemma {:induction false} ScribbledKeeps(mem: Memory, mem': Memory, chain: seq<Block>)
    requires Shape(chain) && MemOk(mem, chain)
    requires mem'.Keys == mem.Keys
    requires forall p :: p in mem && mem'[p] != mem[p] ==> TouchesLive(Flatten(chain), p)
    ensures MemOk(mem', chain)
  {
    forall p | IsOwn(chain, p) && p in mem
      ensures Holds(mem', p, mem[p])
    {
      if mem'[p] != mem[p] {
        var k :| 0 <= k < |Flatten(chain)| && Touches(Flatten(chain)[k], p);
        OwnOffRegions(chain, p, k);
      }
    }
    MemFrame(mem, mem', chain);
  }

  /** The system can always place one more block. */
  lemma {:induction false} RoomForMore(chain: seq<Block>) returns (addr: int)
    requires Shape(chain)
    ensures addr > 0 && IsWord(addr) && forall i :: 0 <= i < |chain| ==> chain[i].End() <= addr
  {
    if chain == [] {
      addr := WORD;
    } else {
      addr := RoomForMore(chain[1..]);
      SmallerDivides(WORD, chain[0].size, chain[0].size);
      if addr < chain[0].End() {
        addr := chain[0].End();
      }
      forall i | 0 <= i < |chain|
        ensures chain[i].End() <= addr
      {
        if i > 0 {
          assert chain[i] == chain[1..][i - 1];
        }
      }
    }
  }
}
