/** The stack allocator: its two fields, and the memory it holds. */
module StackAllocator {
  import opened Wrappers
  import opened Powers
  import opened StackBlocks

  /** The most a layout can need: its size, its back pointer, and the padding to align it. */
  function AllocSize(size: nat, align: nat): (n: nat)
    requires align > 0
    ensures n == size + if align > WORD then align else WORD
  {
    size + SaturatingSub(align, WORD) + WORD
  }

  function SaturatingSub(a: int, b: int): (r: nat)
    ensures r == 0 || r == a - b
  {
    if a <= b then 0 else a - b
  }

  /** The room between the lowest address in use and the end of a block. */
  ghost function Used(b: Block): int {
    b.End() - b.Low()
  }

  /**
   A block added for a request: it fits the request, is at least double the block behind it, and less
   than twice what was used there plus what is needed now. Its size is the one power of two between what
   the request and the block behind it, or else a header, need together and twice that.
   */
  ghost predicate GrowthOk(before: seq<Block>, chain: seq<Block>, size: nat, align: nat)
    requires align > 0
  {
    && chain != [] && SameBlocks(chain[1..], before)
    && IsPowerOfTwo(chain[0].size) && chain[0].size >= AllocSize(size, align) + HEADER
    && (before == [] ==> chain[0].size < 2 * (AllocSize(size, align) + HEADER))
    && (before != [] ==>
      && before[0].size + AllocSize(size, align) <= chain[0].size < 2 * (before[0].size + AllocSize(size, align))
      && 2 * before[0].size <= chain[0].size
      && chain[0].size < 2 * (Used(before[0]) + 2 * AllocSize(size, align) + HEADER))
  }

  /** The newest block has room for the request below its lowest region. */
  ghost predicate Fits(chain: seq<Block>, size: nat, align: nat)
    requires align > 0
  {
    chain != [] && chain[0].Low() - AllocSize(size, align) - chain[0].addr >= HEADER
  }

  /** The newest block has no live region, and once the newest region is forgotten the one behind it has none. */
  ghost predicate LeavesEmpty(chain: seq<Block>) {
    |chain| > 1 && chain[0].live == [] && |Popped(chain)| > 1 && Popped(chain)[1].live == []
  }

  /** The block behind the newest has gone, and once the newest region was forgotten nothing in it was live. */
  ghost predicate EmptyGivenBack(before: seq<Block>, chain: seq<Block>) {
    && |before| > 1 && |Popped(before)| > 1
    && SameBlocks(Unlinked(before), chain)
    && Popped(before)[1].live == []
  }

  class StackAllocator {
    var block: Option<int>
    var top: Option<int>
    var mem: Memory
    ghost var chain: seq<Block>

    /** The memory is what the chain says. */
    ghost predicate MemoryIs()
      reads this`mem, this`chain
    {
      Shape(chain) && MemOk(mem, chain) && Owns(mem, chain)
    }

    ghost predicate Valid()
      reads this
    {
      MemoryIs() && block == HeadOf(chain) && top == TopOf(Live())
    }

    /** The live regions, newest first. */
    ghost function Live(): seq<Region>
      reads this`chain
    {
      Flatten(chain)
    }

    constructor ()
      ensures Valid() && Live() == []
    {
      block, top, mem, chain := None, None, map[], [];
    }

    /** The address of the newest live region. */
    function Top(): (r: Option<int>)
      reads this
      requires Valid()
      ensures r == if Live() == [] then None else Some(Live()[0].res)
    {
      if top.None? then None else Some(top.value + WORD)
    }

    /** The size of a block as its header tells it. */
    function BlockSize(b: int): int
      requires b + WORD in mem && mem[b + WORD].Some?
      reads this`mem
    {
      mem[b + WORD].value - b
    }

    predicate WithinBlock(b: int, addr: int)
      requires b + WORD in mem && mem[b + WORD].Some?
      reads this`mem
    {
      b <= addr <= b + BlockSize(b)
    }

    /** A new region on top of all others; a block is added only if the newest is too small for it. */
    method AllocLayout(size: nat, align: nat) returns (res: int)
      requires Valid() && IsPowerOfTwo(align)
      modifies this
      ensures Valid() && Live() == [Region(res, size, align)] + old(Live())
      ensures if Fits(old(chain), size, align) then SameBlocks(chain, old(chain))
        else GrowthOk(old(chain), chain, size, align)
      ensures res > (if Fits(old(chain), size, align) then old(chain)[0].Low() else chain[0].End()) - AllocSize(size, align)
    {
      hide Shape, MemOk, Owns, Flatten;
      if block.None? {
        GrowInitial(size, align);
      }
      var b := block.value;
      HeadWords(mem, chain);
      var top_ptr := mem[b + WORD].value;
      if top.Some? && WithinBlock(b, top.value) {
        top_ptr := top.value;
      }
      HeadIsOwner(chain);
      HeadIsWord(chain);
      var needed := AllocSize(size, align);
      var remaining := SaturatingSub(SaturatingSub(top_ptr, needed), b);
      if remaining < HEADER {
        top_ptr := GrowAllocNewTop(size, align);
      }
      res := Place(top_ptr, size, align);
    }

    /** Carves the region out under `top_ptr` and writes its back pointer. */
    method Place(top_ptr: int, size: nat, align: nat) returns (res: int)
      requires Valid() && IsPowerOfTwo(align) && chain != []
      requires top_ptr == chain[0].Low() && top_ptr - AllocSize(size, align) - chain[0].addr >= HEADER
      modifies this`top, this`mem, this`chain
      ensures Valid() && Live() == [Region(res, size, align)] + old(Live())
      ensures SameBlocks(chain, old(chain)) && res > top_ptr - AllocSize(size, align)
    {
      hide Shape, MemOk, Owns, Flatten;
      var unit := if align > WORD then align else WORD;
      res := AlignDown(top_ptr - size, unit);
      ghost var r := Region(res, size, align);
      Aligned(res, size, align, unit);
      HeadIsWord(chain);
      assert res > chain[0].addr + HEADER;
      WordsApart(res, chain[0].addr);
      PushedKeeps(mem, chain, r);
      var new_top := res - WORD;
      mem := mem[new_top := top];
      top := Some(new_top);
      chain := Pushed(chain, r);
    }

    /**
     Forgets the newest region: `top` is again what it was before that region was made. A block is
     given back exactly when the newest block is empty and the one behind it is, or becomes so; it is
     that one, which need not be the one the region was in.
     */
    method PopDealloc()
      requires Valid() && Live() != []
      modifies this
      ensures Valid() && Live() == old(Live())[1..]
      ensures if LeavesEmpty(old(chain)) then EmptyGivenBack(old(chain), chain) else SameBlocks(old(chain), chain)
    {
      hide Shape, MemOk, Owns, Flatten, Popped;
      HeadWords(mem, chain);
      PoppedKeeps(mem, chain);
      PoppedShape(chain);
      PoppedFlatten(chain);
      PoppedBlocks(chain);
      HeldIsKept(mem, chain, Popped(chain));
      var t := top.value;
      var b := block.value;
      top := mem[t];
      HeadIsOwner(chain);
      if !WithinBlock(b, t) {
        HeadWords(mem, chain[1..]);
        var old_block := mem[b].value;
        chain := Popped(chain);
        SecondIsOwner(mem, chain);
        if top.None? || !WithinBlock(old_block, top.value) {
          UnlinkSecond(b, old_block);
        }
      } else {
        chain := Popped(chain);
      }
    }

    /** Takes the empty block behind the newest out of the chain and gives it back. */
    method UnlinkSecond(b: int, old_block: int)
      requires MemoryIs() && |chain| > 1 && chain[1].live == []
      requires b == chain[0].addr && old_block == chain[1].addr
      modifies this`mem, this`chain
      ensures MemoryIs() && chain == Unlinked(old(chain)) && Live() == old(Live())
    {
      hide Shape, MemOk, Owns, Flatten;
      SecondWords(mem, chain);
      ghost var before := mem;
      mem := mem[b := mem[old_block]];
      DeallocOldBlock(old_block);
      assert old_block + WORD in before;
      UnlinkedKeeps(before, mem, chain);
      chain := Unlinked(chain);
    }

    /** Gives the words of a block back to the system. */
    method DeallocOldBlock(b: int)
      requires b + WORD in mem && mem[b + WORD].Some?
      modifies this`mem
      ensures mem == map p | p in old(mem) && !(b <= p < b + old(BlockSize(b))) :: old(mem)[p]
    {
      var size := BlockSize(b);
      mem := map p | p in mem && !(b <= p < b + size) :: mem[p];
    }

    /** The first block. */
    method GrowInitial(size: nat, align: nat)
      requires Valid() && block.None? && align > 0
      modifies this`block, this`mem, this`chain
      ensures Valid() && block.Some? && Live() == old(Live()) && GrowthOk(old(chain), chain, size, align)
      ensures |chain| == 1 && chain[0].live == []
    {
      var required := AllocSize(size, align) + HEADER;
      var n := NextPowerOfTwo(required);
      LargePower(n);
      var b := AllocNewBlock(n);
      GrownKeeps(old(mem), mem, chain, b, n);
      block := Some(b);
      chain := Grown(chain, b, n);
    }

    /** A larger block in front of the newest; its end is where the next region goes under. */
    method GrowAllocNewTop(size: nat, align: nat) returns (last: int)
      requires Valid() && chain != [] && align > 0
      requires chain[0].Low() - AllocSize(size, align) - chain[0].addr < HEADER
      modifies this`block, this`mem, this`chain
      ensures Valid() && Live() == old(Live()) && GrowthOk(old(chain), chain, size, align)
      ensures chain[0].live == [] && last == chain[0].Low()
      ensures last - AllocSize(size, align) - chain[0].addr >= HEADER
    {
      hide MemOk, Owns, Flatten, IsPowerOfTwo, Held;
      HeadWords(mem, chain);
      ShapeAt(chain, 0);
      var required := AllocSize(size, align);
      var old_block := block.value;
      ghost var c := chain[0];
      assert Shape(chain);
      hide Shape;
      var n := NextPowerOfTwo(BlockSize(old_block) + required);
      PowersAreFarApart(c.size, n);
      var b := AllocNewBlock(n);
      mem := mem[b := Some(old_block)];
      EmptyBlockOk(b, n);
      GrownKeeps(old(mem), mem, chain, b, n);
      block := Some(b);
      chain := Grown(chain, b, n);
      last := b + n;
    }

    /** A block wherever the system places it, apart from all others, with a header. */
    method AllocNewBlock(size: nat) returns (b: int)
      requires MemoryIs() && IsPowerOfTwo(size) && size >= 2 * HEADER
      modifies this`mem
      ensures b > 0 && IsWord(b) && forall i :: 0 <= i < |chain| ==> Apart(Block(b, size, []), chain[i])
      ensures forall p :: p in mem <==> p in old(mem) || (IsWord(p) && b <= p < b + size)
      ensures forall p :: p in old(mem) ==> mem[p] == old(mem)[p]
      ensures Holds(mem, b, None) && Holds(mem, b + WORD, Some(b + size)) && b !in old(mem)
    {
      hide Shape, MemOk, Owns, IsPowerOfTwo;
      ghost var room := RoomForMore(chain);
      RoomIsFree(mem, chain, room, size);
      b :| b > 0 && b % WORD == 0 && forall p :: b <= p < b + size ==> p !in mem;
      FreeIsApart(mem, chain, b, size);
      var contents := AnyContents(WordsOf(b, size));
      HeaderWritten(mem, contents, b, size);
      mem := mem + contents;
      mem := mem[b := None][b + WORD := Some(b + size)];
    }

    /** Words the system hands over hold anything. */
    method AnyContents(words: set<int>) returns (contents: Memory)
      ensures contents.Keys == words
    {
      ghost var blank: Memory := map p | p in words :: None;
      assert blank.Keys == words;
      contents :| contents.Keys == words;
    }

    /** Users of the regions write into them as they like. */
    method Scribble(written: Memory)
      requires Valid() && written.Keys <= mem.Keys
      requires forall p :: p in written ==> TouchesLive(Live(), p)
      modifies this`mem
      ensures Valid() && mem == old(mem) + written
    {
      hide Shape, MemOk, Flatten, TouchesLive;
      mem := mem + written;
      ScribbledKeeps(old(mem), mem, chain);
    }

    /** Gives every block back, whatever is live. */
    method Drop()
      requires Valid()
      modifies this
      ensures mem == map[]
    {
      hide Shape, MemOk, Owns, Flatten;
      var cur := block;
      ghost var rest := chain;
      while cur.Some?
        invariant Shape(rest) && MemOk(mem, rest) && Owns(mem, rest) && cur == HeadOf(rest)
        decreases |rest|
      {
        HeadWords(mem, rest);
        var b := cur.value;
        cur := mem[b];
        ghost var before := mem;
        DeallocOldBlock(b);
        FirstGone(before, mem, rest);
        rest := rest[1..];
      }
      NothingHeld(mem);
    }
  }

  // What the methods need of the chain, one step at a time

  lemma {:induction false} HeadWords(mem: Memory, chain: seq<Block>)
    requires MemOk(mem, chain)
    ensures chain != [] ==>
      && Holds(mem, chain[0].addr, HeadOf(chain[1..]))
      && Holds(mem, chain[0].addr + WORD, Some(chain[0].End()))
      && MemOk(mem, chain[1..])
  {
  }

  lemma {:induction false} SecondWords(mem: Memory, chain: seq<Block>)
    requires Shape(chain) && MemOk(mem, chain) && |chain| > 1
    ensures chain[0].addr in mem
    ensures Holds(mem, chain[1].addr, HeadOf(chain[2..])) && Holds(mem, chain[1].addr + WORD, Some(chain[1].End()))
    ensures !chain[1].Spans(chain[0].addr) && chain[0].addr != chain[1].addr + WORD
  {
    assert chain[1..][0] == chain[1] && chain[1..][1..] == chain[2..];
    assert MemOk(mem, chain[1..]);
    ShapeIsEverywhere(chain);
    assert Apart(chain[0], chain[1]);
  }

  /** A block of words no one holds, with its header written. */
  lemma {:induction false} HeaderWritten(mem: Memory, contents: Memory, b: int, size: nat)
    requires contents.Keys == WordsOf(b, size) && b % WORD == 0 && size >= HEADER
    requires forall p :: b <= p < b + size ==> p !in mem
    ensures var mem' := (mem + contents)[b := None][b + WORD := Some(b + size)];
      && (forall p :: p in mem' <==> p in mem || (IsWord(p) && b <= p < b + size))
      && (forall p :: p in mem ==> mem'[p] == mem[p])
      && Holds(mem', b, None) && Holds(mem', b + WORD, Some(b + size)) && b !in mem
  {
    assert b in contents && b + WORD in contents && b !in mem;
    forall p
      ensures p in contents <==> IsWord(p) && b <= p < b + size
    {
      assert p in contents <==> p in WordsOf(b, size);
    }
  }

  /** The words of a span. */
  function WordsOf(b: int, size: nat): set<int> {
    set p: int | b <= p < b + size && p % WORD == 0
  }

  /** The test of `within_block` on the newest block tells whether the newest region is there. */
  lemma {:induction false} HeadIsOwner(chain: seq<Block>)
    requires Shape(chain) && chain != []
    ensures Flatten(chain) != [] ==> (Within(chain[0], Flatten(chain)[0].res - WORD) <==> chain[0].live != [])
    ensures chain[0].live != [] ==> TopOf(Flatten(chain)) == Some(chain[0].Low())
    ensures Flatten(chain) != [] && chain[0].live == [] ==> |chain| > 1 && Popped(chain)[0] == chain[0]
  {
    if Flatten(chain) != [] {
      WithinFindsOwner(chain, 0);
    }
  }

  /** The same test on the block behind it. */
  lemma {:induction false} SecondIsOwner(mem: Memory, chain: seq<Block>)
    requires Shape(chain) && MemOk(mem, chain) && |chain| > 1 && chain[0].live == []
    ensures Holds(mem, chain[1].addr + WORD, Some(chain[1].End()))
    ensures chain[1].live == [] <==>
      TopOf(Flatten(chain)).None? || !Within(chain[1], TopOf(Flatten(chain)).value)
  {
    SecondWords(mem, chain);
    if Flatten(chain) != [] {
      WithinFindsOwner(chain, 1);
    } else {
      EmptyBefore(chain);
    }
  }

  lemma {:induction false} HeadIsWord(chain: seq<Block>)
    requires Shape(chain) && chain != []
    ensures IsWord(chain[0].addr) && chain[0].addr > 0
  {
  }

  /** A result aligned as asked is also aligned to words. */
  lemma {:induction false} Aligned(res: int, size: nat, align: nat, unit: nat)
    requires IsPowerOfTwo(align) && unit == (if align > WORD then align else WORD) && res % unit == 0
    ensures AlignedAsAsked(Region(res, size, align))
  {
    assert IsPowerOfTwo(WORD);
    SmallerDivides(WORD, unit, res);
    SmallerDivides(align, unit, res);
  }

  /** Two words, one above the other, are at least a word apart. */
  lemma {:induction false} WordsApart(p: int, q: int)
    requires IsWord(p) && IsWord(q) && p > q + HEADER
    ensures p >= q + HEADER + WORD
  {
  }

  lemma {:induction false} EmptyBlockOk(b: int, n: nat)
    requires b > 0 && IsWord(b) && IsPowerOfTwo(n) && n >= 2 * HEADER
    ensures BlockOk(Block(b, n, []))
  {
  }

  /** A power of two with room for a header and a word more is at least two headers. */
  lemma {:induction false} LargePower(n: int)
    requires IsPowerOfTwo(n) && n > HEADER
    ensures n >= 2 * HEADER
  {
    assert IsPowerOfTwo(HEADER);
    PowersAreFarApart(HEADER, n);
  }

  lemma {:induction false} RoomIsFree(mem: Memory, chain: seq<Block>, room: int, size: nat)
    requires Owns(mem, chain) && forall i :: 0 <= i < |chain| ==> chain[i].End() <= room
    ensures forall p :: room <= p < room + size ==> p !in mem
  {
  }

  /** Memory that is not held is apart from every block. */
  lemma {:induction false} FreeIsApart(mem: Memory, chain: seq<Block>, b: int, size: nat)
    requires Shape(chain) && Owns(mem, chain) && IsWord(b) && size > 0
    requires forall p :: b <= p < b + size ==> p !in mem
    ensures forall i :: 0 <= i < |chain| ==> Apart(Block(b, size, []), chain[i])
  {
    ShapeIsEverywhere(chain);
    forall i | 0 <= i < |chain|
      ensures Apart(Block(b, size, []), chain[i])
    {
      var c := chain[i];
      var p := if b < c.addr then c.addr else b;
      if c.Spans(p) {
        assert Held(chain, p) && p in mem;
      }
    }
  }

  /** The same blocks hold the same memory. */
  lemma {:induction false} HeldIsKept(mem: Memory, chain: seq<Block>, chain': seq<Block>)
    requires Owns(mem, chain) && SameBlocks(chain, chain')
    ensures Owns(mem, chain')
  {
    SameSpans(chain, chain');
  }

  /** Giving back the newest block leaves the others as they were. */
  lemma {:induction false} FirstGone(mem: Memory, mem': Memory, chain: seq<Block>)
    requires Shape(chain) && MemOk(mem, chain) && Owns(mem, chain) && chain != []
    requires mem' == map p | p in mem && !chain[0].Spans(p) :: mem[p]
    ensures Shape(chain[1..]) && MemOk(mem', chain[1..]) && Owns(mem', chain[1..])
  {
    var rest := chain[1..];
    ShapeIsEverywhere(chain);
    forall p | Held(rest, p)
      ensures !chain[0].Spans(p)
    {
      var i :| 0 <= i < |rest| && rest[i].Spans(p);
      assert Apart(chain[0], chain[i + 1]);
    }
    forall p
      ensures Held(chain, p) <==> chain[0].Spans(p) || Held(rest, p)
    {
      HeldSplit(chain, p);
    }
    forall p | IsOwn(rest, p) && p in mem
      ensures Holds(mem', p, mem[p])
    {
      var i :| 0 <= i < |rest| && OwnOf(rest[i], p);
      assert rest[i] == chain[i + 1];
      OwnIsHeld(rest[i], p);
      assert Held(rest, p);
    }
    MemFrame(mem, mem', rest);
  }

  lemma {:induction false} NothingHeld(mem: Memory)
    requires Owns(mem, [])
    ensures mem == map[]
  {
    forall p
      ensures p !in mem
    {
      assert !Held([], p);
    }
  }
}
