/**
 * The input handler's cache (VC_IH_cache with VC_IH_cache_pos and
 * VC_IH_cache_stored): a 4096-slot ring whose cursor points at the most
 * recently written slot. Writing advances the cursor and reading steps it
 * back, so the cache is a stack: the last word pushed is the first one read.
 */
module InputStack {
  import opened Words

  datatype InputCache = InputCache(slots: seq<Word>, pos: Addr, stored: nat) {
    predicate Valid() {
      |slots| == RamSize
    }
  }

  /** The cache before anything is pushed: all zero, cursor 0, nothing stored. */
  function EmptyCache(): (c: InputCache)
    ensures c.Valid() && c.stored == 0
  {
    InputCache(seq(RamSize, _ => 0), 0, 0)
  }

  /**
   * A write to the input handler: advance the cursor (4095 wraps to 0), store the
   * word there and count it. Nothing checks for a full cache: a 4097th word
   * overwrites the oldest slot.
   */
  function Push(c: InputCache, word: Word): (r: InputCache)
    requires c.Valid()
    ensures r.Valid()
    ensures r.pos == (c.pos + 1) % RamSize && r.stored == c.stored + 1
    ensures r.slots[r.pos] == word
    ensures forall i :: 0 <= i < RamSize && i != r.pos ==> r.slots[i] == c.slots[i]
  {
    var pos := if c.pos + 1 >= 4096 then 0 else c.pos + 1;
    InputCache(c.slots[pos := word], pos, c.stored + 1)
  }

  /**
   * A read from the input handler: with nothing stored it yields 0 and changes
   * nothing; otherwise it yields the word under the cursor, steps the cursor
   * back (0 wraps to 4095) and uncounts the word. The slot itself is not cleared.
   */
  function Pop(c: InputCache): (r: (Word, InputCache))
    requires c.Valid()
    ensures r.1.Valid()
    ensures c.stored == 0 ==> r == (0, c)
    ensures c.stored != 0 ==>
              && r.0 == c.slots[c.pos] && r.1.slots == c.slots
              && r.1.pos == (c.pos - 1) % RamSize && r.1.stored == c.stored - 1
  {
    if c.stored != 0 then
      var pos := if c.pos - 1 < 0 then 4095 else c.pos - 1;
      (c.slots[c.pos], c.(pos := pos, stored := c.stored - 1))
    else
      (0, c)
  }

  /**
   * The words a cache holding at most 4096 of them would yield, last one first
   * read: the `stored` slots ending at the cursor, oldest first.
   */
  function StackView(c: InputCache): (s: seq<Word>)
    requires c.Valid() && c.stored <= RamSize
    ensures |s| == c.stored
  {
    seq(c.stored, j requires 0 <= j < c.stored => c.slots[(c.pos - c.stored + 1 + j) % RamSize])
  }

  /** Push then pop gives back the pushed word, with cursor and count as they were. */
  lemma PushThenPop(c: InputCache, word: Word)
    requires c.Valid()
    ensures Pop(Push(c, word)) == (word, c.(slots := Push(c, word).slots))
  {
  }

  /** Pushing onto a cache that is not full puts the word on top of the stack. */
  lemma PushOntoStack(c: InputCache, word: Word)
    requires c.Valid() && c.stored < RamSize
    ensures StackView(Push(c, word)) == StackView(c) + [word]
  {
    var r := Push(c, word);
    var n := c.stored;
    forall j | 0 <= j < n
      ensures StackView(r)[j] == StackView(c)[j]
    {
      var k := (c.pos - n + 1 + j) % RamSize;
      assert (r.pos - (n + 1) + 1 + j) % RamSize == k;
      // the slot of an older word is never the new cursor: they are n - j apart, 0 < n - j < 4096
      assert k != r.pos;
    }
    assert StackView(r)[n] == word;
  }

  /** Popping a non-empty stack yields its top word and leaves the words below it. */
  lemma PopOffStack(c: InputCache)
    requires c.Valid() && 0 < c.stored <= RamSize
    ensures Pop(c).0 == StackView(c)[c.stored - 1]
    ensures StackView(Pop(c).1) == StackView(c)[..c.stored - 1]
  {
    var r := Pop(c).1;
    var n := c.stored;
    forall j | 0 <= j < n - 1
      ensures StackView(r)[j] == StackView(c)[j]
    {
      assert (r.pos - (n - 1) + 1 + j) % RamSize == (c.pos - n + 1 + j) % RamSize;
    }
  }

  /** Two writes then two reads leave the readable words as they were, while the two writes fit without overwriting any of them. */
  lemma PushTwicePopTwice(c: InputCache, first: Word, second: Word)
    requires c.Valid() && c.stored <= RamSize - 2
    ensures var (_, c1) := Pop(Push(Push(c, first), second));
            var (_, c2) := Pop(c1);
            StackView(c2) == StackView(c)
  {
    var p1 := Push(c, first);
    var p2 := Push(p1, second);
    PushOntoStack(c, first);
    PushOntoStack(p1, second);
    PopOffStack(p2);
    var d1 := Pop(p2).1;
    assert StackView(d1) == StackView(c) + [first] by {
      assert StackView(p2)[..p2.stored - 1] == StackView(c) + [first];
    }
    PopOffStack(d1);
    assert StackView(d1)[..d1.stored - 1] == StackView(c);
  }

  /** Two words pushed on an empty cache come back newest first, then reads yield 0. */
  lemma LastInFirstOut(c: InputCache, first: Word, second: Word)
    requires c.Valid() && c.stored == 0
    ensures var (x, c1) := Pop(Push(Push(c, first), second));
            var (y, c2) := Pop(c1);
            var (z, c3) := Pop(c2);
            && x == second && y == first && z == 0 && c3 == c2
            && c2.pos == c.pos && c2.stored == c.stored
  {
    var c1 := Push(c, first);
    var c2 := Push(c1, second);
    PushOntoStack(c, first);
    PushOntoStack(c1, second);
    PopOffStack(c2);
    PopOffStack(Pop(c2).1);
  }
}
