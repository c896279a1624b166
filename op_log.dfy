/**
 * The operation log: a ring of 4096 four-word entries (opLog) written at
 * slot opCount, the counter that wraps to 0 and raises opOverflow, and the
 * order in which VC_updateLog visits the slots when it dumps them.
 */
module OpLog {
  import opened Words

  /**
   * One slot of opLog: [0] the instruction address, [1] the opcode, [2] and [3]
   * opcode-specific values. A step writes only the fields its opcode uses; the
   * others keep what an earlier step left in the slot.
   */
  datatype LogEntry = LogEntry(iar: int, opcode: int, field2: int, field3: int)

  /** A log of 4096 zeroed slots, as the global array starts. */
  function EmptyLog(): (log: seq<LogEntry>)
    ensures |log| == RamSize
  {
    seq(RamSize, _ => LogEntry(0, 0, 0, 0))
  }

  /** Field `k` (0 to 3) of a slot, as `opLog[slot][k]` reads it. */
  function Field(e: LogEntry, k: int): int
    requires 0 <= k < 4
  {
    if k == 0 then e.iar else if k == 1 then e.opcode else if k == 2 then e.field2 else e.field3
  }

  /** Slot `e` with field `field` (0 to 3) set to `value`, as `opLog[slot][field] = value` does. */
  function SetField(e: LogEntry, field: int, value: int): (r: LogEntry)
    requires 0 <= field < 4
    ensures forall k :: 0 <= k < 4 ==> Field(r, k) == if k == field then value else Field(e, k)
  {
    if field == 0 then e.(iar := value)
    else if field == 1 then e.(opcode := value)
    else if field == 2 then e.(field2 := value)
    else e.(field3 := value)
  }

  /** The counter update at the end of every step: reaching 4096 resets to 0 and sets the overflow flag. */
  function NextCount(count: Addr, overflow: bool): (r: (Addr, bool))
    ensures r.0 == (count + 1) % RamSize
    ensures r.1 <==> overflow || count == RamSize - 1
  {
    if count + 1 >= RamSize then (0, true) else (count + 1, overflow)
  }

  /** Counter and overflow flag after n steps from the initial (0, false). */
  function CountAfter(n: nat): (Addr, bool) {
    if n == 0 then (0, false) else NextCount(CountAfter(n - 1).0, CountAfter(n - 1).1)
  }

  /** After n steps the counter is n mod 4096, and the overflow flag says whether 4096 steps were reached. */
  lemma {:induction false} CountAfterSteps(n: nat)
    ensures CountAfter(n) == (n % RamSize, n >= RamSize)
  {
    if n > 0 {
      CountAfterSteps(n - 1);
      SuccessorMod(n - 1);
    }
  }

  /** The counter's successor modulo 4096 wraps from 4095 to 0. */
  lemma SuccessorMod(k: nat)
    ensures (k + 1) % RamSize == if k % RamSize == RamSize - 1 then 0 else k % RamSize + 1
  {
  }

  /** The integers lo, lo + 1, ..., hi - 1. */
  function Range(lo: int, hi: int): (s: seq<int>)
    requires lo <= hi
    ensures |s| == hi - lo && forall i :: 0 <= i < |s| ==> s[i] == lo + i
  {
    seq(hi - lo, i => lo + i)
  }

  /**
   * The slots VC_updateLog visits, in order: without overflow 0 .. count - 1;
   * with overflow the oldest surviving slot `count` up to 4095, then 0 .. count - 1.
   */
  function LogOrder(count: Addr, overflow: bool): (order: seq<int>)
    ensures |order| == if overflow then RamSize else count
    ensures forall k :: 0 <= k < |order| ==> 0 <= order[k] < RamSize
  {
    if overflow then Range(count, RamSize) + Range(0, count) else Range(0, count)
  }

  /** The entries a dump writes out, one per visited slot, in visiting order. */
  function Dump(log: seq<LogEntry>, order: seq<int>): (entries: seq<LogEntry>)
    requires forall k :: 0 <= k < |order| ==> 0 <= order[k] < |log|
    ensures |entries| == |order| && forall k :: 0 <= k < |order| ==> entries[k] == log[order[k]]
  {
    seq(|order|, k requires 0 <= k < |order| => log[order[k]])
  }

  /** Once the log has wrapped, the dump visits every one of the 4096 slots exactly once. */
  lemma WrappedOrderVisitsEverySlotOnce(count: Addr)
    ensures |LogOrder(count, true)| == RamSize
    ensures forall k :: 0 <= k < RamSize ==> k in LogOrder(count, true)
    ensures forall i, j :: 0 <= i < j < RamSize ==> LogOrder(count, true)[i] != LogOrder(count, true)[j]
  {
    var order := LogOrder(count, true);
    forall k | 0 <= k < RamSize
      ensures k in order
    {
      if k >= count {
        assert order[k - count] == k;
      } else {
        assert order[RamSize - count + k] == k;
      }
    }
  }

  /**
   * After n steps from the start, the dump lists the slots of the last
   * min(n, 4096) steps oldest first: its j-th slot is where step
   * n - |order| + j (counting from 0) wrote its entry.
   */
  lemma DumpIsOldestFirst(n: nat)
    ensures var order := LogOrder(CountAfter(n).0, CountAfter(n).1);
            && |order| == (if n < RamSize then n else RamSize)
            && forall j :: 0 <= j < |order| ==> order[j] == (n - |order| + j) % RamSize
  {
    CountAfterSteps(n);
    var count := n % RamSize;
    var order := LogOrder(count, n >= RamSize);
    if n >= RamSize {
      forall j | 0 <= j < RamSize
        ensures order[j] == (n - RamSize + j) % RamSize
      {
        var base := n - count;
        assert base % RamSize == 0;
        if j < RamSize - count {
          assert n - RamSize + j == (base - RamSize) + (count + j);
        } else {
          assert n - RamSize + j == base + (j - (RamSize - count));
        }
      }
    }
  }
}
