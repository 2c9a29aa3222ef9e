/** Positions in an event stream: 64-bit, saturating instead of wrapping. */
module SeqNos {
  const U64_MAX: nat := 0xFFFF_FFFF_FFFF_FFFF

  /** More events than any store holds under one id: one per value of a non-negative BIGINT. */
  const STREAM_LIMIT: nat := 0x8000_0000_0000_0000

  type SeqNo = n: nat | n <= U64_MAX

  function AdvancedBy(n: SeqNo, count: nat): SeqNo {
    if n + count <= U64_MAX then n + count else U64_MAX
  }

  function Succ(n: SeqNo): SeqNo {
    if n + 1 <= U64_MAX then n + 1 else U64_MAX
  }

  /** The position reached by `count` single-event successions. */
  ghost function Iterated(n: SeqNo, count: nat): SeqNo
    decreases count
  {
    if count == 0 then n else Iterated(Succ(n), count - 1)
  }

  /** Positions move on by exactly the count, stop at the largest one and never move back. */
  lemma AdvancedBySaturates(n: SeqNo, count: nat)
    ensures n <= AdvancedBy(n, count) <= n + count
    ensures AdvancedBy(n, count) < n + count ==> AdvancedBy(n, count) == U64_MAX
    ensures Succ(n) == AdvancedBy(n, 1)
  {
  }

  /** Advancing by a count lands where that many successive appends would, also at the end. */
  lemma {:induction false} AdvancedByIsIteratedSucc(n: SeqNo, count: nat)
    ensures AdvancedBy(n, count) == Iterated(n, count)
    decreases count
  {
    if count > 0 {
      AdvancedByIsIteratedSucc(Succ(n), count - 1);
    }
  }
}
