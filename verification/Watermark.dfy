/** The contiguous watermark of a resident document and its ahead set
    (packages/sync/src/hocuspocus.ts, `#advanceWatermark`). */
module Watermark {

  /** Seqs 1..low are applied, and so are the parked seqs in `ahead`. */
  datatype Mark = Mark(low: nat, ahead: set<nat>) {
    predicate Has(k: nat) { 1 <= k <= low || k in ahead }
    /** The watermark cannot move: nothing parked touches it. */
    ghost predicate Tight() { forall a :: a in ahead ==> a > low + 1 }
  }

  function Drain(next: nat, ahead: set<nat>): Mark
    decreases |ahead|
  {
    if next + 1 in ahead then Drain(next + 1, ahead - {next + 1}) else Mark(next, ahead)
  }

  function Advance(m: Mark, num: nat): Mark {
    if num <= m.low then m
    else if num > m.low + 1 then Mark(m.low, m.ahead + {num})
    else Drain(num, m.ahead)
  }

  function AdvanceAll(m: Mark, nums: seq<nat>): Mark
    decreases |nums|
  {
    if nums == [] then m else Advance(AdvanceAll(m, nums[..|nums| - 1]), nums[|nums| - 1])
  }

  lemma {:induction false} DrainKeeps(next: nat, ahead: set<nat>)
    requires forall a :: a in ahead ==> a > next
    ensures Drain(next, ahead).Tight() && Drain(next, ahead).low >= next
    ensures forall k: nat :: Drain(next, ahead).Has(k) <==> 1 <= k <= next || k in ahead
    decreases |ahead|
  {
    if next + 1 in ahead {
      DrainKeeps(next + 1, ahead - {next + 1});
    }
  }

  /** Recording `num` adds exactly `num` to the applied seqs, and the mark stays tight. */
  lemma AdvanceAdds(m: Mark, num: nat)
    requires m.Tight()
    ensures Advance(m, num).Tight()
    ensures forall k: nat :: Advance(m, num).Has(k) <==> m.Has(k) || (k == num && num >= 1)
    ensures Advance(m, num).low >= m.low
  {
    if num == m.low + 1 {
      DrainKeeps(num, m.ahead);
    }
  }

  lemma {:induction false} AdvanceAllAdds(m: Mark, nums: seq<nat>)
    requires m.Tight()
    ensures AdvanceAll(m, nums).Tight()
    ensures forall k: nat :: AdvanceAll(m, nums).Has(k) <==> m.Has(k) || (k in nums && k >= 1)
    decreases |nums|
  {
    if nums != [] {
      var front, last := nums[..|nums| - 1], nums[|nums| - 1];
      AdvanceAllAdds(m, front);
      AdvanceAdds(AdvanceAll(m, front), last);
      assert nums == front + [last];
    }
  }

  /** The law, for any order and repetition of calls after a hydration up to `hydrated`: the
      watermark is the largest k with 1..k all applied, and the ahead set is the applied seqs above. */
  lemma WatermarkLaw(hydrated: nat, nums: seq<nat>)
    ensures var m := AdvanceAll(Mark(hydrated, {}), nums);
            (forall k :: 1 <= k <= m.low ==> k <= hydrated || k in nums) &&
            m.low + 1 > hydrated && m.low + 1 !in nums &&
            m.ahead == set k | k in nums && k > m.low
  {
    var m := AdvanceAll(Mark(hydrated, {}), nums);
    AdvanceAllAdds(Mark(hydrated, {}), nums);
    forall k | 1 <= k <= m.low ensures k <= hydrated || k in nums { assert m.Has(k); }
    assert !m.Has(m.low + 1);
    if hydrated >= m.low + 1 { assert Mark(hydrated, {}).Has(m.low + 1); }
    forall k: nat ensures k in m.ahead <==> k in nums && k > m.low {
      assert m.Has(k) <==> Mark(hydrated, {}).Has(k) || (k in nums && k >= 1);
    }
  }

  /** Once all n committed seqs are applied, in any order, the watermark is n and nothing is parked. */
  lemma CaughtUp(hydrated: nat, nums: seq<nat>, n: nat)
    requires hydrated <= n && forall k :: k in nums ==> k <= n
    ensures AdvanceAll(Mark(hydrated, {}), nums) == Mark(n, {})
       <==> forall k :: hydrated < k <= n ==> k in nums
  {
    WatermarkLaw(hydrated, nums);
    var m := AdvanceAll(Mark(hydrated, {}), nums);
    if forall k :: hydrated < k <= n ==> k in nums {
      assert m.low + 1 > n;
      assert m.low == 0 || m.low <= hydrated || m.low in nums;
      assert m.ahead == {};
    }
  }
}
