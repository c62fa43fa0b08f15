/** The identifiers the fleet builds from strings and counters. */
module Names {
  import opened Numerals

  const REGIONS: seq<string> := ["us-west", "us-east", "midwest", "south", "northeast"]

  function DispatchId(region: string): string { "dispatch-" + region }

  function SettlementId(orderId: string): string { "settle-" + orderId }

  function OrderWorkflowId(orderId: string): string { "order-" + orderId }

  function CandidateId(batchId: string, n: nat): string { "cand-" + batchId + "-" + Print(n) }

  /** The courier a region makes up when its pool is empty. */
  function SyntheticCourier(region: string, serial: nat): string {
    "synthetic-" + region + "-" + Print(serial)
  }

  /** The courier an order makes up when nobody answered in time. */
  function FallbackCourier(orderId: string): (name: string)
    ensures |name| == 10 + if |orderId| <= 8 then |orderId| else 8
    ensures forall k :: 0 <= k < |name| - 10 ==> name[10 + k] == orderId[k]
  {
    "synthetic-" + if |orderId| <= 8 then orderId else orderId[..8]
  }

  /** The id of the generator's n-th courier shift. */
  function CourierName(sequence: nat, suffix: string): string { Print(sequence) + "-" + suffix }

  lemma PrefixCancels(p: string, a: string, b: string)
    requires p + a == p + b
    ensures a == b
  {
    assert (p + a)[|p|..] == a && (p + b)[|p|..] == b;
  }

  lemma DispatchIdInjective(r: string, s: string)
    requires DispatchId(r) == DispatchId(s)
    ensures r == s
  {
    PrefixCancels("dispatch-", r, s);
  }

  lemma OrderWorkflowIdInjective(a: string, b: string)
    requires OrderWorkflowId(a) == OrderWorkflowId(b)
    ensures a == b
  {
    PrefixCancels("order-", a, b);
  }

  /** Children of different batches, or of one batch, never share a workflow id;
      hyphens in the batch id do no harm, since the index is read off the end. */
  lemma CandidateIdInjective(a: string, m: nat, b: string, n: nat)
    requires CandidateId(a, m) == CandidateId(b, n)
    ensures a == b && m == n
  {
    SuffixSplits("cand-" + a, m, "cand-" + b, n);
    PrefixCancels("cand-", a, b);
  }

  lemma SyntheticCourierInjective(r: string, m: nat, s: string, n: nat)
    requires SyntheticCourier(r, m) == SyntheticCourier(s, n)
    ensures r == s && m == n
  {
    SuffixSplits("synthetic-" + r, m, "synthetic-" + s, n);
    PrefixCancels("synthetic-", r, s);
  }

  lemma CourierNameInjective(m: nat, a: string, n: nat, b: string)
    requires CourierName(m, a) == CourierName(n, b)
    ensures m == n && a == b
  {
    PrefixSplits(m, a, n, b);
  }

  lemma SettlementIdInjective(a: string, b: string)
    requires SettlementId(a) == SettlementId(b)
    ensures a == b
  {
    PrefixCancels("settle-", a, b);
  }

  /** The ids as the rest of the fleet spells them. */
  lemma IdsAreSpelled()
    ensures DispatchId("us-west") == "dispatch-us-west"
    ensures SettlementId("4f2a") == "settle-4f2a" && OrderWorkflowId("4f2a") == "order-4f2a"
    ensures CandidateId("b7", 31) == "cand-b7-31" && SyntheticCourier("south", 7) == "synthetic-south-7"
    ensures CourierName(12, "c0ffee") == "12-c0ffee" && FallbackCourier("0123456789ab") == "synthetic-01234567"
  {
    assert Print(31) == "31" && Print(7) == "7" && Print(12) == "12";
    assert "0123456789ab"[..8] == "01234567";
  }
}
