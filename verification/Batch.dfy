/** The batch fan-out: how many children, under which ids, and who wins. */
module Batch {
  import opened Numerals
  import opened Names

  const NORMAL_MAX_CHILDREN: int := 8

  datatype Mode = Normal | FanoutStorm | SequentialBloat

  datatype Input = Input(batchId: string, mode: Mode, children: int, iterations: int)

  datatype Result =
    | Iterated(iterations: int)
    | Winners(mode: Mode, children: int, winners: seq<nat>)

  function EffectiveFanout(inp: Input): int {
    match inp.mode
    case SequentialBloat => 0
    case FanoutStorm => inp.children
    case Normal => if inp.children < NORMAL_MAX_CHILDREN then inp.children else NORMAL_MAX_CHILDREN
  }

  // ----- scoring

  function OrdSum(s: string): nat
    decreases |s|
  {
    if s == [] then 0 else OrdSum(s[..|s| - 1]) + s[|s| - 1] as nat
  }

  /** The score in hundredths: dividing by 100 keeps the order. */
  function Score(candidate: string): (r: nat)
    ensures r < 100
  {
    OrdSum(candidate) % 100
  }

  function CandidateScore(i: nat): (r: nat)
    ensures r < 100
  {
    Score("c" + Print(i))
  }

  // ----- ranking

  /** `i` ranks before `j`: a better score, or the same score and an earlier index. */
  predicate Before(scores: seq<nat>, i: nat, j: nat)
    requires i < |scores| && j < |scores|
  {
    scores[i] > scores[j] || (scores[i] == scores[j] && i < j)
  }

  /** A stable sort in descending order inserts each index behind its equals. */
  function Insert(scores: seq<nat>, ranked: seq<nat>, i: nat): (r: seq<nat>)
    requires i < |scores| && forall k :: 0 <= k < |ranked| ==> ranked[k] < |scores|
    ensures forall k :: 0 <= k < |r| ==> r[k] < |scores|
    decreases |ranked|
  {
    if ranked == [] || scores[i] > scores[ranked[0]] then [i] + ranked
    else [ranked[0]] + Insert(scores, ranked[1..], i)
  }

  function Ranked(scores: seq<nat>, n: nat): (r: seq<nat>)
    requires n <= |scores|
    ensures forall k :: 0 <= k < |r| ==> r[k] < |scores|
  {
    if n == 0 then [] else Insert(scores, Ranked(scores, n - 1), n - 1)
  }

  function TopThree(scores: seq<nat>): seq<nat> {
    var ranked := Ranked(scores, |scores|);
    if |ranked| <= 3 then ranked else ranked[..3]
  }

  ghost predicate Ordered(scores: seq<nat>, ranked: seq<nat>)
  {
    && (forall k :: 0 <= k < |ranked| ==> ranked[k] < |scores|)
    && (forall a, b :: 0 <= a < b < |ranked| ==> Before(scores, ranked[a], ranked[b]))
  }

  lemma {:induction false} InsertMembers(scores: seq<nat>, ranked: seq<nat>, i: nat, x: nat)
    requires i < |scores| && forall k :: 0 <= k < |ranked| ==> ranked[k] < |scores|
    ensures |Insert(scores, ranked, i)| == |ranked| + 1
    ensures x in Insert(scores, ranked, i) <==> x in ranked || x == i
    decreases |ranked|
  {
    if ranked == [] || scores[i] > scores[ranked[0]] {
    } else {
      InsertMembers(scores, ranked[1..], i, x);
      assert ranked == [ranked[0]] + ranked[1..];
    }
  }

  lemma {:induction false} InsertOrdered(scores: seq<nat>, ranked: seq<nat>, i: nat)
    requires i < |scores| && Ordered(scores, ranked)
    requires forall k :: 0 <= k < |ranked| ==> ranked[k] < i
    ensures Ordered(scores, Insert(scores, ranked, i))
    decreases |ranked|
  {
    if ranked == [] || scores[i] > scores[ranked[0]] {
    } else {
      var rest := ranked[1..];
      InsertOrdered(scores, rest, i);
      var tail := Insert(scores, rest, i);
      forall k | 0 <= k < |tail|
        ensures Before(scores, ranked[0], tail[k])
      {
        InsertMembers(scores, rest, i, tail[k]);
      }
    }
  }

  lemma {:induction false} RankedMembers(scores: seq<nat>, n: nat, x: nat)
    requires n <= |scores|
    ensures |Ranked(scores, n)| == n
    ensures x in Ranked(scores, n) <==> x < n
  {
    if n == 0 {
    } else {
      RankedMembers(scores, n - 1, x);
      InsertMembers(scores, Ranked(scores, n - 1), n - 1, x);
    }
  }

  lemma {:induction false} RankedOrdered(scores: seq<nat>, n: nat)
    requires n <= |scores|
    ensures Ordered(scores, Ranked(scores, n))
  {
    if n == 0 {
    } else {
      var earlier := Ranked(scores, n - 1);
      RankedOrdered(scores, n - 1);
      forall k | 0 <= k < |earlier|
        ensures earlier[k] < n - 1
      {
        RankedMembers(scores, n - 1, earlier[k]);
      }
      InsertOrdered(scores, earlier, n - 1);
    }
  }

  /** The sort is the stable descending order of all indices, each once. */
  lemma RankedIsStableOrder(scores: seq<nat>, ranked: seq<nat>)
    requires ranked == Ranked(scores, |scores|)
    ensures Ordered(scores, ranked) && |ranked| == |scores|
    ensures forall i: nat :: i in ranked <==> i < |scores|
  {
    RankedOrdered(scores, |scores|);
    RankedMembers(scores, |scores|, 0);
    forall i: nat
      ensures i in ranked <==> i < |scores|
    {
      RankedMembers(scores, |scores|, i);
    }
  }

  /** Ranked winners, and nobody left out who ranks before one of them. */
  ghost predicate AreBest(scores: seq<nat>, w: seq<nat>) {
    && Ordered(scores, w)
    && forall j, k :: 0 <= j < |scores| && j !in w && 0 <= k < |w| ==> Before(scores, w[k], j)
  }

  /** The winners are distinct candidates in rank order, three or all of them, and
      every candidate left out ranks behind every winner. */
  lemma WinnersAreTheBest(scores: seq<nat>)
    ensures AreBest(scores, TopThree(scores))
    ensures |TopThree(scores)| == if |scores| < 3 then |scores| else 3
  {
    var ranked, w := Ranked(scores, |scores|), TopThree(scores);
    RankedIsStableOrder(scores, ranked);
    assert forall q :: 0 <= q < |w| ==> w[q] == ranked[q];
    forall j, k | 0 <= j < |scores| && j !in w && 0 <= k < |w|
      ensures Before(scores, w[k], j)
    {
      assert j in ranked;
      var p :| 0 <= p < |ranked| && ranked[p] == j;
      assert p >= |w|;
    }
  }

  lemma OthersFollow(scores: seq<nat>, w: seq<nat>, k: nat, x: nat)
    requires AreBest(scores, w) && k < |w| && x < |scores| && x !in w[..k]
    ensures x == w[k] || Before(scores, w[k], x)
  {
    if x in w {
      var p :| 0 <= p < |w| && w[p] == x;
      assert p >= k by {
        assert forall q :: 0 <= q < k ==> w[..k][q] == w[q];
      }
    }
  }

  /** Being the best determines the winners. */
  lemma {:induction false} WinnersAreUnique(scores: seq<nat>, w: seq<nat>, k: nat)
    requires AreBest(scores, w) && |w| == |TopThree(scores)| && k <= |w|
    ensures TopThree(scores)[..k] == w[..k]
    decreases k
  {
    var t := TopThree(scores);
    WinnersAreTheBest(scores);
    if k > 0 {
      var i := k - 1;
      WinnersAreUnique(scores, w, i);
      NoRepeats(scores, t, i);
      NoRepeats(scores, w, i);
      OthersFollow(scores, t, i, w[i]);
      OthersFollow(scores, w, i, t[i]);
      assert t[..k] == t[..i] + [t[i]] && w[..k] == w[..i] + [w[i]];
    }
  }

  lemma NoRepeats(scores: seq<nat>, w: seq<nat>, i: nat)
    requires Ordered(scores, w) && i < |w|
    ensures w[i] !in w[..i]
  {
    assert forall q :: 0 <= q < i ==> w[..i][q] == w[q] && Before(scores, w[q], w[i]);
  }

  // ----- the closed form

  function Collect(n: nat, f: nat -> nat): (r: seq<nat>)
    ensures |r| == n && forall i :: 0 <= i < n ==> r[i] == f(i)
  {
    seq(n, (i: nat) => f(i))
  }

  function CandidateScores(n: nat): seq<nat> {
    Collect(n, CandidateScore)
  }

  lemma OrdSumAppend(s: string, c: char)
    ensures OrdSum(s + [c]) == OrdSum(s) + c as nat
  {
    assert (s + [c])[..|s|] == s;
  }

  function DigitSum(n: nat): nat {
    if n < 10 then n else DigitSum(n / 10) + n % 10
  }

  lemma {:induction false} OrdSumOfNumeral(s: string, n: nat)
    ensures OrdSum(s + Print(n)) == OrdSum(s) + 48 * |Print(n)| + DigitSum(n)
    decreases n
  {
    if n < 10 {
      OrdSumAppend(s, Digit(n));
    } else {
      OrdSumOfNumeral(s, n / 10);
      assert s + Print(n) == (s + Print(n / 10)) + [Digit(n % 10)];
      OrdSumAppend(s + Print(n / 10), Digit(n % 10));
    }
  }

  /** A candidate's score comes from its index's digits. */
  lemma ScoreIsDigitSum(n: nat)
    ensures CandidateScore(n) == (99 + 48 * |Print(n)| + DigitSum(n)) % 100
  {
    OrdSumAppend("", 'c');
    assert "" + ['c'] == "c";
    OrdSumOfNumeral("c", n);
  }

  lemma SmallScores(n: nat)
    ensures n < 10 ==> CandidateScore(n) == 47 + n
    ensures 10 <= n < 100 ==> CandidateScore(n) == (95 + n / 10 + n % 10) % 100
  {
    ScoreIsDigitSum(n);
    if 10 <= n < 100 {
      assert |Print(n)| == 2;
      assert DigitSum(n) == n / 10 + n % 10;
    }
  }

  lemma TopScores(i: nat)
    requires i < 32
    ensures CandidateScore(i) <= 99 && (CandidateScore(i) == 99 <==> i == 13 || i == 22 || i == 31)
  {
    SmallScores(i);
    if i < 20 {
    } else if i < 30 {
    } else {
    }
  }

  lemma FirstBestAreBest(scores: seq<nat>, a: nat, b: nat, c: nat)
    requires a < b < c < |scores| && scores[a] == scores[b] == scores[c]
    requires forall j :: 0 <= j < |scores| ==> scores[j] <= scores[c]
    requires forall j :: 0 <= j < c && scores[j] == scores[c] ==> j == a || j == b
    ensures AreBest(scores, [a, b, c])
  {
    var w := [a, b, c];
    forall j, k | 0 <= j < |scores| && j !in w && 0 <= k < 3
      ensures Before(scores, w[k], j)
    {
      assert j != w[0] && j != w[1] && j != w[2];
    }
  }

  /** Every batch of at least 32 children, however large, is won by 13, 22 and
      31: their digits add to four, which scores 99, the most there is. */
  lemma StormWinners(n: nat)
    requires n >= 32
    ensures TopThree(CandidateScores(n)) == [13, 22, 31]
  {
    var scores, w := CandidateScores(n), [13, 22, 31];
    forall i | 0 <= i < 32
      ensures scores[i] == 99 <==> i == 13 || i == 22 || i == 31
    {
      TopScores(i);
    }
    FirstBestAreBest(scores, 13, 22, 31);
    WinnersAreTheBest(scores);
    WinnersAreUnique(scores, w, 3);
    assert TopThree(scores)[..3] == TopThree(scores) && w[..3] == w;
  }

  lemma LastThreeAreBest(scores: seq<nat>)
    requires |scores| >= 3 && forall i, j :: 0 <= i < j < |scores| ==> scores[i] < scores[j]
    ensures AreBest(scores, [|scores| - 1, |scores| - 2, |scores| - 3])
  {
    var n := |scores|;
    var w := [n - 1, n - 2, n - 3];
    forall j, k | 0 <= j < n && j !in w && 0 <= k < 3
      ensures Before(scores, w[k], j)
    {
      assert j != w[0] && j != w[1] && j != w[2];
    }
  }

  /** A healthy batch, of three to eight children, is won by the last three. */
  lemma NormalWinners(n: nat)
    requires 3 <= n <= 8
    ensures TopThree(CandidateScores(n)) == [n - 1, n - 2, n - 3]
  {
    var scores, w := CandidateScores(n), [n - 1, n - 2, n - 3];
    forall i, j | 0 <= i < j < n
      ensures scores[i] < scores[j]
    {
      SmallScores(i);
      SmallScores(j);
    }
    LastThreeAreBest(scores);
    WinnersAreTheBest(scores);
    WinnersAreUnique(scores, w, 3);
    assert TopThree(scores)[..3] == TopThree(scores) && w[..3] == w;
  }

  // ----- the workflow

  /** Runs one batch. `childScores` stands for what the children return; the ids
      under which they were started and the candidates evaluated one by one are
      reported alongside the result. */
  method Run(inp: Input, childScores: nat -> nat) returns (r: Result, started: seq<string>, evaluated: seq<int>)
    ensures inp.mode.SequentialBloat? ==> started == []
    ensures inp.mode.FanoutStorm? ==> |started| == if inp.children < 0 then 0 else inp.children
    ensures inp.mode.Normal? ==>
              |started| == if inp.children < 0 then 0 else if inp.children < 8 then inp.children else 8
    ensures forall k :: 0 <= k < |started| ==> started[k] == CandidateId(inp.batchId, k)
    ensures forall i, j :: 0 <= i < j < |started| ==> started[i] != started[j]
    ensures inp.mode.SequentialBloat? ==>
              && r == Iterated(inp.iterations)
              && evaluated == seq(if inp.iterations < 0 then 0 else inp.iterations, i => i)
    ensures !inp.mode.SequentialBloat? ==>
              && evaluated == []
              && r.Winners? && r.mode == inp.mode
              && r.children == (if inp.children < 0 then inp.children else |started|)
              && r.winners == TopThree(Collect(|started|, childScores))
  {
    started, evaluated := [], [];
    if inp.mode.SequentialBloat? {
      var i := 0;
      while i < inp.iterations
        invariant 0 <= i && (inp.iterations >= 0 ==> i <= inp.iterations) && (inp.iterations < 0 ==> i == 0)
        invariant evaluated == seq(i, j => j)
      {
        evaluated := evaluated + [i];
        i := i + 1;
      }
      return Iterated(inp.iterations), started, evaluated;
    }
    var n := EffectiveFanout(inp);
    var scores: seq<nat> := [];
    var i: nat := 0;
    while i < n
      invariant i == |started| == |scores| && (n >= 0 ==> i <= n) && (n < 0 ==> i == 0)
      invariant scores == Collect(i, childScores)
      invariant forall k :: 0 <= k < i ==> started[k] == CandidateId(inp.batchId, k)
    {
      started := started + [CandidateId(inp.batchId, i)];
      scores := scores + [childScores(i)];
      i := i + 1;
    }
    forall a, b | 0 <= a < b < |started|
      ensures started[a] != started[b]
    {
      if started[a] == started[b] {
        CandidateIdInjective(inp.batchId, a, inp.batchId, b);
      }
    }
    r := Winners(inp.mode, n, TopThree(scores));
  }
}
