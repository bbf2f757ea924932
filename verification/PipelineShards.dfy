/** How the Megatron merger distributes layers over pipeline ranks: the search loop and sort, against a closed form. */
module PipelineShards {
  import opened Arithmetic
  import opened Totals

  // The exceptions: too few layers, no ranks, and taking the first of an empty list.
  datatype Result = Shards(layers: seq<int>) | TooFewLayers | NoRanks | NoCandidate

  // A candidate distribution and how far its first rank is from the middle ones.
  datatype Candidate = Candidate(shards: seq<int>, diff: int)

  function FirstLayers(layerNum: int, ppSize: int, middle: nat): int {
    (layerNum - middle * (ppSize - 2)) / 2
  }

  function LastLayers(layerNum: int, ppSize: int, middle: nat): int {
    layerNum - middle * (ppSize - 2) - FirstLayers(layerNum, ppSize, middle)
  }

  function Distribution(layerNum: int, ppSize: int, middle: nat): (s: seq<int>)
    requires ppSize >= 2
    ensures |s| == ppSize
  {
    [FirstLayers(layerNum, ppSize, middle)] + seq(ppSize - 2, _ => middle) + [LastLayers(layerNum, ppSize, middle)]
  }

  predicate Fits(layerNum: int, ppSize: int, middle: nat) {
    0 < FirstLayers(layerNum, ppSize, middle) <= middle && 0 < LastLayers(layerNum, ppSize, middle) <= middle
  }

  function Abs(x: int): int {
    if x < 0 then -x else x
  }

  function CandidateOf(layerNum: int, ppSize: int, middle: nat): Candidate
    requires ppSize >= 2
  {
    Candidate(Distribution(layerNum, ppSize, middle), Abs(FirstLayers(layerNum, ppSize, middle) - middle))
  }

  // The candidates with fewer than n middle layers, in the order the loop finds them.
  function Candidates(layerNum: int, ppSize: int, n: nat): seq<Candidate>
    requires ppSize >= 2
  {
    if n == 0 then []
    else Candidates(layerNum, ppSize, n - 1)
         + if Fits(layerNum, ppSize, n - 1) then [CandidateOf(layerNum, ppSize, n - 1)] else []
  }

  // sorted(..., key=diff): a stable sort.
  function Insert(s: seq<Candidate>, c: Candidate): seq<Candidate> {
    if s == [] || s[|s| - 1].diff <= c.diff then s + [c] else Insert(s[..|s| - 1], c) + [s[|s| - 1]]
  }

  function SortByDiff(s: seq<Candidate>): seq<Candidate> {
    if s == [] then [] else Insert(SortByDiff(s[..|s| - 1]), s[|s| - 1])
  }

  // ---- Closed form ----

  predicate Succeeds(layerNum: int, ppSize: int)
    requires layerNum >= ppSize >= 1
  {
    ppSize <= 2 || CeilDiv(layerNum, ppSize) * (ppSize - 2) + 2 <= layerNum
  }

  function Closed(layerNum: int, ppSize: int): Result {
    if layerNum < ppSize then TooFewLayers
    else if ppSize < 1 then NoRanks
    else if ppSize == 1 then Shards([layerNum])
    else if ppSize == 2 then Shards([layerNum / 2, layerNum - layerNum / 2])
    else if Succeeds(layerNum, ppSize) then Shards(Distribution(layerNum, ppSize, CeilDiv(layerNum, ppSize)))
    else NoCandidate
  }

  // ---- The search finds the closed form ----

  // A middle count is a candidate when it is large enough for all layers and leaves two for the ends.
  lemma FitsIff(layerNum: int, ppSize: int, middle: nat)
    requires ppSize >= 3
    ensures Fits(layerNum, ppSize, middle) <==> layerNum <= middle * ppSize && middle * (ppSize - 2) + 2 <= layerNum
    ensures Fits(layerNum, ppSize, middle) ==>
              CandidateOf(layerNum, ppSize, middle).diff == middle - FirstLayers(layerNum, ppSize, middle)
  {
    assert middle * ppSize == middle * (ppSize - 2) + 2 * middle;
  }

  lemma DiffGrows(layerNum: int, ppSize: int, m: nat, n: nat)
    requires ppSize >= 3 && m < n
    ensures m - FirstLayers(layerNum, ppSize, m) < n - FirstLayers(layerNum, ppSize, n)
  {
    Monotone(m, n, ppSize - 2);
  }

  lemma {:induction false} InsertHead(s: seq<Candidate>, c: Candidate)
    ensures |Insert(s, c)| == |s| + 1
    ensures Insert(s, c)[0] == if s == [] || c.diff < s[0].diff then c else s[0]
    requires forall i :: 0 <= i < |s| ==> s[0].diff <= s[i].diff
  {
    if s != [] && s[|s| - 1].diff > c.diff {
      InsertHead(s[..|s| - 1], c);
    }
  }

  lemma {:induction false} InsertMembers(s: seq<Candidate>, c: Candidate)
    ensures forall x :: x in Insert(s, c) <==> x in s || x == c
  {
    if s != [] && s[|s| - 1].diff > c.diff {
      InsertMembers(s[..|s| - 1], c);
      assert s == s[..|s| - 1] + [s[|s| - 1]];
    }
  }

  // The sorted list has the same candidates, and one of least difference at its head.
  lemma {:induction false} SortHead(s: seq<Candidate>)
    ensures |SortByDiff(s)| == |s|
    ensures forall x :: x in SortByDiff(s) <==> x in s
    ensures forall i :: 0 <= i < |SortByDiff(s)| ==> SortByDiff(s)[0].diff <= SortByDiff(s)[i].diff
  {
    hide Insert;
    if s != [] {
      var n := |s| - 1;
      var t := SortByDiff(s[..n]);
      SortHead(s[..n]);
      InsertHead(t, s[n]);
      InsertMembers(t, s[n]);
      assert s == s[..n] + [s[n]];
      forall i | 0 <= i < |SortByDiff(s)|
        ensures SortByDiff(s)[0].diff <= SortByDiff(s)[i].diff
      {
        assert SortByDiff(s)[i] in Insert(t, s[n]);
      }
    }
  }

  lemma {:induction false} CandidatesAre(layerNum: int, ppSize: int, n: nat)
    requires ppSize >= 2
    ensures forall x :: x in Candidates(layerNum, ppSize, n) <==>
                        exists m: nat :: m < n && Fits(layerNum, ppSize, m) && x == CandidateOf(layerNum, ppSize, m)
  {
    hide Fits, CandidateOf;
    if n > 0 {
      CandidatesAre(layerNum, ppSize, n - 1);
    }
  }

  // The least middle count that fits, if any does, is ceil(layerNum / ppSize).
  lemma LeastMiddle(layerNum: int, ppSize: int, m: nat)
    requires layerNum >= ppSize >= 3 && Fits(layerNum, ppSize, m)
    ensures CeilDiv(layerNum, ppSize) <= m && Succeeds(layerNum, ppSize)
  {
    FitsIff(layerNum, ppSize, m);
    CeilAtMost(m, layerNum, ppSize);
    Monotone(CeilDiv(layerNum, ppSize), m, ppSize - 2);
  }

  lemma CeilFits(layerNum: int, ppSize: int)
    requires layerNum >= ppSize >= 3
    ensures Fits(layerNum, ppSize, CeilDiv(layerNum, ppSize)) <==> Succeeds(layerNum, ppSize)
    ensures CeilDiv(layerNum, ppSize) < layerNum
  {
    FitsIff(layerNum, ppSize, CeilDiv(layerNum, ppSize));
    CeilBracket(layerNum, ppSize);
    CeilAtMost(layerNum - 1, layerNum, ppSize);
    Monotone(3, ppSize, layerNum - 1);
    assert ppSize * (layerNum - 1) == (layerNum - 1) * ppSize;
  }

  lemma CeilIsCandidate(layerNum: int, ppSize: int)
    requires layerNum >= ppSize >= 3 && Succeeds(layerNum, ppSize)
    ensures CandidateOf(layerNum, ppSize, CeilDiv(layerNum, ppSize)) in Candidates(layerNum, ppSize, layerNum)
  {
    hide Fits, CandidateOf, Candidates, CeilDiv, Succeeds;
    CeilFits(layerNum, ppSize);
    CandidatesAre(layerNum, ppSize, layerNum);
  }

  lemma SearchIsClosed(layerNum: int, ppSize: int)
    requires layerNum >= ppSize >= 3
    ensures var found := SortByDiff(Candidates(layerNum, ppSize, layerNum));
      Closed(layerNum, ppSize) == if found == [] then NoCandidate else Shards(found[0].shards)
  {
    hide Fits, CandidateOf, Candidates, SortByDiff, Distribution, CeilDiv, Succeeds;
    var cs, q := Candidates(layerNum, ppSize, layerNum), CeilDiv(layerNum, ppSize);
    SortHead(cs);
    CandidatesAre(layerNum, ppSize, layerNum);
    CeilFits(layerNum, ppSize);
    if cs == [] {
      if Succeeds(layerNum, ppSize) {
        CeilIsCandidate(layerNum, ppSize);
      }
    } else {
      var head := SortByDiff(cs)[0];
      assert head in SortByDiff(cs);
      var m: nat :| m < layerNum && Fits(layerNum, ppSize, m) && head == CandidateOf(layerNum, ppSize, m);
      LeastMiddle(layerNum, ppSize, m);
      CeilIsCandidate(layerNum, ppSize);
      LeastDiffIsLeastMiddle(layerNum, ppSize, cs, q, m);
      ShardsOf(layerNum, ppSize, q);
    }
  }

  lemma ShardsOf(layerNum: int, ppSize: int, m: nat)
    requires ppSize >= 2
    ensures CandidateOf(layerNum, ppSize, m).shards == Distribution(layerNum, ppSize, m)
  {
  }

  lemma LeastDiffIsLeastMiddle(layerNum: int, ppSize: int, cs: seq<Candidate>, q: nat, m: nat)
    requires ppSize >= 3 && q <= m && Fits(layerNum, ppSize, q) && Fits(layerNum, ppSize, m)
    requires SortByDiff(cs) != [] && SortByDiff(cs)[0] == CandidateOf(layerNum, ppSize, m)
    requires CandidateOf(layerNum, ppSize, q) in SortByDiff(cs)
    ensures q == m
  {
    hide Fits, SortByDiff, CandidateOf;
    SortHead(cs);
    FitsIff(layerNum, ppSize, q);
    FitsIff(layerNum, ppSize, m);
    if q < m {
      DiffGrows(layerNum, ppSize, q, m);
    }
  }

  // The odd layer of what the middle ranks leave goes to the last rank; every middle rank has ceil(layerNum / ppSize).
  lemma EndsAndMiddle(layerNum: int, ppSize: int)
    requires ppSize >= 2 && Closed(layerNum, ppSize).Shards?
    ensures var s := Closed(layerNum, ppSize).layers;
      && |s| == ppSize && 0 <= s[ppSize - 1] - s[0] <= 1
      && forall i :: 0 < i < ppSize - 1 ==> s[i] == CeilDiv(layerNum, ppSize)
  {
    hide CeilDiv;
  }

  method GetDynamicPipelineShards(layerNum: int, ppSize: int) returns (r: Result)
    ensures r == Closed(layerNum, ppSize)
    ensures r == TooFewLayers <==> layerNum < ppSize
    ensures r == NoRanks <==> layerNum >= ppSize && ppSize < 1
    ensures r.Shards? ==> |r.layers| == ppSize
    ensures r.Shards? && ppSize >= 2 ==>
              && 0 <= r.layers[ppSize - 1] - r.layers[0] <= 1
              && forall i :: 0 < i < ppSize - 1 ==> r.layers[i] == CeilDiv(layerNum, ppSize)
  {
    if ppSize >= 2 && Closed(layerNum, ppSize).Shards? {
      EndsAndMiddle(layerNum, ppSize);
    }
    if layerNum < ppSize {
      return TooFewLayers;
    }
    if ppSize < 1 {
      return NoRanks;
    }
    if ppSize == 1 {
      return Shards([layerNum]);
    }
    if ppSize == 2 {
      return Shards([layerNum / 2, layerNum - layerNum / 2]);
    }
    var middleSize := ppSize - 2;
    var strategy: seq<Candidate> := [];
    for middle := 0 to layerNum
      invariant strategy == Candidates(layerNum, ppSize, middle)
    {
      var firstLast := layerNum - middle * middleSize;
      var first := firstLast / 2;
      var last := firstLast - firstLast / 2;
      if 0 < first <= middle && 0 < last <= middle {
        strategy := strategy + [Candidate([first] + seq(middleSize, _ => middle) + [last], Abs(first - middle))];
      }
    }
    SearchIsClosed(layerNum, ppSize);
    if strategy == [] {
      SortHead(strategy);
      return NoCandidate;
    }
    SortHead(strategy);
    r := Shards(SortByDiff(strategy)[0].shards);
  }

  // ---- What the result means ----

  lemma {:induction false} SumOfMiddle(n: nat, m: int, first: int)
    ensures Total([first] + seq(n, _ => m)) == first + n * m
  {
    if n > 0 {
      SumOfMiddle(n - 1, m, first);
      NextProduct(n - 1, m);
      assert ([first] + seq(n, _ => m))[..n] == [first] + seq(n - 1, _ => m);
    } else {
      assert ([first] + seq(n, _ => m))[..0] == [];
    }
  }

  lemma DistributionSum(layerNum: int, ppSize: int, m: nat)
    requires ppSize >= 2
    ensures Total(Distribution(layerNum, ppSize, m)) == layerNum
  {
    var s := Distribution(layerNum, ppSize, m);
    SumOfMiddle(ppSize - 2, m, FirstLayers(layerNum, ppSize, m));
    assert s[..|s| - 1] == [FirstLayers(layerNum, ppSize, m)] + seq(ppSize - 2, _ => m as int);
  }

  lemma TotalOfTwo(a: int, b: int)
    ensures Total([a]) == a && Total([a, b]) == a + b
  {
    assert [a][..0] == [] && [a, b][..1] == [a];
  }

  // On success: one positive count per rank, all layers distributed, and no rank above ceil(layerNum / ppSize).
  lemma ShardsAreASplit(layerNum: int, ppSize: int)
    requires Closed(layerNum, ppSize).Shards?
    ensures var s := Closed(layerNum, ppSize).layers;
      && ppSize >= 1 && |s| == ppSize && Total(s) == layerNum
      && forall i :: 0 <= i < ppSize ==> 0 < s[i] <= CeilDiv(layerNum, ppSize)
  {
    hide Total;
    var q := CeilDiv(layerNum, ppSize);
    if ppSize == 1 {
      TotalOfTwo(layerNum, 0);
      CeilUnique(layerNum, layerNum, 1);
    } else if ppSize == 2 {
      TotalOfTwo(layerNum / 2, layerNum - layerNum / 2);
      CeilBracket(layerNum, 2);
    } else {
      CeilFits(layerNum, ppSize);
      DistributionSum(layerNum, ppSize, q);
    }
  }

  lemma {:induction false} SumAtMost(s: seq<int>, b: nat)
    requires forall i :: 0 <= i < |s| ==> s[i] <= b
    ensures Total(s) <= |s| * b
  {
    if s != [] {
      SumAtMost(s[..|s| - 1], b);
      NextProduct(|s| - 1, b);
    }
  }

  lemma BelowCeil(layerNum: int, ppSize: int)
    requires layerNum >= ppSize >= 1
    ensures ppSize * (CeilDiv(layerNum, ppSize) - 1) < layerNum
  {
    var q := CeilDiv(layerNum, ppSize);
    CeilBracket(layerNum, ppSize);
    NextProduct(q - 1, ppSize);
    assert ppSize * (q - 1) == (q - 1) * ppSize;
  }

  // No split of the layers over the ranks has a smaller maximum.
  lemma MaximumIsOptimal(layerNum: int, ppSize: int, split: seq<int>)
    requires layerNum >= ppSize >= 1 && |split| == ppSize && Total(split) == layerNum
    ensures exists i :: 0 <= i < ppSize && split[i] >= CeilDiv(layerNum, ppSize)
  {
    BelowCeil(layerNum, ppSize);
    if forall i :: 0 <= i < ppSize ==> split[i] < CeilDiv(layerNum, ppSize) {
      SumAtMost(split, CeilDiv(layerNum, ppSize) - 1);
    }
  }

  // A layer for every rank, and all layers given out.
  ghost predicate IsSplit(split: seq<int>, layerNum: int, ppSize: int) {
    |split| == ppSize && Total(split) == layerNum && forall i :: 0 <= i < |split| ==> split[i] > 0
  }

  lemma {:induction false} SumAtLeast(s: seq<int>)
    requires forall i :: 0 <= i < |s| ==> s[i] > 0
    ensures Total(s) >= |s|
  {
    if s != [] {
      SumAtLeast(s[..|s| - 1]);
    }
  }

  lemma SplitExistsIff(layerNum: int, ppSize: int)
    requires ppSize >= 1
    ensures (exists split :: IsSplit(split, layerNum, ppSize)) <==> layerNum >= ppSize
  {
    if split :| IsSplit(split, layerNum, ppSize) {
      SumAtLeast(split);
    }
    if layerNum >= ppSize {
      var split := [layerNum - ppSize + 1] + seq(ppSize - 1, _ => 1);
      SumOfMiddle(ppSize - 1, 1, layerNum - ppSize + 1);
      assert IsSplit(split, layerNum, ppSize);
    }
  }

  // The search raises over layers that can be split exactly when ceil(layerNum / ppSize) on every middle rank leaves fewer
  // than two layers for the ends.
  lemma MissesSplitIff(layerNum: int, ppSize: int)
    requires ppSize >= 1
    ensures (exists split :: IsSplit(split, layerNum, ppSize)) && !Closed(layerNum, ppSize).Shards?
       <==> layerNum >= ppSize >= 3 && CeilDiv(layerNum, ppSize) * (ppSize - 2) + 2 > layerNum
  {
    hide IsSplit, CeilDiv, Distribution;
    SplitExistsIff(layerNum, ppSize);
  }

  // Five layers over four ranks: a valid split exists, but the search raises.
  lemma FiveLayersFourRanks()
    ensures Closed(5, 4) == NoCandidate
    ensures Total([1, 1, 1, 2]) == 5
  {
    assert [1, 1, 1, 2][..3] == [1, 1, 1] && [1, 1, 1][..2] == [1, 1] && [1, 1][..1] == [1] && [1][..0] == [];
  }
}
