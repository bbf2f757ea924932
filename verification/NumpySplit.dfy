/** np.array_split: the first len mod parts pieces have one element more. */
module NumpySplit {
  import opened Arithmetic
  import opened Weights

  // Where np.array_split(s, parts)[i] starts.
  function SplitStart(len: nat, parts: nat, i: nat): nat
    requires parts > 0
  {
    Monotone(0, i, len / parts);
    i * (len / parts) + if i < len % parts then i else len % parts
  }

  lemma SplitEnds(len: nat, parts: nat)
    requires parts > 0
    ensures SplitStart(len, parts, 0) == 0 && SplitStart(len, parts, parts) == len
  {
    assert len == len / parts * parts + len % parts;
    assert parts * (len / parts) == len / parts * parts;
  }

  lemma SplitBetween(len: nat, parts: nat, i: nat)
    requires i < parts
    ensures SplitStart(len, parts, i) <= SplitStart(len, parts, i + 1) <= len
  {
    SplitEnds(len, parts);
    NextProduct(i, len / parts);
    Monotone(i + 1, parts, len / parts);
  }

  function ArraySplit<T>(s: seq<T>, parts: nat): (ss: seq<seq<T>>)
    requires parts > 0
    ensures |ss| == parts
  {
    seq(parts, i requires 0 <= i < parts =>
      (SplitBetween(|s|, parts, i); s[SplitStart(|s|, parts, i)..SplitStart(|s|, parts, i + 1)]))
  }

  // The first len mod parts pieces have one element more than the others.
  lemma PieceSizes<T>(s: seq<T>, parts: nat, i: nat)
    requires i < parts
    ensures |ArraySplit(s, parts)[i]| == |s| / parts + if i < |s| % parts then 1 else 0
  {
    hide SplitStart;
    SplitBetween(|s|, parts, i);
    PieceSize(|s|, parts, i);
  }

  lemma PieceSize(len: nat, parts: nat, i: nat)
    requires i < parts
    ensures SplitStart(len, parts, i + 1) == SplitStart(len, parts, i) + len / parts + if i < len % parts then 1 else 0
  {
    NextProduct(i, len / parts);
  }

  lemma {:induction false} SplitSoFar<T>(s: seq<T>, parts: nat, k: nat)
    requires parts > 0 && k <= parts
    ensures SplitStart(|s|, parts, k) <= |s|
    ensures Flatten(ArraySplit(s, parts)[..k]) == s[..SplitStart(|s|, parts, k)]
  {
    hide SplitStart, Flatten;
    SplitEnds(|s|, parts);
    if k == 0 {
      NoPieces<T>();
      assert ArraySplit(s, parts)[..0] == [];
    } else {
      SplitBetween(|s|, parts, k - 1);
      SplitSoFar(s, parts, k - 1);
      var ss := ArraySplit(s, parts);
      FlattenAppend(ss[..k - 1], ss[k - 1]);
      assert ss[..k] == ss[..k - 1] + [ss[k - 1]];
    }
  }

  lemma NoPieces<T>()
    ensures Flatten<T>([]) == []
  {
  }

  lemma ArraySplitFlattens<T>(s: seq<T>, parts: nat)
    requires parts > 0
    ensures Flatten(ArraySplit(s, parts)) == s
  {
    SplitSoFar(s, parts, parts);
    SplitEnds(|s|, parts);
    assert ArraySplit(s, parts)[..parts] == ArraySplit(s, parts);
  }
}
