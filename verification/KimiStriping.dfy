/** The sending side of the Kimi engine: trainer ranks take every world-th tensor and cut their share into buckets;
    receivers then visit the buckets of all ranks round by round. */
module KimiStriping {
  import opened Arithmetic
  import opened Options
  import opened Weights
  import opened BucketPacking

  // The tensors rank keeps, in order.
  function Stripe(ws: seq<Weight>, world: nat, rank: nat): seq<Weight>
    requires world > 0
  {
    if ws == [] then []
    else Stripe(ws[..|ws| - 1], world, rank) + if (|ws| - 1) % world == rank then [ws[|ws| - 1]] else []
  }

  // How many of the indices below n fall to rank.
  function Share(n: nat, world: nat, rank: nat): nat
    requires world > 0
  {
    if n == 0 then 0 else Share(n - 1, world, rank) + if (n - 1) % world == rank then 1 else 0
  }

  lemma {:induction false} ShareIs(n: nat, world: nat, rank: nat)
    requires rank < world
    ensures Share(n, world, rank) == n / world + if rank < n % world then 1 else 0
  {
    if n == 0 {
      SmallQuotient(0, world);
    } else {
      ShareIs(n - 1, world, rank);
      Successor(n - 1, world);
    }
  }

  lemma {:induction false} StripeLength(ws: seq<Weight>, world: nat, rank: nat)
    requires world > 0
    ensures |Stripe(ws, world, rank)| == Share(|ws|, world, rank)
  {
    if ws != [] {
      StripeLength(ws[..|ws| - 1], world, rank);
    }
  }

  // Tensor i is in the stripe of rank i mod world, at position i div world.
  lemma {:induction false} StripeAt(ws: seq<Weight>, world: nat, i: nat)
    requires world > 0 && i < |ws|
    ensures i / world < |Stripe(ws, world, i % world)| && Stripe(ws, world, i % world)[i / world] == ws[i]
  {
    var n := |ws| - 1;
    if i < n {
      StripeAt(ws[..n], world, i);
    } else {
      StripeLength(ws[..n], world, i % world);
      ShareIs(n, world, i % world);
    }
  }

  // ---- Cutting a stripe into buckets ----

  // current_bucket[name] = tensor
  function Put(bucket: seq<Weight>, w: Weight): seq<Weight> {
    if bucket == [] then [w]
    else if bucket[0].name == w.name then [w] + bucket[1..]
    else [bucket[0]] + Put(bucket[1..], w)
  }

  function AsDict(ws: seq<Weight>): seq<Weight> {
    if ws == [] then [] else Put(AsDict(ws[..|ws| - 1]), ws[|ws| - 1])
  }

  lemma {:induction false} PutMembers(bucket: seq<Weight>, w: Weight)
    ensures w in Put(bucket, w)
    ensures forall x :: x in bucket && x.name != w.name ==> x in Put(bucket, w)
  {
    if bucket != [] {
      assert bucket == [bucket[0]] + bucket[1..];
      if bucket[0].name != w.name {
        PutMembers(bucket[1..], w);
      }
    }
  }

  // A name keeps its place, whatever is assigned to it; a new one comes last.
  lemma {:induction false} PutPlaces(bucket: seq<Weight>, w: Weight)
    ensures |bucket| <= |Put(bucket, w)|
    ensures forall i :: 0 <= i < |bucket| ==>
              Put(bucket, w)[i].name == bucket[i].name && (bucket[i].name != w.name ==> Put(bucket, w)[i] == bucket[i])
  {
    if bucket != [] && bucket[0].name != w.name {
      PutPlaces(bucket[1..], w);
      assert forall i :: 0 < i < |bucket| ==> Put(bucket, w)[i] == Put(bucket[1..], w)[i - 1] && bucket[i] == bucket[1..][i - 1];
    }
  }

  // Of the tensors of one name the dict holds the last.
  lemma {:induction false} DictHoldsLast(ws: seq<Weight>, j: nat)
    requires j < |ws| && forall i :: j < i < |ws| ==> ws[i].name != ws[j].name
    ensures ws[j] in AsDict(ws)
  {
    hide Put;
    var n := |ws| - 1;
    PutMembers(AsDict(ws[..n]), ws[n]);
    if j < n {
      DictHoldsLast(ws[..n], j);
    }
  }

  lemma {:induction false} PutFresh(bucket: seq<Weight>, w: Weight)
    requires forall i :: 0 <= i < |bucket| ==> bucket[i].name != w.name
    ensures Put(bucket, w) == bucket + [w]
  {
    if bucket != [] {
      PutFresh(bucket[1..], w);
    }
  }

  lemma {:induction false} AsDictOfDistinct(ws: seq<Weight>)
    requires DistinctNames(ws)
    ensures AsDict(ws) == ws
  {
    if ws != [] {
      var n := |ws| - 1;
      AsDictOfDistinct(ws[..n]);
      PutFresh(ws[..n], ws[n]);
    }
  }

  // Non-empty groups in order, each within the limit or a single oversize tensor, closed only when the next one does not fit.
  ghost predicate GroupOk(g: seq<Weight>, limit: int) {
    g != [] && (ByteCount(g) <= limit || |g| == 1)
  }

  ghost predicate GroupsOk(gs: seq<seq<Weight>>, limit: int) {
    && (forall k :: 0 <= k < |gs| ==> GroupOk(gs[k], limit))
    && forall k :: 0 < k < |gs| ==> gs[k] != [] && ByteCount(gs[k - 1]) + |gs[k][0].data| > limit
  }

  // Groups gs are closed and group cur is being filled.
  ghost predicate Cutting(gs: seq<seq<Weight>>, cur: seq<Weight>, limit: int) {
    && GroupsOk(gs, limit)
    && if cur == [] then gs == []
       else GroupOk(cur, limit) && (gs != [] ==> ByteCount(gs[|gs| - 1]) + |cur[0].data| > limit)
  }

  lemma AddToGroup(gs: seq<seq<Weight>>, cur: seq<Weight>, w: Weight, limit: int)
    requires Cutting(gs, cur, limit) && (cur == [] || ByteCount(cur) + |w.data| <= limit)
    ensures Cutting(gs, cur + [w], limit)
  {
    hide ByteCount;
    BytesAppend(cur, w);
  }

  lemma CloseGroup(gs: seq<seq<Weight>>, cur: seq<Weight>, limit: int)
    requires Cutting(gs, cur, limit) && cur != []
    ensures GroupsOk(gs + [cur], limit)
    ensures forall w: Weight :: ByteCount(cur) + |w.data| > limit ==> Cutting(gs + [cur], [w], limit)
  {
    hide ByteCount;
  }

  lemma AddToDict(cur: seq<Weight>, w: Weight)
    ensures AsDict(cur + [w]) == Put(AsDict(cur), w) && AsDict(cur + [w]) != []
    ensures ByteCount(cur + [w]) == ByteCount(cur) + |w.data|
  {
    BytesAppend(cur, w);
    assert (cur + [w])[..|cur|] == cur;
  }

  lemma StripeNext(ws: seq<Weight>, world: nat, rank: nat, i: nat)
    requires world > 0 && i < |ws|
    ensures Stripe(ws[..i + 1], world, rank) == Stripe(ws[..i], world, rank) + if i % world == rank then [ws[i]] else []
  {
    assert ws[..i + 1][..i] == ws[..i];
  }

  ghost predicate DictsOf(buckets: seq<seq<Weight>>, gs: seq<seq<Weight>>) {
    |buckets| == |gs| && forall k :: 0 <= k < |gs| ==> buckets[k] == AsDict(gs[k])
  }

  // The generator, run to its end.
  method NamedTensorBuckets(ws: seq<Weight>, bucketBytes: int, world: nat, rank: nat)
    returns (r: Option<seq<seq<Weight>>>, ghost gs: seq<seq<Weight>>)
    requires world > 0
    ensures r == None <==> bucketBytes <= 0
    ensures r.Some? ==>
              Flatten(gs) == Stripe(ws, world, rank) && GroupsOk(gs, bucketBytes) && DictsOf(r.value, gs)
  {
    hide ByteCount, Flatten, Put, AsDict, Stripe, Cutting, GroupsOk;
    gs := [];
    if bucketBytes <= 0 {
      return None, [];
    }
    var buckets: seq<seq<Weight>>, current: seq<Weight>, size: nat := [], [], 0;
    ghost var cur: seq<Weight> := [];
    NothingCut(ws, bucketBytes, world, rank);
    for i := 0 to |ws|
      invariant Flatten(gs) + cur == Stripe(ws[..i], world, rank)
      invariant Cutting(gs, cur, bucketBytes) && DictsOf(buckets, gs)
      invariant current == AsDict(cur) && (current == [] <==> cur == []) && size == ByteCount(cur)
    {
      StripeNext(ws, world, rank, i);
      if i % world == rank {
        var tensorSize := |ws[i].data|;
        AddToDict(cur, ws[i]);
        AddToDict([], ws[i]);
        if size + tensorSize > bucketBytes && current != [] {
          CloseGroup(gs, cur, bucketBytes);
          FlattenAppend(gs, cur);
          gs, cur := gs + [cur], [];
          buckets := buckets + [current];
          current, size := [], 0;
          assert [] + [ws[i]] == [ws[i]];
        } else {
          AddToGroup(gs, cur, ws[i], bucketBytes);
        }
        current := Put(current, ws[i]);
        size := size + tensorSize;
        cur := cur + [ws[i]];
      }
    }
    assert ws[..|ws|] == ws;
    if current != [] {
      CloseGroup(gs, cur, bucketBytes);
      FlattenAppend(gs, cur);
      gs := gs + [cur];
      buckets := buckets + [current];
    } else {
      NothingCut(ws, bucketBytes, world, rank);
      NoneClosed(gs, bucketBytes);
    }
    r := Some(buckets);
  }

  lemma NothingCut(ws: seq<Weight>, limit: int, world: nat, rank: nat)
    requires world > 0
    ensures Cutting([], [], limit) && AsDict([]) == [] && ByteCount([]) == 0
    ensures Flatten<Weight>([]) == [] && Stripe(ws[..0], world, rank) == []
  {
  }

  lemma NoneClosed(gs: seq<seq<Weight>>, limit: int)
    ensures Cutting(gs, [], limit) ==> gs == [] && GroupsOk(gs, limit)
  {
  }

  // With distinct names the buckets hold exactly the rank's tensors, in order.
  lemma BucketsHoldTheStripe(buckets: seq<seq<Weight>>, gs: seq<seq<Weight>>)
    requires DictsOf(buckets, gs) && DistinctNames(Flatten(gs))
    ensures Flatten(buckets) == Flatten(gs)
  {
    hide Flatten, AsDict;
    SubgroupsDistinct(gs);
    forall k | 0 <= k < |gs|
      ensures buckets[k] == gs[k]
    {
      AsDictOfDistinct(gs[k]);
    }
    assert buckets == gs;
  }

  // ---- The receivers' order of visits ----

  ghost predicate NoDuplicates<T(!new)>(s: seq<T>) {
    forall i, j :: 0 <= i < j < |s| ==> s[i] != s[j]
  }

  // For i in range(max_len), for each rank with more than i buckets: bucket i of that rank.
  method VisitOrder(lens: seq<nat>) returns (order: seq<(nat, nat)>)
    ensures NoDuplicates(order)
    ensures forall r: nat, i: nat :: (r, i) in order <==> r < |lens| && i < lens[r]
    ensures forall x, y :: 0 <= x < y < |order| ==>
                             order[x].1 < order[y].1 || (order[x].1 == order[y].1 && order[x].0 < order[y].0)
  {
    var maxLen := 0;
    for r := 0 to |lens|
      invariant forall x :: 0 <= x < r ==> lens[x] <= maxLen
    {
      if lens[r] > maxLen {
        maxLen := lens[r];
      }
    }
    order := [];
    for i := 0 to maxLen
      invariant forall x, y :: 0 <= x < y < |order| ==>
                                 order[x].1 < order[y].1 || (order[x].1 == order[y].1 && order[x].0 < order[y].0)
      invariant forall p :: p in order <==> p.0 < |lens| && p.1 < lens[p.0] && p.1 < i
    {
      for r := 0 to |lens|
        invariant forall x, y :: 0 <= x < y < |order| ==>
                                   order[x].1 < order[y].1 || (order[x].1 == order[y].1 && order[x].0 < order[y].0)
        invariant forall p :: p in order <==> p.0 < |lens| && p.1 < lens[p.0] && (p.1 < i || (p.1 == i && p.0 < r))
      {
        if i < lens[r] {
          order := order + [(r, i)];
        }
      }
    }
  }
}
