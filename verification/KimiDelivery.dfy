/** The Kimi engine end to end: the trainer ranks' shares partition the weights, and however the registered tensors are cut
    into buckets and visited, every rollout rank yields each of the sender's tensors exactly once. */
module KimiDelivery {
  import opened Arithmetic
  import opened Options
  import opened Weights
  import BucketPacking
  import opened KimiStriping
  import opened KimiBroadcast

  // ---- The trainer ranks partition the weights ----

  function StripesUpTo(ws: seq<Weight>, world: nat, ranks: nat): multiset<Weight>
    requires world > 0
  {
    if ranks == 0 then multiset{} else StripesUpTo(ws, world, ranks - 1) + multiset(Stripe(ws, world, ranks - 1))
  }

  function One(c: bool, w: Weight): multiset<Weight> {
    if c then multiset{w} else multiset{}
  }

  lemma StripeWithLast(ws: seq<Weight>, world: nat, rank: nat)
    requires ws != [] && world > 0
    ensures multiset(Stripe(ws, world, rank))
         == multiset(Stripe(ws[..|ws| - 1], world, rank)) + One((|ws| - 1) % world == rank, ws[|ws| - 1])
  {
  }

  lemma Exchange(a: multiset<Weight>, x: multiset<Weight>, b: multiset<Weight>, y: multiset<Weight>)
    ensures (a + x) + (b + y) == (a + b) + (x + y)
  {
  }

  lemma OneBelow(i: nat, n: nat, w: Weight)
    ensures One(i < n, w) + One(i == n, w) == One(i < n + 1, w)
  {
  }

  lemma {:induction false} StripesWithLast(ws: seq<Weight>, world: nat, ranks: nat)
    requires ws != [] && world > 0
    ensures StripesUpTo(ws, world, ranks)
         == StripesUpTo(ws[..|ws| - 1], world, ranks) + One((|ws| - 1) % world < ranks, ws[|ws| - 1])
  {
    hide Stripe, One;
    var w, front := ws[|ws| - 1], ws[..|ws| - 1];
    var i: nat := (|ws| - 1) % world;
    if ranks > 0 {
      StripesWithLast(ws, world, ranks - 1);
      StripeWithLast(ws, world, ranks - 1);
      OneBelow(i, ranks - 1, w);
      Exchange(StripesUpTo(front, world, ranks - 1), One(i < ranks - 1, w),
               multiset(Stripe(front, world, ranks - 1)), One(i == ranks - 1, w));
    } else {
      assert One(i < 0, w) == multiset{} by { OneNever(w); }
    }
  }

  lemma OneNever(w: Weight)
    ensures One(false, w) == multiset{}
  {
  }

  lemma {:induction false} NothingStriped(world: nat, ranks: nat)
    requires world > 0
    ensures StripesUpTo([], world, ranks) == multiset{}
  {
    if ranks > 0 {
      NothingStriped(world, ranks - 1);
    }
  }

  lemma SplitLast(ws: seq<Weight>)
    requires ws != []
    ensures multiset(ws) == multiset(ws[..|ws| - 1]) + multiset{ws[|ws| - 1]}
  {
    assert ws == ws[..|ws| - 1] + [ws[|ws| - 1]];
  }

  // Every tensor is in exactly one rank's stripe, as often as it is in the list.
  lemma {:induction false} StripesPartition(ws: seq<Weight>, world: nat)
    requires world > 0
    ensures StripesUpTo(ws, world, world) == multiset(ws)
  {
    hide StripesUpTo;
    if ws == [] {
      NothingStriped(world, world);
    } else {
      StripesPartition(ws[..|ws| - 1], world);
      StripesWithLast(ws, world, world);
      SplitLast(ws);
    }
  }

  // ---- What a trainer rank registers ----

  // named_tensors after every bucket: one entry per name.
  function Registered(buckets: seq<seq<Weight>>): seq<Weight> {
    AsDict(Flatten(buckets))
  }

  lemma {:induction false} PutNames(bucket: seq<Weight>, w: Weight)
    requires DistinctNames(bucket)
    ensures DistinctNames(Put(bucket, w))
    ensures forall x :: x in Put(bucket, w) ==> x == w || x in bucket
  {
    if bucket != [] && bucket[0].name != w.name {
      PutNames(bucket[1..], w);
      forall j | 0 < j < |Put(bucket, w)|
        ensures Put(bucket, w)[j].name != bucket[0].name
      {
        assert Put(bucket, w)[j] in Put(bucket[1..], w);
      }
    }
  }

  lemma {:induction false} DictIsDistinct(ws: seq<Weight>)
    ensures DistinctNames(AsDict(ws))
  {
    if ws != [] {
      DictIsDistinct(ws[..|ws| - 1]);
      PutNames(AsDict(ws[..|ws| - 1]), ws[|ws| - 1]);
    }
  }

  lemma {:induction false} OnceIfDistinct(ws: seq<Weight>, x: Weight)
    requires DistinctNames(ws)
    ensures multiset(ws)[x] <= 1
  {
    if ws != [] {
      var n := |ws| - 1;
      OnceIfDistinct(ws[..n], x);
      assert ws == ws[..n] + [ws[n]];
    }
  }

  lemma TwiceIfRepeated(ws: seq<Weight>, i: nat, j: nat)
    requires i < j < |ws| && ws[i] == ws[j]
    ensures multiset(ws)[ws[i]] >= 2
  {
    assert ws == ws[..j] + ws[j..];
    assert ws[i] in ws[..j] && ws[i] in ws[j..];
  }

  lemma SameTensorsSameNames(a: seq<Weight>, b: seq<Weight>)
    requires DistinctNames(a) && multiset(a) == multiset(b)
    ensures DistinctNames(b)
  {
    forall i, j | 0 <= i < j < |b|
      ensures b[i].name != b[j].name
    {
      if b[i] == b[j] {
        OnceIfDistinct(a, b[i]);
        TwiceIfRepeated(b, i, j);
      } else {
        assert b[i] in multiset(b) && b[j] in multiset(b);
        assert b[i] in a && b[j] in a;
      }
    }
  }

  // A trainer rank registers exactly its share if and only if no name repeats within the share.
  lemma RegistersShareIff(ws: seq<Weight>, world: nat, rank: nat, buckets: seq<seq<Weight>>, gs: seq<seq<Weight>>)
    requires world > 0 && DictsOf(buckets, gs) && Flatten(gs) == Stripe(ws, world, rank)
    ensures multiset(Registered(buckets)) == multiset(Stripe(ws, world, rank)) <==> DistinctNames(Stripe(ws, world, rank))
  {
    hide AsDict, Flatten, DistinctNames;
    if DistinctNames(Stripe(ws, world, rank)) {
      BucketsHoldTheStripe(buckets, gs);
      AsDictOfDistinct(Flatten(gs));
    } else if multiset(Registered(buckets)) == multiset(Stripe(ws, world, rank)) {
      DictIsDistinct(Flatten(buckets));
      SameTensorsSameNames(Registered(buckets), Stripe(ws, world, rank));
    }
  }

  lemma {:induction false} StripeOfDistinct(ws: seq<Weight>, world: nat, rank: nat)
    requires world > 0 && DistinctNames(ws)
    ensures DistinctNames(Stripe(ws, world, rank))
    ensures forall x :: x in Stripe(ws, world, rank) ==> x in ws
  {
    if ws != [] {
      var n := |ws| - 1;
      StripeOfDistinct(ws[..n], world, rank);
      var s := Stripe(ws[..n], world, rank);
      forall i | 0 <= i < |s|
        ensures s[i].name != ws[n].name
      {
        assert s[i] in ws[..n];
      }
    }
  }

  // What all trainer ranks register.
  function RegisteredUpTo(trainers: seq<seq<seq<Weight>>>, n: nat): multiset<Weight>
    requires n <= |trainers|
  {
    if n == 0 then multiset{} else RegisteredUpTo(trainers, n - 1) + multiset(Registered(trainers[n - 1]))
  }

  // The buckets are what the generator yields on each trainer rank.
  ghost predicate Yield(ws: seq<Weight>, trainers: seq<seq<seq<Weight>>>, gss: seq<seq<seq<Weight>>>) {
    && |trainers| == |gss| > 0
    && forall t :: 0 <= t < |gss| ==> DictsOf(trainers[t], gss[t]) && Flatten(gss[t]) == Stripe(ws, |gss|, t)
  }

  lemma {:induction false} AllRegistered(ws: seq<Weight>, trainers: seq<seq<seq<Weight>>>, gss: seq<seq<seq<Weight>>>, n: nat)
    requires Yield(ws, trainers, gss) && DistinctNames(ws) && n <= |trainers|
    ensures RegisteredUpTo(trainers, n) == StripesUpTo(ws, |trainers|, n)
  {
    hide DistinctNames, Stripe, Registered;
    if n > 0 {
      AllRegistered(ws, trainers, gss, n - 1);
      StripeOfDistinct(ws, |trainers|, n - 1);
      RegistersShareIff(ws, |trainers|, n - 1, trainers[n - 1], gss[n - 1]);
    }
  }

  // ---- Visiting buckets in any order ----

  // The tensors of all buckets of all ranks.
  function Held(lists: seq<seq<seq<Weight>>>): multiset<Weight> {
    if lists == [] then multiset{} else Held(lists[..|lists| - 1]) + multiset(Flatten(lists[|lists| - 1]))
  }

  function Entry(lists: seq<seq<seq<Weight>>>, p: (nat, nat)): seq<Weight> {
    if p.0 < |lists| && p.1 < |lists[p.0]| then lists[p.0][p.1] else []
  }

  function Visited(lists: seq<seq<seq<Weight>>>, order: seq<(nat, nat)>): multiset<Weight> {
    if order == [] then multiset{}
    else Visited(lists, order[..|order| - 1]) + multiset(Entry(lists, order[|order| - 1]))
  }

  ghost predicate VisitsAll(lists: seq<seq<seq<Weight>>>, order: seq<(nat, nat)>) {
    && NoDuplicates(order)
    && forall p :: p in order <==> p.0 < |lists| && p.1 < |lists[p.0]|
  }

  function Without<T>(s: seq<T>, x: nat): seq<T>
    requires x < |s|
  {
    s[..x] + s[x + 1..]
  }

  lemma WithoutLast<T>(s: seq<T>, x: nat)
    requires x + 1 < |s|
    ensures var w := Without(s, x); |w| == |s| - 1 && w[..|w| - 1] == Without(s[..|s| - 1], x) && w[|w| - 1] == s[|s| - 1]
  {
  }

  lemma WithoutEnd<T>(s: seq<T>)
    requires s != []
    ensures Without(s, |s| - 1) == s[..|s| - 1]
  {
  }

  lemma {:induction false} VisitedWithout(lists: seq<seq<seq<Weight>>>, order: seq<(nat, nat)>, x: nat)
    requires x < |order|
    ensures Visited(lists, order) == Visited(lists, Without(order, x)) + multiset(Entry(lists, order[x]))
  {
    hide Without, Entry;
    var n := |order| - 1;
    if x == n {
      WithoutEnd(order);
    } else {
      VisitedWithout(lists, order[..n], x);
      WithoutLast(order, x);
    }
  }

  lemma {:induction false} VisitedSame(a: seq<seq<seq<Weight>>>, b: seq<seq<seq<Weight>>>, order: seq<(nat, nat)>)
    requires forall p :: p in order ==> Entry(a, p) == Entry(b, p)
    ensures Visited(a, order) == Visited(b, order)
  {
    if order != [] {
      VisitedSame(a, b, order[..|order| - 1]);
    }
  }

  lemma MembersWithout(order: seq<(nat, nat)>, x: nat)
    requires x < |order| && NoDuplicates(order)
    ensures NoDuplicates(Without(order, x))
    ensures forall p :: p in Without(order, x) <==> p in order && p != order[x]
  {
    var w := Without(order, x);
    forall i | 0 <= i < |w|
      ensures w[i] == order[if i < x then i else i + 1]
    {
    }
    forall p | p in order && p != order[x]
      ensures p in w
    {
      var i :| 0 <= i < |order| && order[i] == p;
      assert w[if i < x then i else i - 1] == p;
    }
  }

  lemma FirstMember(order: seq<(nat, nat)>)
    ensures order == [] || order[0] in order
  {
  }

  // However the visits are ordered, they meet every bucket once.
  lemma {:induction false} VisitedIsHeld(lists: seq<seq<seq<Weight>>>, order: seq<(nat, nat)>)
    requires VisitsAll(lists, order)
    ensures Visited(lists, order) == Held(lists)
    decreases |lists|, if lists == [] then 0 else |lists[|lists| - 1]|
  {
    hide NoDuplicates;
    if lists == [] {
      FirstMember(order);
    } else {
      var n := |lists| - 1;
      var last := lists[n];
      if last == [] {
        forall p | p in order
          ensures Entry(lists, p) == Entry(lists[..n], p)
        {
        }
        VisitedIsHeld(lists[..n], order);
        VisitedSame(lists, lists[..n], order);
      } else {
        DropBucket(lists, order);
      }
    }
  }

  function DropLast(lists: seq<seq<seq<Weight>>>): seq<seq<seq<Weight>>>
    requires lists != [] && lists[|lists| - 1] != []
  {
    var last := lists[|lists| - 1];
    lists[|lists| - 1 := last[..|last| - 1]]
  }

  lemma VisitsFewer(lists: seq<seq<seq<Weight>>>, order: seq<(nat, nat)>) returns (x: nat)
    requires VisitsAll(lists, order) && lists != [] && lists[|lists| - 1] != []
    ensures x < |order| && Entry(lists, order[x]) == lists[|lists| - 1][|lists[|lists| - 1]| - 1]
    ensures VisitsAll(DropLast(lists), Without(order, x))
    ensures forall p :: p in Without(order, x) ==> Entry(lists, p) == Entry(DropLast(lists), p)
  {
    hide NoDuplicates, Without;
    var n := |lists| - 1;
    var p: (nat, nat) := (n, |lists[n]| - 1);
    assert p in order;
    x :| 0 <= x < |order| && order[x] == p;
    MembersWithout(order, x);
  }

  lemma HeldDropped(lists: seq<seq<seq<Weight>>>)
    requires lists != [] && lists[|lists| - 1] != []
    ensures var last := lists[|lists| - 1];
      Held(lists) == Held(DropLast(lists)) + multiset(last[|last| - 1])
  {
    var n := |lists| - 1;
    var last := lists[n];
    var m := |last| - 1;
    assert DropLast(lists)[..n] == lists[..n];
    assert multiset(Flatten(last)) == multiset(Flatten(last[..m])) + multiset(last[m]);
  }

  lemma {:induction false} DropBucket(lists: seq<seq<seq<Weight>>>, order: seq<(nat, nat)>)
    requires VisitsAll(lists, order) && lists != [] && lists[|lists| - 1] != []
    ensures Visited(lists, order) == Held(lists)
    decreases |lists|, |lists[|lists| - 1]|, 0
  {
    hide VisitsAll, Held, Visited, Entry, Without;
    var x := VisitsFewer(lists, order);
    VisitedIsHeld(DropLast(lists), Without(order, x));
    VisitedWithout(lists, order, x);
    VisitedSame(lists, DropLast(lists), Without(order, x));
    HeldDropped(lists);
  }

  // ---- What every rollout rank yields ----

  // Bucket k holds the tensors of the k-th visit.
  ghost predicate Carries(c: Setup, lists: seq<seq<seq<Weight>>>, order: seq<(nat, nat)>) {
    |c.bs| == |order| && forall k :: 0 <= k < |order| ==> Content(c.bs[k]) == Entry(lists, order[k])
  }

  lemma {:induction false} DeliveredIsVisited(bs: seq<Bucket>, lists: seq<seq<seq<Weight>>>, order: seq<(nat, nat)>)
    requires |bs| == |order| && forall k :: 0 <= k < |order| ==> Content(bs[k]) == Entry(lists, order[k])
    ensures multiset(Delivered(bs)) == Visited(lists, order)
  {
    hide Content, Entry;
    if bs != [] {
      var n := |bs| - 1;
      DeliveredIsVisited(bs[..n], lists, order[..n]);
    }
  }

  // A bucket packed back to back carries its tensors, if their names are distinct.
  lemma PackedContent(g: seq<Weight>, owner: nat)
    requires AllWellFormed(g) && DistinctNames(g)
    ensures Content(Bucket(owner, Metas(g), Bytes(g))) == g
  {
    hide Metas, Bytes, Unpack, DistinctNames;
    DecodeOfDistinct(g);
  }

  // Every sender casts to one type; packed buckets of whole items in halves of whole items can always be viewed.
  lemma CastBucketsViewable(c: Setup, gs: seq<seq<Weight>>, s: Positive)
    requires |gs| == |c.bs| && Whole(c.size, s)
    requires forall k :: 0 <= k < |gs| ==>
                           AllWellFormed(gs[k]) && BucketPacking.CommonItemsize(gs[k], s) && c.bs[k].metas == Metas(gs[k])
    ensures AllBucketsViewable(c)
  {
    hide Metas, AllWellFormed, Whole;
    NoItems(s);
    forall g, j | 0 <= g < |c.bs| && 0 <= j < |c.bs[g].metas|
      ensures Viewable(c, g, j)
    {
      BaseFits(c, g);
      CommonItemsizeAligns(gs[g], s, Base(c, g));
      assert Aligned(Metas(gs[g])[j], Base(c, g));
    }
  }

  lemma PrefixMultiset(a: seq<Weight>, b: seq<Weight>)
    requires a <= b
    ensures multiset(a) <= multiset(b)
  {
    assert b == a + b[|a|..];
  }

  // With distinct names, whatever buckets the registered tensors are cut into, every rank of the rollout yields no tensor
  // but the sender's, none more often than it was sent, and each of them exactly once when it returns.
  lemma EveryRankYieldsTheWeights(c: Setup, ws: seq<Weight>, trainers: seq<seq<seq<Weight>>>, gss: seq<seq<seq<Weight>>>,
                                  lists: seq<seq<seq<Weight>>>, order: seq<(nat, nat)>,
                                  run: seq<State>, moves: seq<Move>, i: nat, r: nat)
    requires DistinctNames(ws) && Yield(ws, trainers, gss)
    requires Held(lists) == RegisteredUpTo(trainers, |trainers|)
    requires VisitsAll(lists, order) && Carries(c, lists, order)
    requires IsRun(c, run, moves) && i < |run| && r < c.world
    ensures |run[i].ranks| == c.world && multiset(run[i].ranks[r].out) <= multiset(ws)
    ensures run[i].ranks[r].pc == Done ==> multiset(run[i].ranks[r].out) == multiset(ws)
  {
    hide IsRun, Delivered, Content, DistinctNames, Held, VisitsAll, Visited;
    AllRegistered(ws, trainers, gss, |trainers|);
    StripesPartition(ws, |trainers|);
    VisitedIsHeld(lists, order);
    DeliveredIsVisited(c.bs, lists, order);
    EveryRankDelivers(c, run, moves, i, r);
    PrefixMultiset(run[i].ranks[r].out, Delivered(c.bs));
  }
}
