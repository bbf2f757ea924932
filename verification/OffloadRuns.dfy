/** Whole runs of the offload handler: any number of training iterations, each a forward pass that pushes tensors layer
    by layer and a backward pass that pops them. */
module OffloadRuns {
  import opened Arithmetic
  import opened Options
  import opened ActivationOffload

  // The handler, the pass it is in, and the tensors pushed and not yet popped.
  datatype Sys = Sys(h: Handler, back: bool, pushed: map<Tag, Tensor>)

  datatype Act = PushTensor(t: Tensor) | ForwardCommit | BackwardCommit | PopTensor(tag: Tag) | NewIteration

  // The same address, counting the storage offset once in elements, and the same type.
  ghost predicate Alike(s: Tensor, t: Tensor) {
    s.storage + s.storageOffset == t.storage + t.storageOffset && s.dtype == t.dtype
  }

  // In a group, tensors at one address of one type have equal contents.
  ghost predicate Keyed(pushed: map<Tag, Tensor>, g: nat, t: Tensor) {
    forall a :: a in pushed && a.group == g && Alike(pushed[a], t) ==> pushed[a].data == t.data
  }

  // What the training loop does: one commit per layer each way, and no pop before its layer's backward pass.
  ghost predicate CanDo(c: Config, s: Sys, a: Act) {
    match a
    case PushTensor(t) => !s.back && WellFormed(t) && Keyed(s.pushed, s.h.group, t)
    case ForwardCommit => !s.back
    case BackwardCommit => s.back && s.h.group > 0
    case PopTensor(tag) => s.back && tag in s.pushed && tag.group >= s.h.group
    case NewIteration => s.back && s.h.group == 0 && s.pushed == map[]
  }

  ghost function Next(c: Config, s: Sys, a: Act): Option<Sys>
    requires ValidConfig(c)
  {
    match a
    case PushTensor(t) =>
      var r := Push(c, s.h, t);
      if r == None then None
      else Some(s.(h := r.value.0, pushed := if r.value.1.Tagged? then s.pushed[r.value.1.tag := t] else s.pushed))
    case ForwardCommit =>
      var r := CommitForward(c, s.h);
      if r == None then None else Some(s.(h := r.value, back := r.value.group == c.layers))
    case BackwardCommit =>
      var r := CommitBackward(c, s.h);
      if r == None then None else Some(s.(h := r.value))
    case PopTensor(tag) =>
      var r := Pop(s.h, Tagged(tag));
      if r == None then None else Some(s.(h := r.value.0, pushed := s.pushed - {tag}))
    case NewIteration => Some(s.(back := false))
  }

  // ---- Invariants ----

  // k groups have their window layer before layer l.
  ghost predicate Turn(c: Config, l: int, k: nat)
    requires ValidConfig(c)
  {
    k <= c.groups && (k > 0 ==> Window(c, k - 1) < l) && (k < c.groups ==> Window(c, k) >= l)
  }

  // Groups 0..n-1 have been offloaded and not been reloaded.
  ghost predicate Schedule(c: Config, s: Sys, n: nat)
    requires ValidConfig(c)
  {
    var h := s.h;
    if s.back
    then h.group <= c.layers && Turn(c, h.group, n) && h.count == 0
         && h.offloaded == (if h.group == 0 then 0 else if n == 0 then 1 else n)
    else h.group < c.layers && Turn(c, h.group, h.offloaded)
         && n == (if h.group == 0 then 0 else Min(h.offloaded + 1, c.groups))
  }

  ghost predicate TagsMatch(es: seq<Entry>, pushed: map<Tag, Tensor>) {
    && DistinctTags(es)
    && (forall i :: 0 <= i < |es| ==> es[i].tag in pushed)
    && forall tag :: tag in pushed ==> HasTag(es, tag)
  }

  ghost predicate Issued(c: Config, s: Sys) {
    forall tag :: tag in s.pushed ==>
      if s.back then tag.group < c.layers
      else tag.group < s.h.group || (tag.group == s.h.group && tag.index < s.h.count)
  }

  ghost predicate EntryOk(c: Config, e: Entry, t: Tensor, back: bool, m: map<nat, map<Key, Tensor>>, n: nat) {
    && (match e.saved
        case Live(u) => SameValue(u, t) && (!back ==> u == t)
        case Ref(k, shape) =>
          && k == UniqueKey(t) && shape == t.shape && e.tag.group < n
          && e.tag.group in m && k in m[e.tag.group]
          && m[e.tag.group][k].data == t.data && m[e.tag.group][k].dtype == t.dtype)
    && (c.groups < c.layers && e.tag.group < n ==> e.saved.Ref?)
    && (c.groups == c.layers && e.tag.group > 0 ==> e.saved.Live?)
  }

  ghost predicate EntriesOk(c: Config, es: seq<Entry>, pushed: map<Tag, Tensor>, back: bool,
                            m: map<nat, map<Key, Tensor>>, n: nat) {
    forall i :: 0 <= i < |es| ==> es[i].tag in pushed && EntryOk(c, es[i], pushed[es[i].tag], back, m, n)
  }

  ghost predicate Domain(m: map<nat, map<Key, Tensor>>, n: nat) {
    forall g: nat :: g in m <==> g < n
  }

  ghost predicate BufsOk(c: Config, s: Sys) {
    && (forall tag :: tag in s.h.bufs ==> tag in s.pushed && tag.group < c.groups)
    && (forall tag :: tag in s.h.bufs && (s.back || tag.group < s.h.offloaded) ==> s.h.bufs[tag] == None)
    && (!s.back ==> forall tag :: tag in s.pushed && s.h.offloaded <= tag.group < c.groups ==>
                      tag in s.h.bufs && s.h.bufs[tag] == Some(s.pushed[tag]))
  }

  ghost predicate StreamsOk(c: Config, s: Sys, n: nat) {
    if s.back
    then s.h.copying == {}
         && forall tag :: tag in s.h.arriving ==> tag.group == n < s.h.group && c.groups < c.layers
    else s.h.arriving == {}
         && forall tag :: tag in s.h.copying ==> tag in s.pushed && tag.group == s.h.offloaded < c.groups
  }

  ghost predicate Honest(pushed: map<Tag, Tensor>) {
    && (forall a :: a in pushed ==> WellFormed(pushed[a]))
    && forall a, b :: a in pushed && b in pushed && a.group == b.group && Alike(pushed[a], pushed[b]) ==>
                        pushed[a].data == pushed[b].data
  }

  ghost predicate InvAt(c: Config, s: Sys, n: nat) {
    && ValidConfig(c) && Schedule(c, s, n) && TagsMatch(s.h.states, s.pushed) && Issued(c, s)
    && EntriesOk(c, s.h.states, s.pushed, s.back, s.h.mapping, n) && Domain(s.h.mapping, n)
    && BufsOk(c, s) && StreamsOk(c, s, n) && Honest(s.pushed)
  }

  ghost predicate Inv(c: Config, s: Sys) {
    exists n :: InvAt(c, s, n)
  }

  // ---- Bulk offload and reload of one group ----

  // Of the tensors under one key, the host keeps the one saved first.
  lemma {:induction false} FirstIsKept(es: seq<Entry>, g: nat, i: nat)
    requires i < |es| && es[i].tag.group == g && es[i].saved.Live?
    requires forall j :: 0 <= j < i && es[j].tag.group == g && es[j].saved.Live? ==>
                           !Alike(es[j].saved.tensor, es[i].saved.tensor)
    ensures UniqueKey(es[i].saved.tensor) in Firsts(es, g) && Firsts(es, g)[UniqueKey(es[i].saved.tensor)] == es[i].saved.tensor
  {
    var n := |es| - 1;
    if i < n {
      FirstIsKept(es[..n], g, i);
    } else {
      hide Firsts;
      FirstsOfGroup(es[..n], g);
      LastAdded(es, g);
    }
  }

  lemma LastAdded(es: seq<Entry>, g: nat)
    requires es != [] && es[|es| - 1].tag.group == g && es[|es| - 1].saved.Live?
    ensures var m, t := Firsts(es[..|es| - 1], g), es[|es| - 1].saved.tensor;
      Firsts(es, g) == if UniqueKey(t) in m then m else m[UniqueKey(t) := t]
  {
  }

  lemma {:induction false} FirstsOfGroup(es: seq<Entry>, g: nat)
    ensures forall i :: 0 <= i < |es| && es[i].tag.group == g && es[i].saved.Live? ==>
                          UniqueKey(es[i].saved.tensor) in Firsts(es, g)
    ensures forall k :: k in Firsts(es, g) ==>
                          exists i :: 0 <= i < |es| && es[i].tag.group == g && es[i].saved.Live?
                                      && es[i].saved.tensor == Firsts(es, g)[k] && UniqueKey(es[i].saved.tensor) == k
  {
    if es != [] {
      var n := |es| - 1;
      FirstsOfGroup(es[..n], g);
      forall k | k in Firsts(es, g)
        ensures exists i :: 0 <= i < |es| && es[i].tag.group == g && es[i].saved.Live?
                            && es[i].saved.tensor == Firsts(es, g)[k] && UniqueKey(es[i].saved.tensor) == k
      {
        if k in Firsts(es[..n], g) {
          var i :| 0 <= i < |es[..n]| && es[..n][i].tag.group == g && es[..n][i].saved.Live?
                   && es[..n][i].saved.tensor == Firsts(es[..n], g)[k] && UniqueKey(es[..n][i].saved.tensor) == k;
          assert es[i] == es[..n][i];
        } else {
          assert es[n].saved.tensor == Firsts(es, g)[k];
        }
      }
      forall i | 0 <= i < |es| && es[i].tag.group == g && es[i].saved.Live?
        ensures UniqueKey(es[i].saved.tensor) in Firsts(es, g)
      {
        if i < n {
          assert es[..n][i] == es[i];
        }
      }
    }
  }

  ghost predicate HonestGroup(es: seq<Entry>, g: nat) {
    forall i, j :: 0 <= i < |es| && 0 <= j < |es| && es[i].tag.group == es[j].tag.group == g
                   && es[i].saved.Live? && es[j].saved.Live?
                   && Alike(es[i].saved.tensor, es[j].saved.tensor) ==>
                     es[i].saved.tensor.data == es[j].saved.tensor.data
  }

  ghost predicate Recovered(es: seq<Entry>, g: nat) {
    var refs, m := ReferencedAll(es, g), Firsts(es, g);
    && AllRestorable(refs, g, m)
    && forall i :: 0 <= i < |es| && es[i].tag.group == g && es[i].saved.Live? ==>
         RestoredAll(refs, g, m)[i].saved.Live? && SameValue(RestoredAll(refs, g, m)[i].saved.tensor, es[i].saved.tensor)
  }

  // Offloading a group and reloading it gives every tensor back exactly when tensors under one key have one content.
  lemma RecoveredIffHonest(es: seq<Entry>, g: nat)
    requires AllLive(es, g)
    requires forall i :: 0 <= i < |es| && es[i].tag.group == g ==> WellFormed(es[i].saved.tensor)
    ensures Recovered(es, g) <==> HonestGroup(es, g)
  {
    hide Firsts;
    FirstsOfGroup(es, g);
    var refs, m := ReferencedAll(es, g), Firsts(es, g);
    if HonestGroup(es, g) {
      forall i | 0 <= i < |es| && es[i].tag.group == g
        ensures Restorable(refs[i], g, m) && m[refs[i].saved.key].data == es[i].saved.tensor.data
      {
        assert UniqueKey(es[i].saved.tensor) in m;
      }
      assert AllRestorable(refs, g, m);
    }
    if Recovered(es, g) {
      forall i | 0 <= i < |es| && es[i].tag.group == g
        ensures UniqueKey(es[i].saved.tensor) in m && m[UniqueKey(es[i].saved.tensor)].data == es[i].saved.tensor.data
      {
        assert RestoredAll(refs, g, m)[i] == Restored(refs[i], g, m);
      }
    }
  }

  // Tensors that pairwise differ in address or type, or else have equal contents, are all given back.
  lemma DistinctAreRecovered(es: seq<Entry>, g: nat)
    requires AllLive(es, g)
    requires forall i :: 0 <= i < |es| && es[i].tag.group == g ==> WellFormed(es[i].saved.tensor)
    requires forall i, j :: 0 <= i < j < |es| && es[i].tag.group == es[j].tag.group == g ==>
               var s, t := es[i].saved.tensor, es[j].saved.tensor;
               s.storage + s.storageOffset != t.storage + t.storageOffset || s.dtype != t.dtype || s.data == t.data
    ensures var refs, m := ReferencedAll(es, g), Firsts(es, g);
      && AllRestorable(refs, g, m)
      && forall i :: 0 <= i < |es| && es[i].tag.group == g ==>
           var t, u := es[i].saved.tensor, RestoredAll(refs, g, m)[i].saved;
           u.Live? && u.tensor.shape == t.shape && u.tensor.dtype == t.dtype && u.tensor.data == t.data
  {
    hide Firsts, ReferencedAll, RestoredAll, AllRestorable;
    forall i, j | 0 <= i < |es| && 0 <= j < |es| && es[i].tag.group == es[j].tag.group == g
                  && Alike(es[i].saved.tensor, es[j].saved.tensor)
      ensures es[i].saved.tensor.data == es[j].saved.tensor.data
    {
      if i < j {
        assert es[i].tag.group == es[j].tag.group;
      } else if j < i {
        assert es[j].tag.group == es[i].tag.group;
      }
    }
    assert HonestGroup(es, g);
    RecoveredIffHonest(es, g);
  }

  // A square matrix and its transpose share storage, offset and shape, so the second is given back as the first.
  lemma TransposeCollides()
    ensures var x, y := Tensor(0, 0, 0, [2, 2], [1, 2, 3, 4]), Tensor(0, 0, 0, [2, 2], [1, 3, 2, 4]);
      !Recovered([Entry(Tag(0, 0), Live(x)), Entry(Tag(0, 1), Live(y))], 0)
  {
    var x, y := Tensor(0, 0, 0, [2, 2], [1, 2, 3, 4]), Tensor(0, 0, 0, [2, 2], [1, 3, 2, 4]);
    var es := [Entry(Tag(0, 0), Live(x)), Entry(Tag(0, 1), Live(y))];
    assert x.shape[1..] == [2] && [2][1..] == [];
    assert Weights.Numel([2, 2]) == 4;
    assert es[0].saved.tensor.data[1] != es[1].saved.tensor.data[1];
    RecoveredIffHonest(es, 0);
  }

  lemma OffloadEntry(c: Config, e: Entry, t: Tensor, m: map<nat, map<Key, Tensor>>, n: nat, f: map<Key, Tensor>)
    requires EntryOk(c, e, t, false, m, n) && Domain(m, n) && n < c.groups <= c.layers
    requires e.tag.group == n ==> UniqueKey(t) in f && f[UniqueKey(t)].data == t.data && UniqueKey(f[UniqueKey(t)]) == UniqueKey(t)
    requires c.groups == c.layers && n > 0 ==> e.tag.group < n
    ensures e.tag.group == n ==> e.saved.Live?
    ensures EntryOk(c, Referenced(e, n), t, false, m[n := f], n + 1)
  {
  }

  lemma FirstIsHonest(c: Config, es: seq<Entry>, pushed: map<Tag, Tensor>, m: map<nat, map<Key, Tensor>>, n: nat, i: nat)
    requires EntriesOk(c, es, pushed, false, m, n) && Honest(pushed) && i < |es| && es[i].tag.group == n
    ensures var t, f := pushed[es[i].tag], Firsts(es, n);
      UniqueKey(t) in f && f[UniqueKey(t)].data == t.data && UniqueKey(f[UniqueKey(t)]) == UniqueKey(t)
  {
    hide Firsts;
    FirstsOfGroup(es, n);
    var f := Firsts(es, n);
    assert EntryOk(c, es[i], pushed[es[i].tag], false, m, n);
    var k := UniqueKey(es[i].saved.tensor);
    var j :| 0 <= j < |es| && es[j].tag.group == n && es[j].saved.Live?
             && es[j].saved.tensor == f[k] && UniqueKey(es[j].saved.tensor) == k;
    assert EntryOk(c, es[j], pushed[es[j].tag], false, m, n);
  }

  lemma OffloadEntries(c: Config, es: seq<Entry>, pushed: map<Tag, Tensor>, m: map<nat, map<Key, Tensor>>, n: nat)
    requires EntriesOk(c, es, pushed, false, m, n) && Domain(m, n) && Honest(pushed) && n < c.groups <= c.layers
    requires c.groups == c.layers && n > 0 ==> forall i :: 0 <= i < |es| ==> es[i].tag.group < n
    ensures AllLive(es, n) && Domain(m[n := Firsts(es, n)], n + 1)
    ensures EntriesOk(c, ReferencedAll(es, n), pushed, false, m[n := Firsts(es, n)], n + 1)
  {
    hide Firsts, EntryOk, Honest;
    var f := Firsts(es, n);
    forall i | 0 <= i < |es|
      ensures es[i].tag.group == n ==> es[i].saved.Live?
      ensures EntryOk(c, Referenced(es[i], n), pushed[es[i].tag], false, m[n := f], n + 1)
    {
      if es[i].tag.group == n {
        FirstIsHonest(c, es, pushed, m, n, i);
      }
      OffloadEntry(c, es[i], pushed[es[i].tag], m, n, f);
    }
  }

  lemma ReloadEntries(c: Config, es: seq<Entry>, pushed: map<Tag, Tensor>, m: map<nat, map<Key, Tensor>>, n: nat)
    requires EntriesOk(c, es, pushed, true, m, n + 1) && Domain(m, n + 1) && Honest(pushed) && n < c.groups <= c.layers
    ensures AllRestorable(es, n, m[n]) && Domain(m - {n}, n)
    ensures EntriesOk(c, RestoredAll(es, n, m[n]), pushed, true, m - {n}, n)
  {
    forall i | 0 <= i < |es|
      ensures Restorable(es[i], n, m[n]) && EntryOk(c, Restored(es[i], n, m[n]), pushed[es[i].tag], true, m - {n}, n)
    {
      assert EntryOk(c, es[i], pushed[es[i].tag], true, m, n + 1);
      assert WellFormed(pushed[es[i].tag]);
    }
  }

  // ---- Every step succeeds and keeps the invariant ----

  lemma FreshInv(c: Config)
    requires ValidConfig(c)
    ensures InvAt(c, Sys(Fresh(), false, map[]), 0)
  {
    WindowAhead(c, 0);
  }

  lemma SameTags(es: seq<Entry>, es': seq<Entry>, pushed: map<Tag, Tensor>)
    requires TagsMatch(es, pushed) && |es'| == |es| && forall i :: 0 <= i < |es| ==> es'[i].tag == es[i].tag
    ensures TagsMatch(es', pushed)
  {
    forall tag | tag in pushed
      ensures HasTag(es', tag)
    {
      var i :| 0 <= i < |es| && es[i].tag == tag;
      assert es'[i].tag == tag;
    }
  }

  lemma PushTags(es: seq<Entry>, pushed: map<Tag, Tensor>, tag: Tag, t: Tensor)
    requires TagsMatch(es, pushed) && tag !in pushed
    ensures !HasTag(es, tag) && TagsMatch(es + [Entry(tag, Live(t))], pushed[tag := t])
  {
    var es' := es + [Entry(tag, Live(t))];
    forall a | a in pushed[tag := t]
      ensures HasTag(es', a)
    {
      if a == tag {
        assert es'[|es|].tag == tag;
      } else {
        var i :| 0 <= i < |es| && es[i].tag == a;
        assert es'[i].tag == a;
      }
    }
  }

  lemma KeepPush(c: Config, s: Sys, t: Tensor, n: nat)
    requires InvAt(c, s, n) && CanDo(c, s, PushTensor(t))
    ensures Next(c, s, PushTensor(t)).Some? && InvAt(c, Next(c, s, PushTensor(t)).value, n)
  {
    hide Window, TagsMatch, EntriesOk, BufsOk, StreamsOk, Honest, Domain, HasTag, Keyed;
    if c.needs(t) {
      var tag := Tag(s.h.group, s.h.count);
      assert tag !in s.pushed;
      PushTags(s.h.states, s.pushed, tag, t);
      var s' := Next(c, s, PushTensor(t)).value;
      HonestPush(s.pushed, tag, t);
      ForwardBounds(c, s, n);
      PushEntries(c, s, tag, t, n);
      PushBuffers(c, s, tag, t, s', n);
    }
  }

  lemma PushEntries(c: Config, s: Sys, tag: Tag, t: Tensor, n: nat)
    requires EntriesOk(c, s.h.states, s.pushed, false, s.h.mapping, n) && tag !in s.pushed
    requires c.groups < c.layers ==> tag.group >= n
    ensures EntriesOk(c, s.h.states + [Entry(tag, Live(t))], s.pushed[tag := t], false, s.h.mapping, n)
  {
  }

  lemma PushBuffers(c: Config, s: Sys, tag: Tag, t: Tensor, s': Sys, n: nat)
    requires BufsOk(c, s) && StreamsOk(c, s, n) && !s.back && !s'.back && s.h.offloaded <= tag.group && tag !in s.pushed
    requires s'.pushed == s.pushed[tag := t] && s'.h.bufs == if tag.group < c.groups then s.h.bufs[tag := Some(t)] else s.h.bufs
    requires s'.h.offloaded == s.h.offloaded && s'.h.copying == s.h.copying && s'.h.arriving == s.h.arriving
    ensures BufsOk(c, s') && StreamsOk(c, s', n)
  {
  }

  lemma HonestPush(pushed: map<Tag, Tensor>, tag: Tag, t: Tensor)
    requires Honest(pushed) && WellFormed(t) && Keyed(pushed, tag.group, t) && tag !in pushed
    ensures Honest(pushed[tag := t])
  {
  }

  // In the forward pass the group under way is past everything released, and past everything offloaded if groups < layers.
  lemma ForwardBounds(c: Config, s: Sys, n: nat)
    requires ValidConfig(c) && Schedule(c, s, n) && !s.back
    ensures s.h.offloaded <= s.h.group && s.h.offloaded < c.groups
    ensures n <= c.groups && (c.groups < c.layers ==> n <= s.h.group)
  {
    WindowAhead(c, c.groups - 1);
    if s.h.offloaded > 0 {
      WindowAhead(c, s.h.offloaded - 1);
    }
  }

  // One group more on the host, as part of a forward commit.
  lemma OffloadNext(c: Config, s: Sys, h: Handler, n: nat)
    requires ValidConfig(c) && TagsMatch(h.states, s.pushed) && Honest(s.pushed) && n < c.groups
    requires EntriesOk(c, h.states, s.pushed, false, h.mapping, n) && Domain(h.mapping, n)
    requires c.groups == c.layers && n > 0 ==> forall tag :: tag in s.pushed ==> tag.group < n
    ensures BulkOffload(h, n).Some?
    ensures var h' := BulkOffload(h, n).value;
      && TagsMatch(h'.states, s.pushed) && EntriesOk(c, h'.states, s.pushed, false, h'.mapping, n + 1) && Domain(h'.mapping, n + 1)
      && forall tag :: tag in h'.copying ==> tag in h.copying || (tag in s.pushed && tag.group == n)
  {
    hide Firsts, Honest, EntryOk;
    TagsIn(h.states, s.pushed);
    OffloadEntries(c, h.states, s.pushed, h.mapping, n);
    SameTags(h.states, ReferencedAll(h.states, n), s.pushed);
  }

  lemma TagsIn(es: seq<Entry>, pushed: map<Tag, Tensor>)
    requires TagsMatch(es, pushed)
    ensures forall i :: 0 <= i < |es| ==> es[i].tag in pushed
  {
  }

  // The pieces of the invariant a forward commit passes through.
  ghost predicate Mid(c: Config, s: Sys, h: Handler, n: nat) {
    && ValidConfig(c) && TagsMatch(h.states, s.pushed) && Honest(s.pushed)
    && EntriesOk(c, h.states, s.pushed, false, h.mapping, n) && Domain(h.mapping, n)
    && BufsOk(c, Sys(h, false, s.pushed)) && StreamsOk(c, Sys(h, false, s.pushed), n)
  }

  lemma FirstOffload(c: Config, s: Sys)
    requires InvAt(c, s, 0) && !s.back && s.h.group == 0 && s.h.offloaded == 0
    ensures BulkOffload(s.h, 0).Some? && Mid(c, s, BulkOffload(s.h, 0).value, 1)
  {
    hide TagsMatch, EntriesOk, Honest, Domain, Issued, Schedule, BufsOk;
    OffloadNext(c, s, s.h, 0);
    OffloadFrame(s.h, 0);
    BufsFrame(c, s, Sys(BulkOffload(s.h, 0).value, false, s.pushed));
  }

  lemma BufsFrame(c: Config, s: Sys, s': Sys)
    requires BufsOk(c, s) && s'.h.bufs == s.h.bufs && s'.h.offloaded == s.h.offloaded && s'.pushed == s.pushed && s'.back == s.back
    ensures BufsOk(c, s')
  {
  }

  lemma ReleaseBufs(c: Config, s: Sys, h: Handler, h': Handler)
    requires BufsOk(c, Sys(h, false, s.pushed)) && h.offloaded < c.groups
    requires h'.bufs == Release(h, h.offloaded).bufs && h'.offloaded == h.offloaded + 1
    ensures BufsOk(c, Sys(h', false, s.pushed))
    ensures h'.offloaded == c.groups ==> BufsOk(c, Sys(h', true, s.pushed))
  {
  }

  // Releasing group `offloaded` and offloading the one after it.
  lemma AdvanceKeeps(c: Config, s: Sys, h: Handler, layer: nat, n: nat)
    requires Mid(c, s, h, n) && h.offloaded < c.groups && n == Min(h.offloaded + 1, c.groups) && Window(c, h.offloaded) == layer
    requires forall tag :: tag in s.pushed ==> tag.group <= layer
    ensures Advance(c, h, layer).Some?
    ensures var h' := Advance(c, h, layer).value;
      && Mid(c, s, h', Min(h'.offloaded + 1, c.groups)) && h'.offloaded == h.offloaded + 1
      && (h'.offloaded == c.groups ==> BufsOk(c, Sys(h', true, s.pushed)) && h'.copying == {})
  {
    hide TagsMatch, EntriesOk, Honest, Domain, BufsOk, Window;
    var r := Release(h, h.offloaded);
    WindowAhead(c, h.offloaded);
    if h.offloaded < c.groups - 1 {
      OffloadFrame(r, n);
      OffloadNext(c, s, r, n);
    }
    ReleaseBufs(c, s, h, Advance(c, h, layer).value);
  }

  lemma KeepForwardCommit(c: Config, s: Sys, n: nat)
    requires InvAt(c, s, n) && CanDo(c, s, ForwardCommit)
    ensures Next(c, s, ForwardCommit).Some? && Inv(c, Next(c, s, ForwardCommit).value)
  {
    hide TagsMatch, EntriesOk, Honest, Domain, BufsOk, Window, StreamsOk, Mid, Advance, BulkOffload;
    ForwardBounds(c, s, n);
    var l := s.h.group;
    var h := s.h;
    if l == 0 {
      FirstOffload(c, s);
      OffloadFrame(s.h, 0);
      h := BulkOffload(s.h, 0).value;
    } else {
      MidOfInv(c, s, n);
    }
    assert Mid(c, s, h, Min(h.offloaded + 1, c.groups));
    CommitTail(c, s, h, l);
  }

  lemma MidOfInv(c: Config, s: Sys, n: nat)
    requires InvAt(c, s, n) && !s.back && s.h.group > 0
    ensures Mid(c, s, s.h, n)
  {
    hide TagsMatch, EntriesOk, Honest, Domain, BufsOk;
    assert s == Sys(s.h, false, s.pushed);
  }

  lemma AdvanceIdle(c: Config, h: Handler, l: nat)
    requires ValidConfig(c) && h.offloaded < c.groups && Window(c, h.offloaded) != l
    ensures Advance(c, h, l) == Some(h)
  {
  }

  lemma AdvanceFrame(c: Config, h: Handler, l: nat)
    requires ValidConfig(c) && Advance(c, h, l).Some?
    ensures Advance(c, h, l).value.group == h.group
  {
  }

  lemma CommitTail(c: Config, s: Sys, h: Handler, l: nat)
    requires Mid(c, s, h, Min(h.offloaded + 1, c.groups)) && h.offloaded < c.groups && h.group == l < c.layers
    requires Turn(c, l, h.offloaded) && Issued(c, s) && !s.back && s.h.group == l
    ensures Advance(c, h, l).Some?
    ensures var h' := Advance(c, h, l).value.(group := l + 1, count := 0);
      Inv(c, Sys(h', l + 1 == c.layers, s.pushed))
  {
    hide TagsMatch, EntriesOk, Honest, Domain, BufsOk, Window, StreamsOk, Advance;
    var k := h.offloaded;
    MidIsValid(c, s, h, Min(k + 1, c.groups));
    if Window(c, k) == l {
      AdvanceKeeps(c, s, h, l, Min(k + 1, c.groups));
      AdvanceFrame(c, h, l);
      NextTurn(c, l, k);
    } else {
      AdvanceIdle(c, h, l);
      WindowAhead(c, c.groups - 1);
    }
    var a := Advance(c, h, l).value;
    CommitAssemble(c, s, a, l);
  }

  lemma MidIsValid(c: Config, s: Sys, h: Handler, n: nat)
    requires Mid(c, s, h, n)
    ensures ValidConfig(c)
  {
  }

  lemma NextTurn(c: Config, l: int, k: nat)
    requires ValidConfig(c) && k < c.groups && Window(c, k) == l
    ensures Turn(c, l + 1, k + 1)
  {
    if k + 1 < c.groups {
      WindowIncreasing(c, k, k + 1);
    }
  }

  lemma CommitAssemble(c: Config, s: Sys, a: Handler, l: nat)
    requires Mid(c, s, a, Min(a.offloaded + 1, c.groups)) && a.group == l < c.layers && a.offloaded <= c.groups
    requires Turn(c, l + 1, a.offloaded) && Issued(c, s) && !s.back && s.h.group == l
    requires a.offloaded == c.groups ==> BufsOk(c, Sys(a, true, s.pushed)) && a.copying == {}
    ensures Inv(c, Sys(a.(group := l + 1, count := 0), l + 1 == c.layers, s.pushed))
  {
    hide TagsMatch, EntriesOk, Honest, Domain, BufsOk, Window;
    var n' := Min(a.offloaded + 1, c.groups);
    var s' := Sys(a.(group := l + 1, count := 0), l + 1 == c.layers, s.pushed);
    if a.offloaded < c.groups {
      WindowAhead(c, a.offloaded);
    }
    BufsFrame(c, Sys(a, s'.back, s.pushed), s');
    EntriesWeaken(c, a.states, s.pushed, a.mapping, n');
    assert InvAt(c, s', n');
  }

  lemma EntriesWeaken(c: Config, es: seq<Entry>, pushed: map<Tag, Tensor>, m: map<nat, map<Key, Tensor>>, n: nat)
    requires EntriesOk(c, es, pushed, false, m, n)
    ensures EntriesOk(c, es, pushed, true, m, n)
  {
  }

  // ---- Backward ----

  // In the backward pass everything from the current group on is back on the device.
  lemma BackwardBounds(c: Config, g: nat, n: nat)
    requires ValidConfig(c) && Turn(c, g, n)
    ensures n <= g && (c.groups < c.layers && n > 0 ==> n < g)
  {
    if n > 0 {
      WindowAhead(c, n - 1);
    }
  }

  lemma KeepBackwardCommit(c: Config, s: Sys, n: nat)
    requires InvAt(c, s, n) && CanDo(c, s, BackwardCommit)
    ensures Next(c, s, BackwardCommit).Some? && Inv(c, Next(c, s, BackwardCommit).value)
  {
    hide TagsMatch, EntriesOk, Honest, Domain, BufsOk, Window, StreamsOk, BulkReload;
    var l := s.h.group - 1;
    BackwardBounds(c, s.h.group, n);
    if Window(c, s.h.offloaded - 1) == l {
      assert n >= 1;
      PreviousTurn(c, l, n);
      var h := s.h.(group := l, arriving := {});
      ReloadKeeps(c, s, h, n - 1);
      var r := BulkReload(c, h, n - 1).value;
      StreamsFrame(c, Sys(r.(arriving := if l == 0 then {} else r.arriving), true, s.pushed), Next(c, s, BackwardCommit).value, n - 1);
      BackwardAssemble(c, s, Next(c, s, BackwardCommit).value, n - 1);
    } else {
      IdleStreams(c, s, Next(c, s, BackwardCommit).value, n);
      BackwardBounds(c, l, n);
      BackwardAssemble(c, s, Next(c, s, BackwardCommit).value, n);
    }
  }

  lemma StreamsFrame(c: Config, s: Sys, s': Sys, n: nat)
    requires StreamsOk(c, s, n) && s.back && s'.back
    requires s'.h.copying == s.h.copying && s'.h.arriving == s.h.arriving && s'.h.group == s.h.group
    ensures StreamsOk(c, s', n)
  {
  }

  lemma PreviousTurn(c: Config, l: int, n: nat)
    requires ValidConfig(c) && 0 < n <= c.groups && Window(c, n - 1) == l
    ensures Turn(c, l, n - 1)
  {
    if n > 1 {
      WindowIncreasing(c, n - 2, n - 1);
    }
  }

  lemma IdleStreams(c: Config, s: Sys, s': Sys, n: nat)
    requires ValidConfig(c) && s.back && s'.back && StreamsOk(c, s, n) && s'.h.copying == s.h.copying
    requires Turn(c, s'.h.group, n)
    requires s'.h.arriving == if s'.h.group == 0 then {} else s.h.arriving
    ensures StreamsOk(c, s', n)
  {
    BackwardBounds(c, s'.h.group, n);
  }

  lemma ReloadKeeps(c: Config, s: Sys, h: Handler, n: nat)
    requires InvAt(c, s, n + 1) && s.back && n < c.groups
    requires h == s.h.(group := h.group, arriving := {}) && Window(c, n) == h.group
    ensures BulkReload(c, h, n).Some?
    ensures var r := BulkReload(c, h, n).value;
      && r == h.(states := r.states, mapping := r.mapping, arriving := r.arriving)
      && TagsMatch(r.states, s.pushed) && EntriesOk(c, r.states, s.pushed, true, r.mapping, n) && Domain(r.mapping, n)
      && StreamsOk(c, Sys(r.(arriving := if h.group == 0 then {} else r.arriving), true, s.pushed), n)
  {
    hide TagsMatch, EntriesOk, Domain, BufsOk, Window, EntryOk;
    ReloadEntries(c, h.states, s.pushed, h.mapping, n);
    assert n in h.mapping by { assert Domain(h.mapping, n + 1); DomainHas(h.mapping, n); }
    SameTags(h.states, RestoredAll(h.states, n, h.mapping[n]), s.pushed);
    WindowAhead(c, n);
    AllGroupsStay(c, h.states, s.pushed, h.mapping, n);
  }

  lemma DomainHas(m: map<nat, map<Key, Tensor>>, n: nat)
    requires Domain(m, n + 1)
    ensures n in m
  {
  }

  lemma AllGroupsStay(c: Config, es: seq<Entry>, pushed: map<Tag, Tensor>, m: map<nat, map<Key, Tensor>>, n: nat)
    requires EntriesOk(c, es, pushed, true, m, n + 1)
    ensures c.groups == c.layers && n > 0 ==> RefTags(es, n) == {}
  {
  }

  lemma BackwardAssemble(c: Config, s: Sys, s': Sys, n: nat)
    requires Inv(c, s) && s.back && s'.back && s'.pushed == s.pushed && s'.h.bufs == s.h.bufs && s'.h.group + 1 == s.h.group
    requires TagsMatch(s'.h.states, s.pushed) && EntriesOk(c, s'.h.states, s.pushed, true, s'.h.mapping, n)
    requires ValidConfig(c) && Domain(s'.h.mapping, n) && StreamsOk(c, s', n) && Turn(c, s'.h.group, n) && s'.h.count == 0
    requires s'.h.offloaded == (if s'.h.group == 0 then 0 else if n == 0 then 1 else n)
    ensures Inv(c, s')
  {
    hide TagsMatch, EntriesOk, Honest, Domain, Window, StreamsOk;
    assert InvAt(c, s', n);
  }

  // ---- Pop and a new iteration ----

  lemma PopTags(es: seq<Entry>, pushed: map<Tag, Tensor>, tag: Tag)
    requires TagsMatch(es, pushed) && tag in pushed
    ensures HasTag(es, tag) && TagsMatch(Without(es, Find(es, tag)), pushed - {tag})
  {
    hide Find, Without, DistinctTags;
    var es' := Without(es, Find(es, tag));
    WithoutOne(es, Find(es, tag));
    assert forall j :: 0 <= j < |es'| ==> HasTag(es', es'[j].tag);
  }

  lemma PopEntries(c: Config, es: seq<Entry>, pushed: map<Tag, Tensor>, m: map<nat, map<Key, Tensor>>, n: nat, i: nat)
    requires EntriesOk(c, es, pushed, true, m, n) && DistinctTags(es) && i < |es|
    ensures EntriesOk(c, Without(es, i), pushed - {es[i].tag}, true, m, n)
  {
    hide EntryOk;
    var es' := Without(es, i);
    assert forall j :: 0 <= j < |es'| ==> es'[j] == es[if j < i then j else j + 1];
  }

  lemma PoppedEntry(c: Config, s: Sys, tag: Tag, n: nat)
    requires InvAt(c, s, n) && CanDo(c, s, PopTensor(tag))
    ensures HasTag(s.h.states, tag)
    ensures var e := s.h.states[Find(s.h.states, tag)]; e.saved.Live? && SameValue(e.saved.tensor, s.pushed[tag])
    ensures tag !in s.h.arriving
  {
    hide Honest, BufsOk, Domain, Window, Issued;
    PopTags(s.h.states, s.pushed, tag);
    BackwardBounds(c, s.h.group, n);
    var i := Find(s.h.states, tag);
    assert EntryOk(c, s.h.states[i], s.pushed[tag], true, s.h.mapping, n);
  }

  lemma KeepPop(c: Config, s: Sys, tag: Tag, n: nat)
    requires InvAt(c, s, n) && CanDo(c, s, PopTensor(tag))
    ensures Next(c, s, PopTensor(tag)).Some? && InvAt(c, Next(c, s, PopTensor(tag)).value, n)
  {
    hide Domain, Window, EntriesOk, Find, HasTag;
    PoppedEntry(c, s, tag, n);
    PopTags(s.h.states, s.pushed, tag);
    PopEntries(c, s.h.states, s.pushed, s.h.mapping, n, Find(s.h.states, tag));
  }

  lemma SomeTag(es: seq<Entry>, pushed: map<Tag, Tensor>)
    requires TagsMatch(es, pushed) && es != []
    ensures pushed != map[]
  {
    assert es[0].tag in pushed;
  }

  // Between iterations the handler is as it was created.
  lemma Drained(c: Config, s: Sys, n: nat)
    requires InvAt(c, s, n) && CanDo(c, s, NewIteration)
    ensures s.h == Fresh() && n == 0
  {
    BackwardBounds(c, 0, n);
    if s.h.states != [] {
      SomeTag(s.h.states, s.pushed);
    }
    assert s.h.bufs == map[];
    assert s.h.mapping == map[];
    assert s.h.arriving == {};
  }

  lemma StepKeeps(c: Config, s: Sys, a: Act)
    requires Inv(c, s) && CanDo(c, s, a) && ValidConfig(c)
    ensures Next(c, s, a).Some? && Inv(c, Next(c, s, a).value)
  {
    hide InvAt, CanDo, Next;
    var n :| InvAt(c, s, n);
    match a
    case PushTensor(t) => KeepPush(c, s, t, n);
    case ForwardCommit => KeepForwardCommit(c, s, n);
    case BackwardCommit => KeepBackwardCommit(c, s, n);
    case PopTensor(tag) => KeepPop(c, s, tag, n);
    case NewIteration =>
      Drained(c, s, n);
      FreshInv(c);
      Restart(c, s);
  }

  lemma Restart(c: Config, s: Sys)
    requires ValidConfig(c) && CanDo(c, s, NewIteration) && s.h == Fresh()
    ensures Next(c, s, NewIteration) == Some(Sys(Fresh(), false, map[]))
  {
  }

  // ---- Runs ----

  ghost predicate Goes(c: Config, s: Sys, a: Act, s': Sys) {
    ValidConfig(c) && CanDo(c, s, a) && Next(c, s, a) == Some(s')
  }

  ghost predicate IsRun(c: Config, run: seq<Sys>, acts: seq<Act>) {
    && ValidConfig(c) && |run| == |acts| + 1 && run[0] == Sys(Fresh(), false, map[])
    && forall i :: 0 <= i < |acts| ==> Goes(c, run[i], acts[i], run[i + 1])
  }

  lemma {:induction false} RunInv(c: Config, run: seq<Sys>, acts: seq<Act>, i: nat)
    requires IsRun(c, run, acts) && i < |run|
    ensures Inv(c, run[i])
  {
    hide InvAt, CanDo, Next;
    if i == 0 {
      FreshInv(c);
    } else {
      RunInv(c, run, acts, i - 1);
      assert Goes(c, run[i - 1], acts[i - 1], run[i]);
      StepKeeps(c, run[i - 1], acts[i - 1]);
    }
  }

  // No assertion of the handler fails and no key is missing, whatever the loop does next.
  lemma NothingFails(c: Config, run: seq<Sys>, acts: seq<Act>, i: nat, a: Act)
    requires IsRun(c, run, acts) && i < |run| && CanDo(c, run[i], a)
    ensures Next(c, run[i], a).Some?
  {
    hide InvAt, CanDo, Next;
    RunInv(c, run, acts, i);
    StepKeeps(c, run[i], a);
  }

  // Every pop gives back the shape, type and contents that were pushed under the tag, and its copy has been waited for.
  lemma PopReturnsPushed(c: Config, run: seq<Sys>, acts: seq<Act>, i: nat, tag: Tag)
    requires IsRun(c, run, acts) && i < |run| && CanDo(c, run[i], PopTensor(tag))
    ensures Pop(run[i].h, Tagged(tag)).Some?
    ensures var popped, pushed := Pop(run[i].h, Tagged(tag)).value.1, run[i].pushed[tag];
      popped.shape == pushed.shape && popped.dtype == pushed.dtype && popped.data == pushed.data
    ensures tag !in run[i].h.arriving
  {
    hide InvAt, Find, HasTag;
    RunInv(c, run, acts, i);
    var n :| InvAt(c, run[i], n);
    PoppedEntry(c, run[i], tag, n);
  }

  // No device tensor is let go while it is being copied to the host.
  lemma CopiesStayHeld(c: Config, run: seq<Sys>, acts: seq<Act>, i: nat, tag: Tag)
    requires IsRun(c, run, acts) && i < |run| && tag in run[i].h.copying
    ensures tag in run[i].pushed && tag in run[i].h.bufs && run[i].h.bufs[tag] == Some(run[i].pushed[tag])
  {
    hide EntriesOk, TagsMatch, Schedule, Domain, Honest;
    RunInv(c, run, acts, i);
  }

  // After a whole backward pass the handler is back in its initial state.
  lemma BackToFresh(c: Config, run: seq<Sys>, acts: seq<Act>, i: nat)
    requires IsRun(c, run, acts) && i < |run| && run[i].back && run[i].h.group == 0 && run[i].pushed == map[]
    ensures run[i].h == Fresh()
  {
    hide InvAt;
    RunInv(c, run, acts, i);
    var n :| InvAt(c, run[i], n);
    Drained(c, run[i], n);
  }

  // ---- Residency ----

  ghost predicate Resident(h: Handler, g: nat) {
    || (exists i :: 0 <= i < |h.states| && h.states[i].tag.group == g && h.states[i].saved.Live?)
    || (exists tag :: tag in h.bufs && tag.group == g && h.bufs[tag].Some?)
  }

  // Going forward only groups not yet released are on the device; going backward only those reloaded.
  lemma ResidentRange(c: Config, s: Sys, n: nat, g: nat)
    requires InvAt(c, s, n) && c.groups < c.layers && Resident(s.h, g)
    ensures if s.back then n <= g else s.h.offloaded <= g <= s.h.group
    ensures exists tag :: tag in s.pushed && tag.group == g
  {
    hide Honest, Domain, StreamsOk, Window;
    ForwardOrBack(c, s, n);
    if i :| 0 <= i < |s.h.states| && s.h.states[i].tag.group == g && s.h.states[i].saved.Live? {
      assert EntryOk(c, s.h.states[i], s.pushed[s.h.states[i].tag], s.back, s.h.mapping, n);
    } else {
      var tag :| tag in s.h.bufs && tag.group == g && s.h.bufs[tag].Some?;
      assert tag in s.pushed;
    }
  }

  lemma ForwardOrBack(c: Config, s: Sys, n: nat)
    requires ValidConfig(c) && Schedule(c, s, n)
    ensures !s.back ==> n >= s.h.offloaded && (s.h.group > 0 ==> n > s.h.offloaded || n == c.groups)
  {
  }

  // With the setting of enable_activation_offloading, one group fewer than layers, at most two groups are on the device
  // at any point, the current one and the one before it, besides what the backward pass has not yet popped.
  lemma AtMostTwoGroups(c: Config, run: seq<Sys>, acts: seq<Act>, i: nat, g: nat)
    requires IsRun(c, run, acts) && i < |run| && c.groups == c.layers - 1 && Resident(run[i].h, g)
    ensures || g == run[i].h.group || g == run[i].h.group - 1
            || (run[i].back && g > run[i].h.group && exists tag :: tag in run[i].pushed && tag.group == g)
  {
    hide InvAt, Resident;
    RunInv(c, run, acts, i);
    var n :| InvAt(c, run[i], n);
    ResidentRange(c, run[i], n, g);
    CurrentWindow(c, run[i], n);
  }

  lemma CurrentWindow(c: Config, s: Sys, n: nat)
    requires InvAt(c, s, n) && c.groups == c.layers - 1
    ensures if s.back then n >= s.h.group - 1 else s.h.offloaded >= s.h.group - 1
  {
    hide Honest, Domain, StreamsOk, BufsOk, EntriesOk, TagsMatch, Window;
    var k := if s.back then n else s.h.offloaded;
    if k < c.groups {
      WindowOfAllButOne(c, k);
    }
  }

  // With fewer groups than layers no tensor is pushed into a group that has already been offloaded.
  lemma OffloadedGroupsAreComplete(c: Config, run: seq<Sys>, acts: seq<Act>, i: nat)
    requires IsRun(c, run, acts) && i < |run| && c.groups < c.layers && !run[i].back
    ensures forall g :: run[i].h.group <= g ==> g !in run[i].h.mapping
  {
    hide EntriesOk, TagsMatch, BufsOk, StreamsOk, Honest, Window;
    RunInv(c, run, acts, i);
    var n :| InvAt(c, run[i], n);
    ForwardBounds(c, run[i], n);
  }

  // With as many groups as layers every group but the first is offloaded before anything is pushed into it.
  lemma OneGroupPerLayerOffloadsOnlyTheFirst(c: Config, run: seq<Sys>, acts: seq<Act>, i: nat, k: nat)
    requires IsRun(c, run, acts) && i < |run| && c.groups == c.layers && k < |run[i].h.states|
    ensures run[i].h.states[k].tag.group > 0 ==> run[i].h.states[k].saved.Live?
  {
    hide TagsMatch, BufsOk, StreamsOk, Honest, Window, Domain, Schedule;
    RunInv(c, run, acts, i);
    var n :| InvAt(c, run[i], n);
    assert EntryOk(c, run[i].h.states[k], run[i].pushed[run[i].h.states[k].tag], run[i].back, run[i].h.mapping, n);
  }
}
