/** Asynchronous offloading of saved activations: what each operation of the handler does, as functions on its fields,
    and the class whose methods run them. */
module ActivationOffload {
  import opened Arithmetic
  import opened Options
  import Weights

  // A tensor as autograd saves it. Element values are opaque; data lists them in row-major order.
  datatype Tensor = Tensor(storage: int, storageOffset: nat, dtype: nat, shape: seq<nat>, data: seq<int>)

  datatype Key = Key(address: int, dtype: nat)

  // Neither shape nor strides take part in the key.
  function UniqueKey(t: Tensor): Key {
    Key(t.storage + t.storageOffset, t.dtype)
  }

  predicate WellFormed(t: Tensor) {
    |t.data| == Weights.Numel(t.shape)
  }

  predicate SameValue(a: Tensor, b: Tensor) {
    a.shape == b.shape && a.data == b.data && a.dtype == b.dtype
  }

  datatype Tag = Tag(group: nat, index: nat)

  // A saved tensor, or what replaces it while its group is on the host.
  datatype Saved = Live(tensor: Tensor) | Ref(key: Key, shape: seq<nat>)

  datatype Entry = Entry(tag: Tag, saved: Saved)

  // What a push hands to autograd: a tag, or the tensor itself if it is not to be offloaded.
  datatype Ident = Tagged(tag: Tag) | Itself(tensor: Tensor)

  datatype Handler = Handler(
    group: nat,                                 // current_group
    count: nat,                                 // tensor_count_current_group
    states: seq<Entry>,                         // tensor_tag_to_state, in insertion order
    bufs: map<Tag, Option<Tensor>>,             // tensor_tag_to_buf
    offloaded: nat,                             // offloaded_group_count
    mapping: map<nat, map<Key, Tensor>>,        // group_offload_mapping
    copying: set<Tag>,                          // being copied to the host, not yet waited for
    arriving: set<Tag>)                         // being copied back, not yet waited for

  // needs: the caller's filter, false for fake tensors too.
  datatype Config = Config(groups: nat, layers: nat, needs: Tensor -> bool)

  ghost predicate ValidConfig(c: Config) {
    1 <= c.groups <= c.layers
  }

  function Fresh(): Handler {
    Handler(0, 0, [], map[], 0, map[], {}, {})
  }

  // ---- The window map ----

  // Closed form of the layer at whose commit group i is released.
  function Window(c: Config, i: int): int
    requires c.groups > 0
  {
    c.layers / c.groups * (i + 1) - 1 + Min(i + 1, c.layers % c.groups)
  }

  // From one group's layer to the next there are L div G layers, and one more for the first L mod G groups.
  lemma WindowGaps(c: Config, i: nat)
    requires ValidConfig(c) && i < c.groups
    ensures Window(c, -1) == -1
    ensures Window(c, i) - Window(c, i - 1) == c.layers / c.groups + if i < c.layers % c.groups then 1 else 0
  {
    NextProduct(i, c.layers / c.groups);
    assert c.layers / c.groups * (i + 1) == (i + 1) * (c.layers / c.groups) && c.layers / c.groups * i == i * (c.layers / c.groups);
  }

  // The constructor's loop.
  method BuildWindowMap(c: Config) returns (window: map<int, int>)
    requires ValidConfig(c)
    ensures forall i :: i in window <==> 0 <= i < c.groups
    ensures forall i :: 0 <= i < c.groups ==> window[i] == Window(c, i)
  {
    window := map[];
    var constant := 0;
    for i := 0 to c.groups
      invariant forall j :: j in window <==> 0 <= j < i
      invariant forall j :: 0 <= j < i ==> window[j] == Window(c, j)
      invariant constant == Min(i, c.layers % c.groups)
    {
      window := window[i := c.layers / c.groups * (i + 1) - 1];
      if i < c.layers % c.groups {
        window := window[i := window[i] + (i + 1)];
        constant := i + 1;
      } else {
        window := window[i := window[i] + constant];
      }
    }
  }

  // ---- Operations ----

  predicate HasTag(es: seq<Entry>, tag: Tag) {
    exists i :: 0 <= i < |es| && es[i].tag == tag
  }

  function Find(es: seq<Entry>, tag: Tag): (i: nat)
    requires HasTag(es, tag)
    ensures i < |es| && es[i].tag == tag
  {
    if es[0].tag == tag then 0 else 1 + Find(es[1..], tag)
  }

  function Without<T>(s: seq<T>, i: nat): seq<T>
    requires i < |s|
  {
    s[..i] + s[i + 1..]
  }

  function Push(c: Config, h: Handler, t: Tensor): Option<(Handler, Ident)> {
    var tag := Tag(h.group, h.count);
    if !c.needs(t) then Some((h, Itself(t)))
    else if HasTag(h.states, tag) then None
    else Some((h.(count := h.count + 1, states := h.states + [Entry(tag, Live(t))],
                  bufs := if h.group < c.groups then h.bufs[tag := Some(t)] else h.bufs), Tagged(tag)))
  }

  function Pop(h: Handler, id: Ident): Option<(Handler, Tensor)> {
    match id
    case Itself(t) => Some((h, t))
    case Tagged(tag) =>
      if !HasTag(h.states, tag) then None
      else
        var i := Find(h.states, tag);
        match h.states[i].saved
        case Ref(_, _) => None
        case Live(t) => Some((h.(states := Without(h.states, i), bufs := h.bufs - {tag}), t))
  }

  // ---- What is saved under a tag ----

  ghost predicate DistinctTags(es: seq<Entry>) {
    forall i, j :: 0 <= i < j < |es| ==> es[i].tag != es[j].tag
  }

  function Lookup(es: seq<Entry>, tag: Tag): Option<Saved> {
    if HasTag(es, tag) then Some(es[Find(es, tag)].saved) else None
  }

  lemma {:induction false} FindIsFirst(es: seq<Entry>, tag: Tag, i: nat)
    requires i < |es| && es[i].tag == tag
    ensures HasTag(es, tag) && Find(es, tag) <= i
    ensures (forall j :: 0 <= j < i ==> es[j].tag != tag) ==> Find(es, tag) == i
  {
    if es[0].tag != tag {
      assert es[1..][i - 1].tag == tag;
      FindIsFirst(es[1..], tag, i - 1);
    }
  }

  lemma {:induction false} BeforeFind(es: seq<Entry>, tag: Tag)
    requires HasTag(es, tag)
    ensures forall j :: 0 <= j < Find(es, tag) ==> es[j].tag != tag
  {
    if es[0].tag != tag {
      var i :| 0 <= i < |es| && es[i].tag == tag;
      FindIsFirst(es[1..], tag, i - 1);
      BeforeFind(es[1..], tag);
      assert forall j :: 0 < j < |es| ==> es[j] == es[1..][j - 1];
    }
  }

  // Only the new tag's entry changes.
  lemma LookupAdded(es: seq<Entry>, e: Entry, tag: Tag)
    requires !HasTag(es, e.tag)
    ensures Lookup(es + [e], tag) == if tag == e.tag then Some(e.saved) else Lookup(es, tag)
    ensures DistinctTags(es) ==> DistinctTags(es + [e])
  {
    hide Find;
    var es' := es + [e];
    assert es'[|es|] == e;
    if tag == e.tag {
      FindIsFirst(es', tag, |es|);
    } else if HasTag(es, tag) {
      BeforeFind(es, tag);
      FindIsFirst(es', tag, Find(es, tag));
    }
  }

  lemma WithoutAt<T>(s: seq<T>, i: nat)
    requires i < |s|
    ensures |Without(s, i)| == |s| - 1
    ensures forall j :: 0 <= j < |s| - 1 ==> Without(s, i)[j] == s[if j < i then j else j + 1]
  {
  }

  // Only the removed tag's entry changes.
  lemma LookupRemoved(es: seq<Entry>, tag: Tag, other: Tag)
    requires HasTag(es, tag) && other != tag
    ensures Lookup(Without(es, Find(es, tag)), other) == Lookup(es, other)
  {
    hide Find, Without;
    var i, es' := Find(es, tag), Without(es, Find(es, tag));
    WithoutAt(es, i);
    if HasTag(es, other) {
      var k := Find(es, other);
      BeforeFind(es, other);
      FindIsFirst(es', other, if k < i then k else k - 1);
    }
  }

  lemma RemovedIsGone(es: seq<Entry>, tag: Tag)
    requires HasTag(es, tag) && DistinctTags(es)
    ensures var es' := Without(es, Find(es, tag)); DistinctTags(es') && Lookup(es', tag) == None
  {
    hide Find, Without, DistinctTags;
    WithoutOne(es, Find(es, tag));
  }

  lemma WithoutOne(es: seq<Entry>, i: nat)
    requires DistinctTags(es) && i < |es|
    ensures DistinctTags(Without(es, i))
    ensures forall a :: HasTag(Without(es, i), a) <==> HasTag(es, a) && a != es[i].tag
  {
    var es' := Without(es, i);
    assert forall j :: 0 <= j < |es'| ==> es'[j] == es[if j < i then j else j + 1];
    forall a | HasTag(es, a) && a != es[i].tag
      ensures HasTag(es', a)
    {
      var j :| 0 <= j < |es| && es[j].tag == a;
      assert es'[if j < i then j else j - 1].tag == a;
    }
  }

  // A tensor popped right after it was pushed is that tensor, and the handler holds what it held before.
  lemma PushPop(c: Config, h: Handler, t: Tensor)
    requires Push(c, h, t).Some? && Tag(h.group, h.count) !in h.bufs
    ensures var (h', id) := Push(c, h, t).value;
      Pop(h', id) == Some((h.(count := h'.count), t))
  {
    if c.needs(t) {
      var (h', id) := Push(c, h, t).value;
      FindIsFirst(h'.states, id.tag, |h.states|);
      assert Without(h'.states, |h.states|) == h.states;
      assert h'.bufs - {id.tag} == h.bufs;
    }
  }

  predicate AllLive(es: seq<Entry>, g: nat) {
    forall i :: 0 <= i < |es| && es[i].tag.group == g ==> es[i].saved.Live?
  }

  // The first tensor of the group under each key.
  function Firsts(es: seq<Entry>, g: nat): map<Key, Tensor> {
    if es == [] then map[]
    else
      var m, e := Firsts(es[..|es| - 1], g), es[|es| - 1];
      if e.tag.group == g && e.saved.Live? && UniqueKey(e.saved.tensor) !in m
      then m[UniqueKey(e.saved.tensor) := e.saved.tensor] else m
  }

  function Referenced(e: Entry, g: nat): Entry {
    if e.tag.group == g && e.saved.Live? then Entry(e.tag, Ref(UniqueKey(e.saved.tensor), e.saved.tensor.shape)) else e
  }

  function ReferencedAll(es: seq<Entry>, g: nat): seq<Entry> {
    seq(|es|, i requires 0 <= i < |es| => Referenced(es[i], g))
  }

  function TagsOf(es: seq<Entry>, g: nat): set<Tag> {
    set i | 0 <= i < |es| && es[i].tag.group == g :: es[i].tag
  }

  function BulkOffload(h: Handler, g: nat): Option<Handler> {
    if !AllLive(h.states, g) then None
    else Some(h.(states := ReferencedAll(h.states, g), mapping := h.mapping[g := Firsts(h.states, g)],
                 copying := h.copying + TagsOf(h.states, g)))
  }

  lemma OffloadFrame(h: Handler, g: nat)
    ensures var o := BulkOffload(h, g);
      o.Some? ==> o.value.group == h.group && o.value.count == h.count && o.value.bufs == h.bufs
                  && o.value.offloaded == h.offloaded && o.value.arriving == h.arriving
  {
  }

  // The wait for the copies under way, then the release of the group's device tensors.
  function Release(h: Handler, g: nat): Handler {
    h.(copying := {}, bufs := map tag | tag in h.bufs :: if tag.group == g then None else h.bufs[tag])
  }

  // Shape and contents of the host copy; the key stands for the new storage, which nothing looks up again.
  predicate Restorable(e: Entry, g: nat, m: map<Key, Tensor>) {
    e.tag.group == g && e.saved.Ref? ==>
      e.saved.key in m && |m[e.saved.key].data| == Weights.Numel(e.saved.shape)
  }

  function Restored(e: Entry, g: nat, m: map<Key, Tensor>): Entry
    requires Restorable(e, g, m)
  {
    if e.tag.group == g && e.saved.Ref? then Entry(e.tag, Live(m[e.saved.key].(shape := e.saved.shape))) else e
  }

  predicate AllRestorable(es: seq<Entry>, g: nat, m: map<Key, Tensor>) {
    forall i :: 0 <= i < |es| ==> Restorable(es[i], g, m)
  }

  function RestoredAll(es: seq<Entry>, g: nat, m: map<Key, Tensor>): seq<Entry>
    requires AllRestorable(es, g, m)
  {
    seq(|es|, i requires 0 <= i < |es| => Restored(es[i], g, m))
  }

  function RefTags(es: seq<Entry>, g: nat): set<Tag> {
    set i | 0 <= i < |es| && es[i].tag.group == g && es[i].saved.Ref? :: es[i].tag
  }

  function BulkReload(c: Config, h: Handler, g: nat): Option<Handler> {
    if g >= c.groups || g !in h.mapping || !AllRestorable(h.states, g, h.mapping[g]) then None
    else Some(h.(states := RestoredAll(h.states, g, h.mapping[g]), mapping := h.mapping - {g},
                 arriving := h.arriving + RefTags(h.states, g)))
  }

  // The part of a forward commit that depends on the window map.
  function Advance(c: Config, h: Handler, layer: nat): Option<Handler> {
    if h.offloaded >= c.groups then None
    else if Window(c, h.offloaded) != layer then Some(h)
    else
      var r := Release(h, h.offloaded);
      var o := if h.offloaded < c.groups - 1 then BulkOffload(r, h.offloaded + 1) else Some(r);
      if o == None then None else Some(o.value.(offloaded := h.offloaded + 1))
  }

  function CommitForward(c: Config, h: Handler): Option<Handler> {
    var o := if h.group == 0 then BulkOffload(h, 0) else Some(h);
    if o == None then None
    else
      var a := Advance(c, o.value, h.group);
      if a == None then None else Some(a.value.(group := h.group + 1, count := 0))
  }

  function Prefetch(c: Config, h: Handler, layer: nat): Option<Handler> {
    if !(1 <= h.offloaded <= c.groups) then None
    else if Window(c, h.offloaded - 1) != layer then Some(h)
    else
      var r := BulkReload(c, h.(arriving := {}), h.offloaded - 1);
      if r == None then None else Some(r.value.(offloaded := if h.offloaded > 1 then h.offloaded - 1 else h.offloaded))
  }

  function CommitBackward(c: Config, h: Handler): Option<Handler> {
    if h.group == 0 then None
    else
      var p := Prefetch(c, h.(group := h.group - 1), h.group - 1);
      if p == None then None
      else Some(if h.group == 1 then p.value.(arriving := {}, offloaded := 0) else p.value)
  }

  // ---- The class ----

  class AsyncDoubleBufferGroupOffloadHandler {
    const config: Config
    const layerWindowMap: map<int, int>
    var currentGroup: nat
    var tensorCountCurrentGroup: nat
    var tensorTagToState: seq<Entry>
    var tensorTagToBuf: map<Tag, Option<Tensor>>
    var offloadedGroupCount: nat
    var groupOffloadMapping: map<nat, map<Key, Tensor>>
    var copying: set<Tag>
    var arriving: set<Tag>

    ghost predicate Valid() {
      && ValidConfig(config)
      && (forall i :: i in layerWindowMap <==> 0 <= i < config.groups)
      && forall i :: 0 <= i < config.groups ==> layerWindowMap[i] == Window(config, i)
    }

    function Model(): Handler
      reads this
    {
      Handler(currentGroup, tensorCountCurrentGroup, tensorTagToState, tensorTagToBuf, offloadedGroupCount,
              groupOffloadMapping, copying, arriving)
    }

    constructor (config: Config)
      requires ValidConfig(config)
      ensures Valid() && this.config == config && Model() == Fresh()
    {
      var window := BuildWindowMap(config);
      this.config := config;
      layerWindowMap := window;
      currentGroup, tensorCountCurrentGroup, offloadedGroupCount := 0, 0, 0;
      tensorTagToState, tensorTagToBuf, groupOffloadMapping := [], map[], map[];
      copying, arriving := {}, {};
    }

    method TensorPush(tensor: Tensor) returns (r: Option<Ident>)
      requires Valid()
      modifies this
      ensures var spec := Push(config, old(Model()), tensor);
        if spec == None then r == None else r == Some(spec.value.1) && Model() == spec.value.0
      ensures !config.needs(tensor) ==> r == Some(Itself(tensor)) && Model() == old(Model())
      ensures config.needs(tensor) ==>
                var tag := Tag(old(currentGroup), old(tensorCountCurrentGroup));
                r == if HasTag(old(tensorTagToState), tag) then None else Some(Tagged(tag))
      ensures r.Some? && r.value.Tagged? ==> Lookup(old(tensorTagToState), r.value.tag) == None
      ensures r.Some? ==>
                forall tag :: Lookup(tensorTagToState, tag)
                           == if r.value == Tagged(tag) then Some(Live(tensor)) else Lookup(old(tensorTagToState), tag)
      ensures r.Some? && DistinctTags(old(tensorTagToState)) ==> DistinctTags(tensorTagToState)
    {
      if !config.needs(tensor) {
        return Some(Itself(tensor));
      }
      var tag := Tag(currentGroup, tensorCountCurrentGroup);
      tensorCountCurrentGroup := tensorCountCurrentGroup + 1;
      if HasTag(tensorTagToState, tag) {
        return None;
      }
      forall other: Tag
        ensures Lookup(tensorTagToState + [Entry(tag, Live(tensor))], other) ==
                if other == tag then Some(Live(tensor)) else Lookup(tensorTagToState, other)
      {
        LookupAdded(tensorTagToState, Entry(tag, Live(tensor)), other);
      }
      LookupAdded(tensorTagToState, Entry(tag, Live(tensor)), tag);
      tensorTagToState := tensorTagToState + [Entry(tag, Live(tensor))];
      if currentGroup < config.groups {
        tensorTagToBuf := tensorTagToBuf[tag := Some(tensor)];
      }
      r := Some(Tagged(tag));
    }

    method TensorPop(id: Ident) returns (r: Option<Tensor>)
      requires Valid()
      modifies this
      ensures var spec := Pop(old(Model()), id);
        if spec == None then r == None else r == Some(spec.value.1) && Model() == spec.value.0
      ensures id.Itself? ==> r == Some(id.tensor) && Model() == old(Model())
      ensures id.Tagged? ==>
                (r.Some? <==> Lookup(old(tensorTagToState), id.tag).Some? && Lookup(old(tensorTagToState), id.tag).value.Live?)
      ensures r.Some? && id.Tagged? ==> Lookup(old(tensorTagToState), id.tag) == Some(Live(r.value))
      ensures r.Some? ==>
                forall tag :: id != Tagged(tag) ==> Lookup(tensorTagToState, tag) == Lookup(old(tensorTagToState), tag)
      ensures r.Some? && DistinctTags(old(tensorTagToState)) ==>
                DistinctTags(tensorTagToState) && (id.Tagged? ==> Lookup(tensorTagToState, id.tag) == None)
    {
      match id
      case Itself(t) => return Some(t);
      case Tagged(tag) =>
        if !HasTag(tensorTagToState, tag) {
          return None;
        }
        var i := Find(tensorTagToState, tag);
        var saved := tensorTagToState[i].saved;
        forall other: Tag | other != tag
          ensures Lookup(Without(tensorTagToState, i), other) == Lookup(tensorTagToState, other)
        {
          LookupRemoved(tensorTagToState, tag, other);
        }
        if DistinctTags(tensorTagToState) {
          RemovedIsGone(tensorTagToState, tag);
        }
        tensorTagToState := Without(tensorTagToState, i);
        tensorTagToBuf := tensorTagToBuf - {tag};
        if saved.Ref? {
          return None;
        }
        r := Some(saved.tensor);
    }

    method BulkOffloadGroup(g: nat) returns (ok: bool)
      requires Valid()
      modifies this
      ensures var spec := BulkOffload(old(Model()), g);
        ok == spec.Some? && (ok ==> Model() == spec.value)
      ensures ok <==> forall i :: 0 <= i < |old(tensorTagToState)| && old(tensorTagToState)[i].tag.group == g ==>
                old(tensorTagToState)[i].saved.Live?
      ensures ok ==> forall tag :: tag in copying <==>
                tag in old(copying) || (tag.group == g && HasTag(old(tensorTagToState), tag))
      ensures ok ==> |tensorTagToState| == |old(tensorTagToState)|
      ensures ok ==> forall i :: 0 <= i < |tensorTagToState| ==>
                var e := old(tensorTagToState)[i];
                if e.tag.group != g then tensorTagToState[i] == e
                else && e.saved.Live?
                     && var t := e.saved.tensor;
                        tensorTagToState[i] == Entry(e.tag, Ref(Key(t.storage + t.storageOffset, t.dtype), t.shape))
    {
      var mapping: map<Key, Tensor> := map[];
      var es := tensorTagToState;
      for i := 0 to |es|
        invariant forall k :: 0 <= k < i && es[k].tag.group == g ==> es[k].saved.Live?
        invariant mapping == Firsts(es[..i], g)
        invariant |tensorTagToState| == |es|
        invariant forall k :: 0 <= k < |es| ==> tensorTagToState[k] == if k < i then Referenced(es[k], g) else es[k]
        invariant Model() == old(Model()).(states := tensorTagToState)
      {
        assert es[..i + 1][..i] == es[..i];
        var e := tensorTagToState[i];
        if e.tag.group == g {
          if e.saved.Ref? {
            return false;
          }
          var key := UniqueKey(e.saved.tensor);
          if key !in mapping {
            mapping := mapping[key := e.saved.tensor];
          }
          tensorTagToState := tensorTagToState[i := Entry(e.tag, Ref(key, e.saved.tensor.shape))];
        }
      }
      assert es[..|es|] == es;
      assert tensorTagToState == ReferencedAll(es, g);
      copying := copying + TagsOf(es, g);
      groupOffloadMapping := groupOffloadMapping[g := mapping];
      ok := true;
    }

    // The wait for the copies under way, then letting go of the group's device tensors.
    method ReleaseOffloadedGroup()
      modifies this`copying, this`tensorTagToBuf
      ensures Model() == Release(old(Model()), offloadedGroupCount)
    {
      copying := {};
      tensorTagToBuf := map tag | tag in tensorTagToBuf ::
        if tag.group == offloadedGroupCount then None else tensorTagToBuf[tag];
    }

    method SynchronizeOnGroupCommitForward(layer: nat) returns (ok: bool)
      requires Valid() && layer == currentGroup
      modifies this
      ensures var o := if layer == 0 then BulkOffload(old(Model()), 0) else Some(old(Model()));
        var spec := if o == None then None else Advance(config, o.value, layer);
        ok == spec.Some? && (ok ==> Model() == spec.value)
    {
      hide BulkOffload, Window;
      OffloadFrame(Model(), 0);
      if layer == 0 {
        ok := BulkOffloadGroup(layer);
        if !ok {
          return;
        }
      }
      if offloadedGroupCount !in layerWindowMap {
        return false;
      }
      if layerWindowMap[offloadedGroupCount] == layer {
        ReleaseOffloadedGroup();
        OffloadFrame(Model(), offloadedGroupCount + 1);
        if offloadedGroupCount < config.groups - 1 {
          ok := BulkOffloadGroup(offloadedGroupCount + 1);
          if !ok {
            return;
          }
        }
        offloadedGroupCount := offloadedGroupCount + 1;
      }
      ok := true;
    }

    method OnGroupCommitForward() returns (ok: bool)
      requires Valid()
      modifies this
      ensures var spec := CommitForward(config, old(Model())); ok == spec.Some? && (ok ==> Model() == spec.value)
      ensures ok ==> old(offloadedGroupCount) < config.groups
      ensures ok ==> currentGroup == old(currentGroup) + 1 && tensorCountCurrentGroup == 0
    {
      ok := SynchronizeOnGroupCommitForward(currentGroup);
      currentGroup := currentGroup + 1;
      tensorCountCurrentGroup := 0;
    }

    method BulkReloadGroup(g: nat) returns (ok: bool)
      requires Valid()
      modifies this
      ensures var spec := BulkReload(config, old(Model()), g); ok == spec.Some? && (ok ==> Model() == spec.value)
      ensures ok <==>
                && g < config.groups && g in old(groupOffloadMapping)
                && forall i :: 0 <= i < |old(tensorTagToState)| ==>
                     var e, m := old(tensorTagToState)[i], old(groupOffloadMapping)[g];
                     e.tag.group == g && e.saved.Ref? ==>
                       e.saved.key in m && |m[e.saved.key].data| == Weights.Product(e.saved.shape)
      ensures ok ==> forall tag :: tag in arriving <==>
                || tag in old(arriving)
                || (tag.group == g && exists i :: 0 <= i < |old(tensorTagToState)| && old(tensorTagToState)[i].tag == tag
                                                  && old(tensorTagToState)[i].saved.Ref?)
    {
      if g >= config.groups || g !in groupOffloadMapping {
        return false;
      }
      var mapping := groupOffloadMapping[g];
      NumelOfShapes(tensorTagToState);
      groupOffloadMapping := groupOffloadMapping - {g};
      var es := tensorTagToState;
      for i := 0 to |es|
        invariant forall k :: 0 <= k < i ==> Restorable(es[k], g, mapping)
        invariant |tensorTagToState| == |es|
        invariant forall k :: 0 <= k < |es| ==> tensorTagToState[k] == if k < i then Restored(es[k], g, mapping) else es[k]
        invariant Model() == old(Model()).(states := tensorTagToState, mapping := old(groupOffloadMapping) - {g})
      {
        var e := tensorTagToState[i];
        if e.tag.group == g && e.saved.Ref? {
          if e.saved.key !in mapping || |mapping[e.saved.key].data| != Weights.Numel(e.saved.shape) {
            assert !Restorable(es[i], g, mapping);
            return false;
          }
          tensorTagToState := tensorTagToState[i := Entry(e.tag, Live(mapping[e.saved.key].(shape := e.saved.shape)))];
        }
      }
      assert AllRestorable(es, g, mapping);
      assert tensorTagToState == RestoredAll(es, g, mapping);
      arriving := arriving + RefTags(es, g);
      ok := true;
    }

    method OnGroupCommitBackward() returns (ok: bool)
      requires Valid()
      modifies this
      ensures var spec := CommitBackward(config, old(Model())); ok == spec.Some? && (ok ==> Model() == spec.value)
      ensures ok ==> old(currentGroup) > 0 && 1 <= old(offloadedGroupCount) <= config.groups
      ensures ok ==> currentGroup + 1 == old(currentGroup)
    {
      if currentGroup == 0 {
        return false;
      }
      currentGroup := currentGroup - 1;
      if offloadedGroupCount - 1 !in layerWindowMap {
        return false;
      }
      if layerWindowMap[offloadedGroupCount - 1] == currentGroup {
        arriving := {};
        ok := BulkReloadGroup(offloadedGroupCount - 1);
        if !ok {
          return;
        }
        offloadedGroupCount := offloadedGroupCount - (if offloadedGroupCount > 1 then 1 else 0);
      }
      if currentGroup == 0 {
        arriving := {};
        offloadedGroupCount := 0;
      }
      ok := true;
    }
  }

  lemma NumelOfShapes(es: seq<Entry>)
    ensures forall i :: 0 <= i < |es| && es[i].saved.Ref? ==>
              Weights.Numel(es[i].saved.shape) == Weights.Product(es[i].saved.shape)
  {
    hide Weights.Numel, Weights.Product;
    forall i | 0 <= i < |es| && es[i].saved.Ref?
      ensures Weights.Numel(es[i].saved.shape) == Weights.Product(es[i].saved.shape)
    {
      Weights.NumelIsProduct(es[i].saved.shape);
    }
  }

  // ---- Window arithmetic ----

  lemma QuotientAtLeastOne(q: int, n: nat, r: nat)
    requires q * n + r >= n > r
    ensures q >= 1
  {
    if q <= 0 {
      Monotone(q, 0, n);
    }
  }

  lemma DivFacts(c: Config)
    requires ValidConfig(c)
    ensures c.layers == c.layers / c.groups * c.groups + c.layers % c.groups
    ensures c.layers / c.groups >= 1 && 0 <= c.layers % c.groups < c.groups
    ensures c.groups < c.layers ==> c.layers / c.groups >= 2 || c.layers % c.groups >= 1
    ensures c.groups == c.layers ==> c.layers / c.groups == 1 && c.layers % c.groups == 0
  {
    var q, r := c.layers / c.groups, c.layers % c.groups;
    assert c.layers == q * c.groups + r;
    QuotientAtLeastOne(q, c.groups, r);
    if q == 1 {
      assert q * c.groups == c.groups;
    }
  }

  // Strictly increasing, from at least i (past i unless every layer is a group) to the last layer.
  lemma WindowIncreasing(c: Config, i: nat, j: nat)
    requires ValidConfig(c) && i < j < c.groups
    ensures Window(c, i) < Window(c, j)
  {
    DivFacts(c);
    var q := c.layers / c.groups;
    Monotone(i + 2, j + 1, q);
    assert q * (i + 2) == q * (i + 1) + q;
  }

  lemma WindowAhead(c: Config, i: nat)
    requires ValidConfig(c) && i < c.groups
    ensures i <= Window(c, i) < c.layers
    ensures c.groups < c.layers ==> i + 1 <= Window(c, i)
    ensures c.groups == c.layers ==> Window(c, i) == i
    ensures i == c.groups - 1 ==> Window(c, i) == c.layers - 1
  {
    DivFacts(c);
    var q, r := c.layers / c.groups, c.layers % c.groups;
    Monotone(1, q, i + 1);
    assert q * (i + 1) == (i + 1) * q;
    if q >= 2 {
      Monotone(2, q, i + 1);
    }
    Monotone(i + 1, c.groups, q);
  }

  // With one group fewer than layers, the setting enable_activation_offloading chooses.
  lemma WindowOfAllButOne(c: Config, i: nat)
    requires ValidConfig(c) && c.groups == c.layers - 1 && i < c.groups
    ensures Window(c, i) == i + 1
  {
    DivFacts(c);
    if c.groups >= 2 {
      QuotientOne(c.layers / c.groups, c.groups, c.layers % c.groups);
    }
  }

  lemma QuotientOne(q: nat, n: nat, r: nat)
    requires q * n + r == n + 1 && r < n && n >= 2
    ensures q == 1 && r == 1
  {
    if q >= 2 {
      Monotone(2, q, n);
    }
    if q == 0 {
      Monotone(q, 0, n);
    }
  }
}
