/** Wiring of the NIXL chain and the per-agent message and notification queues. */
module NixlAgent {
  import opened Options

  // ---- Topology ----

  // Python's list[lo:hi] with negative bounds.
  function Clamp(n: nat, i: int): nat {
    if i < 0 then (if n + i < 0 then 0 else n + i) else if i > n then n else i
  }

  function PySlice<A>(s: seq<A>, lo: int, hi: int): seq<A> {
    var a, b := Clamp(|s|, lo), Clamp(|s|, hi);
    if a <= b then s[a..b] else []
  }

  function PySliceFrom<A>(s: seq<A>, lo: int): seq<A> {
    s[Clamp(|s|, lo)..]
  }

  function PyAt<A>(s: seq<A>, i: int): Option<A> {
    if 0 <= i < |s| then Some(s[i]) else if i < 0 <= |s| + i then Some(s[|s| + i]) else None
  }

  // The lists of keyword arguments handed out by build_topology, for agents of type A.
  datatype Topology<A> = Topology(trainerRank: seq<int>, trainerNext: seq<Option<A>>,
                                  rolloutRank: seq<int>, rolloutPrev: seq<Option<A>>, rolloutNext: seq<Option<A>>)

  function Somes<A>(s: seq<A>): seq<Option<A>> {
    seq(|s|, i requires 0 <= i < |s| => Some(s[i]))
  }

  function Nones<A>(n: nat): seq<Option<A>> {
    seq(n, _ => None)
  }

  function BuildTopology<A>(trainers: nat, rollouts: nat, metadata: seq<A>): Topology<A>
    requires trainers >= 1
  {
    Topology([0] + seq(trainers - 1, _ => -1),
             [PyAt(metadata, -(rollouts as int))] + Nones(trainers - 1),
             seq(rollouts, i => i + 1),
             [PyAt(metadata, 0)] + Somes(PySlice(metadata, -(rollouts as int), -1)),
             Somes(PySliceFrom(metadata, 1 - rollouts)) + [None])
  }

  // The manager's check: every list has one entry per worker.
  predicate Dispatchable<A>(t: Topology<A>, trainers: nat, rollouts: nat) {
    && |t.trainerRank| == |t.trainerNext| == trainers
    && |t.rolloutRank| == |t.rolloutPrev| == |t.rolloutNext| == rollouts
  }

  // The agent at chain position k: the first trainer, then the rollout workers.
  function AgentAt<A>(trainers: nat, metadata: seq<A>, k: nat): A
    requires 1 <= trainers && k + trainers - 1 < |metadata|
  {
    if k == 0 then metadata[0] else metadata[trainers + k - 1]
  }

  ghost predicate IsChain<A>(t: Topology<A>, trainers: nat, rollouts: nat, metadata: seq<A>)
    requires 1 <= trainers && |metadata| == trainers + rollouts && Dispatchable(t, trainers, rollouts) && 1 <= rollouts
  {
    && t.trainerRank[0] == 0 && t.trainerNext[0] == Some(AgentAt(trainers, metadata, 1))
    && (forall i :: 1 <= i < trainers ==> t.trainerRank[i] == -1 && t.trainerNext[i] == None)
    && forall i :: 0 <= i < rollouts ==>
         && t.rolloutRank[i] == i + 1
         && t.rolloutPrev[i] == Some(AgentAt(trainers, metadata, i))
         && t.rolloutNext[i] == (if i + 1 < rollouts then Some(AgentAt(trainers, metadata, i + 2)) else None)
  }

  lemma RolloutSlices<A>(trainers: nat, rollouts: nat, metadata: seq<A>)
    requires trainers >= 1 && |metadata| == trainers + rollouts
    ensures PyAt(metadata, 0) == Some(metadata[0])
    ensures rollouts >= 1 ==> PyAt(metadata, -(rollouts as int)) == Some(metadata[trainers])
    ensures rollouts >= 1 ==> PySlice(metadata, -(rollouts as int), -1) == metadata[trainers..trainers + rollouts - 1]
    ensures rollouts >= 2 ==> PySliceFrom(metadata, 1 - rollouts) == metadata[trainers + 1..]
    ensures rollouts == 1 ==> PySliceFrom(metadata, 1 - rollouts) == metadata
    ensures rollouts == 0 ==> |PySliceFrom(metadata, 1 - rollouts)| == |metadata| - 1
  {
  }

  // The manager accepts the topology exactly when there are at least two rollout workers (with one, a slice from
  // index -0 is the whole list), and then every worker is linked to its neighbours in the chain.
  lemma TopologyNeedsTwoRollouts<A>(trainers: nat, rollouts: nat, metadata: seq<A>)
    requires trainers >= 1 && |metadata| == trainers + rollouts
    ensures var t := BuildTopology(trainers, rollouts, metadata);
      && (Dispatchable(t, trainers, rollouts) <==> rollouts >= 2)
      && (rollouts >= 2 ==> IsChain(t, trainers, rollouts, metadata))
  {
    hide PySlice, PySliceFrom, PyAt;
    RolloutSlices(trainers, rollouts, metadata);
  }

  // ---- Queues of one agent ----

  type Name = string

  function Queue<X>(m: map<Name, seq<X>>, name: Name): seq<X> {
    if name in m then m[name] else []
  }

  function From<M>(arrivals: seq<(Name, M)>, name: Name): seq<M> {
    if arrivals == [] then []
    else (if arrivals[0].0 == name then [arrivals[0].1] else []) + From(arrivals[1..], name)
  }

  // One result of get_new_notifs: a dict from agent name to new notifications, in dict order.
  type Batch<N> = seq<(Name, seq<N>)>

  function Extend<N>(m: map<Name, seq<N>>, b: Batch<N>): map<Name, seq<N>> {
    if b == [] then m
    else var i := |b| - 1; var m' := Extend(m, b[..i]); m'[b[i].0 := Queue(m', b[i].0) + b[i].1]
  }

  // The loop variable of the inner for overwrites the name being waited for.
  function Rebound<N>(name: Name, b: Batch<N>): Name {
    if b == [] then name else b[|b| - 1].0
  }

  // How many polls get_notification consumes before some queue it looks at is non-empty, and whose queue that is.
  function PollsNeeded<N>(m: map<Name, seq<N>>, name: Name, polls: seq<Batch<N>>): nat
    decreases |polls|
  {
    if Queue(m, name) != [] || polls == [] then 0
    else 1 + PollsNeeded(Extend(m, polls[0]), Rebound(name, polls[0]), polls[1..])
  }

  function ServedName<N>(m: map<Name, seq<N>>, name: Name, polls: seq<Batch<N>>): Name
    decreases |polls|
  {
    if Queue(m, name) != [] || polls == [] then name
    else ServedName(Extend(m, polls[0]), Rebound(name, polls[0]), polls[1..])
  }

  function Absorb<N>(m: map<Name, seq<N>>, polls: seq<Batch<N>>): map<Name, seq<N>>
    decreases |polls|
  {
    if polls == [] then m else Absorb(Extend(m, polls[0]), polls[1..])
  }

  // What a batch, and a sequence of polls, bring from one agent, in order.
  function Entries<N>(b: Batch<N>, name: Name): seq<N> {
    if b == [] then [] else (if b[0].0 == name then b[0].1 else []) + Entries(b[1..], name)
  }

  function Announced<N>(polls: seq<Batch<N>>, name: Name): seq<N> {
    if polls == [] then [] else Entries(polls[0], name) + Announced(polls[1..], name)
  }

  lemma EntriesHead<N>(b: Batch<N>, name: Name)
    requires b != []
    ensures Entries(b, name) == (if b[0].0 == name then b[0].1 else []) + Entries(b[1..], name)
  {
  }

  lemma AnnouncedHead<N>(polls: seq<Batch<N>>, name: Name)
    requires polls != []
    ensures Announced(polls, name) == Entries(polls[0], name) + Announced(polls[1..], name)
  {
  }

  lemma AbsorbHead<N>(m: map<Name, seq<N>>, polls: seq<Batch<N>>)
    requires polls != []
    ensures Absorb(m, polls) == Absorb(Extend(m, polls[0]), polls[1..])
  {
  }

  lemma {:induction false} EntriesAppend<N>(b: Batch<N>, e: (Name, seq<N>), name: Name)
    ensures Entries(b + [e], name) == Entries(b, name) + if e.0 == name then e.1 else []
  {
    if b == [] {
      assert b + [e] == [e];
      assert [e][1..] == [];
    } else {
      EntriesAppend(b[1..], e, name);
      EntriesHead(b, name);
      EntriesHead(b + [e], name);
      assert (b + [e])[1..] == b[1..] + [e];
      hide Entries;
      Reassociate(if b[0].0 == name then b[0].1 else [], Entries(b[1..], name), if e.0 == name then e.1 else []);
    }
  }

  lemma {:induction false} ExtendQueue<N>(m: map<Name, seq<N>>, b: Batch<N>, name: Name)
    ensures Queue(Extend(m, b), name) == Queue(m, name) + Entries(b, name)
  {
    if b != [] {
      var i := |b| - 1;
      ExtendQueue(m, b[..i], name);
      EntriesAppend(b[..i], b[i], name);
      assert b == b[..i] + [b[i]];
    }
  }

  // Absorbing the first n polls files their notifications by agent, in order, and leaves the rest to come.
  lemma {:induction false} AbsorbQueue<N>(m: map<Name, seq<N>>, polls: seq<Batch<N>>, n: nat, name: Name)
    requires n <= |polls|
    ensures Queue(Absorb(m, polls[..n]), name) + Announced(polls[n..], name) == Queue(m, name) + Announced(polls, name)
    decreases n
  {
    hide Extend, Entries, Announced, Absorb, Queue;
    if n == 0 {
      NothingAbsorbed(m, polls);
      assert polls[0..] == polls;
    } else {
      ExtendQueue(m, polls[0], name);
      AbsorbQueue(Extend(m, polls[0]), polls[1..], n - 1, name);
      AbsorbHead(m, polls[..n]);
      AnnouncedHead(polls, name);
      assert polls[..n][1..] == polls[1..][..n - 1] && polls[1..][n - 1..] == polls[n..];
      Reassociate(Queue(m, name), Entries(polls[0], name), Announced(polls[1..], name));
    }
  }

  // Filing one received message under its sender.
  lemma Sorted<M>(messages: map<Name, seq<M>>, socket: seq<(Name, M)>, n: Name)
    requires socket != []
    ensures var (s, m) := socket[0];
      Queue(messages[s := Queue(messages, s) + [m]], n) + From(socket[1..], n) == Queue(messages, n) + From(socket, n)
  {
    hide From, Queue;
    var (s, m) := socket[0];
    FromHead(socket, n);
    QueueSet(messages, s, Queue(messages, s) + [m], n);
    Reassociate(Queue(messages, n), [m], From(socket[1..], n));
    NothingBefore(From(socket[1..], n));
  }

  lemma NothingFrom<M>(n: Name)
    ensures From<M>([], n) == []
  {
  }

  lemma FromHead<M>(socket: seq<(Name, M)>, n: Name)
    requires socket != []
    ensures From(socket, n) == (if socket[0].0 == n then [socket[0].1] else []) + From(socket[1..], n)
  {
  }

  lemma QueueSet<X>(m: map<Name, seq<X>>, name: Name, q: seq<X>, n: Name)
    ensures Queue(m[name := q], n) == if n == name then q else Queue(m, n)
  {
  }

  lemma Reassociate<X>(a: seq<X>, b: seq<X>, c: seq<X>)
    ensures (a + b) + c == a + (b + c)
  {
  }

  lemma NothingBefore<X>(a: seq<X>)
    ensures [] + a == a && a + [] == a
  {
  }

  lemma FirstOfBoth<X>(q: seq<X>, rest: seq<X>)
    requires q != []
    ensures (q + rest)[0] == q[0] && (q + rest)[1..] == q[1..] + rest && q + rest == [q[0]] + (q[1..] + rest)
  {
  }

  lemma NothingAbsorbed<N>(m: map<Name, seq<N>>, polls: seq<Batch<N>>)
    ensures Absorb(m, polls[..0]) == m
  {
  }

  lemma PollOnce<N>(m: map<Name, seq<N>>, name: Name, polls: seq<Batch<N>>)
    requires Queue(m, name) == [] && polls != []
    ensures var m', name' := Extend(m, polls[0]), Rebound(name, polls[0]);
      && PollsNeeded(m, name, polls) == 1 + PollsNeeded(m', name', polls[1..])
      && ServedName(m, name, polls) == ServedName(m', name', polls[1..])
  {
    hide Extend;
  }

  lemma PollsDone<N>(m: map<Name, seq<N>>, name: Name, polls: seq<Batch<N>>)
    requires Queue(m, name) != [] || polls == []
    ensures PollsNeeded(m, name, polls) == 0 && ServedName(m, name, polls) == name
  {
  }

  class NixlAgent<M, N> {
    var messages: map<Name, seq<M>>
    var socket: seq<(Name, M)>           // what the ZeroMQ socket will deliver, in order
    var notifications: map<Name, seq<N>>
    var polls: seq<Batch<N>>             // what successive calls of get_new_notifs will return

    // Everything received or still to be received from one sender.
    function Pending(name: Name): seq<M>
      reads this
    {
      Queue(messages, name) + From(socket, name)
    }

    // Messages of one sender are handed out in order, and nobody else's are lost or reordered.
    // None means the call is still waiting: the sender has sent nothing more.
    method ReadMessage(name: Name) returns (m: Option<M>)
      modifies this
      ensures if old(Pending(name)) == [] then m == None && Pending(name) == []
              else m == Some(old(Pending(name))[0]) && Pending(name) == old(Pending(name))[1..]
      ensures forall n :: n != name ==> Pending(n) == old(Pending(n))
      ensures notifications == old(notifications) && polls == old(polls)
    {
      hide Queue, From;
      while Queue(messages, name) == [] && socket != []
        invariant forall n :: Pending(n) == old(Pending(n))
        invariant notifications == old(notifications) && polls == old(polls)
        decreases |socket|
      {
        forall n ensures Queue(messages[socket[0].0 := Queue(messages, socket[0].0) + [socket[0].1]], n) + From(socket[1..], n)
                         == old(Pending(n)) {
          Sorted(messages, socket, n);
          assert Pending(n) == old(Pending(n));
        }
        var (sender, message) := socket[0];
        messages := messages[sender := Queue(messages, sender) + [message]];
        socket := socket[1..];
      }
      if Queue(messages, name) == [] {
        NothingFrom<M>(name);
        NothingBefore(From(socket, name));
        return None;
      }
      var q := Queue(messages, name);
      FirstOfBoth(q, From(socket, name));
      forall n: Name
        ensures Queue(messages[name := q[1..]], n) == if n == name then q[1..] else Queue(messages, n)
      {
        QueueSet(messages, name, q[1..], n);
      }
      m := Some(q[0]);
      messages := messages[name := q[1..]];
    }

    // Every notification of one agent, received or still to be polled.
    function PendingNotifications(name: Name): seq<N>
      reads this
    {
      Queue(notifications, name) + Announced(polls, name)
    }

    // The inner for loop of get_notification.
    method AbsorbBatch(remoteName: Name, batch: Batch<N>) returns (name: Name)
      modifies this`notifications
      ensures notifications == Extend(old(notifications), batch) && name == Rebound(remoteName, batch)
    {
      name := remoteName;
      for i := 0 to |batch|
        invariant notifications == Extend(old(notifications), batch[..i])
        invariant name == Rebound(remoteName, batch[..i])
      {
        name := batch[i].0;
        notifications := notifications[name := Queue(notifications, name) + batch[i].1];
        assert batch[..i + 1][..i] == batch[..i];
      }
      assert batch[..|batch|] == batch;
    }

    // The loop as written, with its rebinding of the parameter. None means the polls ran out: still waiting.
    method GetNotification(remoteName: Name) returns (r: Option<N>)
      modifies this
      ensures messages == old(messages) && socket == old(socket)
      ensures var n := PollsNeeded(old(notifications), remoteName, old(polls));
              var who := ServedName(old(notifications), remoteName, old(polls));
        && n <= |old(polls)|
        && polls == old(polls)[n..]
        && var got := Absorb(old(notifications), old(polls)[..n]);
           if Queue(got, who) == [] then r == None && notifications == got && polls == []
           else r == Some(Queue(got, who)[0]) && notifications == got[who := Queue(got, who)[1..]]
      ensures var who := ServedName(old(notifications), remoteName, old(polls));
        && (forall n :: n != who || r == None ==> PendingNotifications(n) == old(PendingNotifications(n)))
        && (r.Some? ==> old(PendingNotifications(who)) == [r.value] + PendingNotifications(who))
    {
      hide Extend, PollsNeeded, ServedName, Absorb, Rebound, Queue, Announced;
      var name := remoteName;
      ghost var k := 0;
      NothingAbsorbed(notifications, polls);
      while Queue(notifications, name) == [] && polls != []
        invariant k <= |old(polls)| && polls == old(polls)[k..]
        invariant notifications == Absorb(old(notifications), old(polls)[..k])
        invariant PollsNeeded(old(notifications), remoteName, old(polls)) == k + PollsNeeded(notifications, name, polls)
        invariant ServedName(old(notifications), remoteName, old(polls)) == ServedName(notifications, name, polls)
        invariant messages == old(messages) && socket == old(socket)
        decreases |polls|
      {
        PollOnce(notifications, name, polls);
        var batch := polls[0];
        polls := polls[1..];
        name := AbsorbBatch(name, batch);
        AbsorbOneMore(old(notifications), old(polls), k);
        k := k + 1;
      }
      PollsDone(notifications, name, polls);
      forall n: Name
        ensures PendingNotifications(n) == old(PendingNotifications(n))
      {
        AbsorbQueue(old(notifications), old(polls), k, n);
      }
      var q := Queue(notifications, name);
      if q == [] {
        return None;
      }
      FirstOfBoth(q, Announced(polls, name));
      forall n: Name
        ensures Queue(notifications[name := q[1..]], n) == if n == name then q[1..] else Queue(notifications, n)
      {
        QueueSet(notifications, name, q[1..], n);
      }
      r := Some(q[0]);
      notifications := notifications[name := q[1..]];
    }
  }

  lemma {:induction false} AbsorbOneMore<N>(m: map<Name, seq<N>>, polls: seq<Batch<N>>, k: nat)
    requires k < |polls|
    decreases k
    ensures Absorb(m, polls[..k + 1]) == Extend(Absorb(m, polls[..k]), polls[k])
  {
    if k > 0 {
      AbsorbOneMore(Extend(m, polls[0]), polls[1..], k - 1);
      assert polls[..k + 1][1..] == polls[1..][..k] && polls[..k][1..] == polls[1..][..k - 1];
    }
  }

  // The name served is the one asked for exactly when no poll was needed, every poll consumed was empty, or the last
  // entry of the last non-empty batch consumed came from that agent.
  function LastNotifier<N>(name: Name, polls: seq<Batch<N>>): Name {
    if polls == [] then name
    else var b := polls[|polls| - 1]; if b == [] then LastNotifier(name, polls[..|polls| - 1]) else b[|b| - 1].0
  }

  lemma {:induction false} LastNotifierCons<N>(name: Name, b: Batch<N>, polls: seq<Batch<N>>)
    ensures LastNotifier(name, [b] + polls) == LastNotifier(Rebound(name, b), polls)
  {
    if polls == [] {
      assert [b] + polls == [b];
      assert [b][..0] == [];
    } else {
      var n := |polls| - 1;
      LastNotifierCons(name, b, polls[..n]);
      assert ([b] + polls)[..n + 1] == [b] + polls[..n];
    }
  }

  lemma {:induction false} ServedIsLastNotifier<N>(m: map<Name, seq<N>>, name: Name, polls: seq<Batch<N>>)
    ensures var n := PollsNeeded(m, name, polls);
      n <= |polls| && ServedName(m, name, polls) == LastNotifier(name, polls[..n])
    decreases |polls|
  {
    hide Extend;
    if Queue(m, name) == [] && polls != [] {
      ServedIsLastNotifier(Extend(m, polls[0]), Rebound(name, polls[0]), polls[1..]);
      var n := PollsNeeded(m, name, polls);
      LastNotifierCons(name, polls[0], polls[1..n]);
      assert [polls[0]] + polls[1..n] == polls[..n] && polls[1..][..n - 1] == polls[1..n];
    }
  }

  // A sole notifier, which is what the chain guarantees, makes the rebinding harmless.
  lemma {:induction false} SoleNotifierIsServed<N>(m: map<Name, seq<N>>, name: Name, polls: seq<Batch<N>>)
    requires forall k, e :: 0 <= k < |polls| && 0 <= e < |polls[k]| ==> polls[k][e].0 == name
    ensures ServedName(m, name, polls) == name
    decreases |polls|
  {
    hide Extend;
    if Queue(m, name) == [] && polls != [] {
      SoleNotifierIsServed(Extend(m, polls[0]), name, polls[1..]);
    }
  }

  // With nothing queued, the last entry of the first batch that has any decides who is served: the agent asked for exactly
  // when that entry is its own.
  lemma {:induction false} FirstBatchDecides<N>(m: map<Name, seq<N>>, name: Name, polls: seq<Batch<N>>, k: nat)
    requires Queue(m, name) == [] && k < |polls| && polls[k] != [] && polls[k][|polls[k]| - 1].1 != []
    requires forall i :: 0 <= i < k ==> polls[i] == []
    ensures PollsNeeded(m, name, polls) == k + 1
    ensures ServedName(m, name, polls) == polls[k][|polls[k]| - 1].0
    decreases k
  {
    hide Extend;
    var b := polls[0];
    PollOnce(m, name, polls);
    if k > 0 {
      EmptyBatch(m, name);
      FirstBatchDecides(m, name, polls[1..], k - 1);
    } else {
      LastIsQueued(m, name, b);
      PollsDone(Extend(m, b), Rebound(name, b), polls[1..]);
    }
  }

  lemma EmptyBatch<N>(m: map<Name, seq<N>>, name: Name)
    ensures Extend(m, []) == m && Rebound<N>(name, []) == name
  {
  }

  lemma LastIsQueued<N>(m: map<Name, seq<N>>, name: Name, b: Batch<N>)
    requires b != [] && b[|b| - 1].1 != []
    ensures Rebound(name, b) == b[|b| - 1].0 && Queue(Extend(m, b), b[|b| - 1].0) != []
  {
    var n := |b| - 1;
    ExtendOne(m, b[..n], b[n].0, b[n].1);
    assert b == b[..n] + [b[n]];
  }

  // Two notifiers break it: waiting for "next" returns what "other" sent.
  lemma RebindingServesSomeoneElse()
    ensures var polls: seq<Batch<int>> := [[("next", [1]), ("other", [2])]];
      ServedName(map[], "next", polls) == "other"
      && Queue(Absorb(map[], polls[..PollsNeeded(map[], "next", polls)]), "other") == [2]
  {
    var next, other: Name := "next", "other";
    var b: Batch<int> := [(next, [1]), (other, [2])];
    var e: map<Name, seq<int>> := map[];
    assert |next| != |other|;
    ExtendOne(e, [], next, [1]);
    assert [] + [(next, [1])] == b[..1] && b[..1] + [(other, [2])] == b;
    ExtendOne(e, b[..1], other, [2]);
    assert Queue(e, next) + [1] == [1];
    var m := Extend(e, b[..1]);
    assert m[next] == [1];
    assert Queue(m, other) + [2] == [2];
    assert [b][..1] == [b] && [b][1..] == [];
  }

  lemma ExtendOne<N>(m: map<Name, seq<N>>, b: Batch<N>, name: Name, notif: seq<N>)
    ensures Extend(m, b + [(name, notif)]) == Extend(m, b)[name := Queue(Extend(m, b), name) + notif]
  {
    assert (b + [(name, notif)])[..|b|] == b;
  }
}
