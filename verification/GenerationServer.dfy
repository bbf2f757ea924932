/** Order-preserving concurrent generation: prompts are split over replicas, every replica runs n requests per prompt under
    its own semaphore, results are stored by request index as they complete, and the lists are joined and reshaped. */
module GenerationServer {
  import opened Arithmetic
  import opened Options
  import opened Weights
  import opened NumpySplit
  import opened Totals

  type Chat = string

  // Request `number` of the whole call.
  datatype Request = Request(number: nat, messages: Chat)

  // A server's answer to one request.
  datatype Answer = Answer(request: Request, text: string)

  datatype Task = Waiting | InFlight | Answered(answer: Answer)

  datatype Replica = Replica(
    requests: seq<Request>,
    tasks: seq<Task>,
    permits: Option<nat>,             // what is left of the semaphore, if there is one
    queue: seq<nat>,                  // tasks completed and not yet collected, in completion order
    results: seq<Option<Answer>>)

  datatype Event = Begin(i: nat) | Complete(i: nat, text: string) | Collect

  // n requests per prompt, prompt by prompt, numbered from `first`.
  function Requests(chats: seq<Chat>, n: nat, first: nat): seq<Request>
    requires n > 0
  {
    seq(|chats| * n, i requires 0 <= i < |chats| * n => (QuotientBelow(i, |chats|, n); Request(first + i, chats[i / n])))
  }

  function NewReplica(chats: seq<Chat>, n: nat, first: nat, maxConcurrency: int): Replica
    requires n > 0
  {
    var rs := Requests(chats, n, first);
    Replica(rs, seq(|rs|, _ => Waiting), if maxConcurrency > 0 then Some(maxConcurrency) else None, [], seq(|rs|, _ => None))
  }

  ghost predicate Enabled(q: Replica, e: Event) {
    match e
    case Begin(i) => i < |q.tasks| && q.tasks[i] == Waiting && q.permits != Some(0)
    case Complete(i, _) => i < |q.tasks| && i < |q.requests| && q.tasks[i] == InFlight
    case Collect => q.queue != [] && q.queue[0] < |q.results| && q.queue[0] < |q.tasks| && q.tasks[q.queue[0]].Answered?
  }

  ghost function Apply(q: Replica, e: Event): Replica
    requires Enabled(q, e)
  {
    match e
    case Begin(i) => q.(tasks := q.tasks[i := InFlight],
                        permits := if q.permits.Some? && q.permits.value > 0 then Some(q.permits.value - 1) else q.permits)
    case Complete(i, text) => q.(tasks := q.tasks[i := Answered(Answer(q.requests[i], text))],
                                 permits := if q.permits.Some? then Some(q.permits.value + 1) else None,
                                 queue := q.queue + [i])
    case Collect => q.(queue := q.queue[1..], results := q.results[q.queue[0] := Some(q.tasks[q.queue[0]].answer)])
  }

  function Running(tasks: seq<Task>): nat {
    if tasks == [] then 0 else Running(tasks[..|tasks| - 1]) + if tasks[|tasks| - 1] == InFlight then 1 else 0
  }

  lemma {:induction false} RunningUpdate(tasks: seq<Task>, i: nat, t: Task)
    requires i < |tasks|
    ensures Running(tasks[i := t])
         == Running(tasks) - (if tasks[i] == InFlight then 1 else 0) + (if t == InFlight then 1 else 0)
  {
    var n := |tasks| - 1;
    if i < n {
      RunningUpdate(tasks[..n], i, t);
      assert tasks[i := t][..n] == tasks[..n][i := t];
    } else {
      assert tasks[i := t][..n] == tasks[..n];
    }
  }

  // Every answer sits at the index of the request it answers, or is still waiting to be collected.
  ghost predicate Inv(requests: seq<Request>, maxConcurrency: int, q: Replica) {
    && q.requests == requests && |q.tasks| == |q.results| == |requests|
    && (if maxConcurrency > 0 then q.permits.Some? && q.permits.value + Running(q.tasks) == maxConcurrency else q.permits == None)
    && (forall i :: 0 <= i < |requests| ==> q.tasks[i].Answered? ==> q.tasks[i].answer.request == requests[i])
    && (forall i :: 0 <= i < |requests| ==> q.results[i].Some? ==> q.tasks[i] == Answered(q.results[i].value))
    && (forall x :: 0 <= x < |q.queue| ==>
                      q.queue[x] < |requests| && q.tasks[q.queue[x]].Answered? && q.results[q.queue[x]].None?)
    && (forall x, y :: 0 <= x < y < |q.queue| ==> q.queue[x] != q.queue[y])
    && forall i: nat :: i < |requests| && q.tasks[i].Answered? && q.results[i].None? ==> i in q.queue
  }

  lemma {:induction false} NoneRunning(tasks: seq<Task>)
    requires forall i :: 0 <= i < |tasks| ==> tasks[i] == Waiting
    ensures Running(tasks) == 0
  {
    if tasks != [] {
      NoneRunning(tasks[..|tasks| - 1]);
    }
  }

  lemma BeginKeeps(requests: seq<Request>, maxConcurrency: int, q: Replica, i: nat)
    requires Inv(requests, maxConcurrency, q) && Enabled(q, Begin(i))
    ensures Inv(requests, maxConcurrency, Apply(q, Begin(i)))
  {
    hide Running;
    RunningUpdate(q.tasks, i, InFlight);
  }

  lemma CompleteKeeps(requests: seq<Request>, maxConcurrency: int, q: Replica, i: nat, text: string)
    requires Inv(requests, maxConcurrency, q) && Enabled(q, Complete(i, text))
    ensures Inv(requests, maxConcurrency, Apply(q, Complete(i, text)))
  {
    hide Running;
    RunningUpdate(q.tasks, i, Answered(Answer(q.requests[i], text)));
  }

  lemma CollectKeeps(requests: seq<Request>, maxConcurrency: int, q: Replica)
    requires Inv(requests, maxConcurrency, q) && Enabled(q, Collect)
    ensures Inv(requests, maxConcurrency, Apply(q, Collect))
  {
    hide Running;
    assert q.queue == [q.queue[0]] + q.queue[1..];
  }

  lemma StepInv(requests: seq<Request>, maxConcurrency: int, q: Replica, e: Event)
    requires Inv(requests, maxConcurrency, q) && Enabled(q, e)
    ensures Inv(requests, maxConcurrency, Apply(q, e))
  {
    hide Inv, Enabled, Apply;
    match e
    case Begin(i) => BeginKeeps(requests, maxConcurrency, q, i);
    case Complete(i, text) => CompleteKeeps(requests, maxConcurrency, q, i, text);
    case Collect => CollectKeeps(requests, maxConcurrency, q);
  }

  // A waiting request is admitted exactly while fewer are in flight than the limit, and always if the limit is not positive.
  lemma AdmitsIff(requests: seq<Request>, maxConcurrency: int, q: Replica, i: nat)
    requires Inv(requests, maxConcurrency, q) && i < |requests| && q.tasks[i] == Waiting
    ensures Enabled(q, Begin(i)) <==> maxConcurrency <= 0 || Running(q.tasks) < maxConcurrency
  {
  }

  // A replica with work left can go on.
  lemma NotStuck(requests: seq<Request>, maxConcurrency: int, q: Replica)
    requires Inv(requests, maxConcurrency, q) && exists i :: 0 <= i < |requests| && q.results[i].None?
    ensures exists e :: Enabled(q, e)
  {
    var i :| 0 <= i < |requests| && q.results[i].None?;
    match q.tasks[i]
    case InFlight => assert Enabled(q, Complete(i, ""));
    case Answered(_) =>
      assert i in q.queue;
      assert Enabled(q, Collect);
    case Waiting =>
      if q.permits != Some(0) {
        assert Enabled(q, Begin(i));
      } else {
        SomeRunning(q.tasks);
        var j :| 0 <= j < |q.tasks| && q.tasks[j] == InFlight;
        assert Enabled(q, Complete(j, ""));
      }
  }

  lemma {:induction false} SomeRunning(tasks: seq<Task>)
    requires Running(tasks) > 0
    ensures exists j :: 0 <= j < |tasks| && tasks[j] == InFlight
  {
    var n := |tasks| - 1;
    if tasks[n] != InFlight {
      SomeRunning(tasks[..n]);
      var j :| 0 <= j < |tasks[..n]| && tasks[..n][j] == InFlight;
      assert tasks[j] == InFlight;
    }
  }

  // ---- How much is left to do ----

  // Begin, complete and collect.
  function StepsOf(t: Task): nat {
    match t
    case Waiting => 3
    case InFlight => 2
    case Answered(_) => 0
  }

  function StepsLeft(tasks: seq<Task>): nat {
    if tasks == [] then 0 else StepsLeft(tasks[..|tasks| - 1]) + StepsOf(tasks[|tasks| - 1])
  }

  function Left(q: Replica): nat {
    StepsLeft(q.tasks) + |q.queue|
  }

  lemma {:induction false} StepsLeftUpdate(tasks: seq<Task>, i: nat, t: Task)
    requires i < |tasks|
    ensures StepsLeft(tasks[i := t]) == StepsLeft(tasks) - StepsOf(tasks[i]) + StepsOf(t)
  {
    var n := |tasks| - 1;
    if i < n {
      StepsLeftUpdate(tasks[..n], i, t);
      assert tasks[i := t][..n] == tasks[..n][i := t];
    } else {
      assert tasks[i := t][..n] == tasks[..n];
    }
  }

  lemma StepLeavesLess(q: Replica, e: Event)
    requires Enabled(q, e)
    ensures Left(Apply(q, e)) == Left(q) - 1
  {
    hide StepsLeft;
    match e
    case Begin(i) => StepsLeftUpdate(q.tasks, i, InFlight);
    case Complete(i, text) => StepsLeftUpdate(q.tasks, i, Answered(Answer(q.requests[i], text)));
    case Collect =>
  }

  lemma {:induction false} AllLeft(tasks: seq<Task>)
    requires forall i :: 0 <= i < |tasks| ==> tasks[i] == Waiting
    ensures StepsLeft(tasks) == 3 * |tasks|
  {
    if tasks != [] {
      AllLeft(tasks[..|tasks| - 1]);
    }
  }

  lemma {:induction false} NoStepsLeft(tasks: seq<Task>)
    ensures StepsLeft(tasks) == 0 <==> forall i :: 0 <= i < |tasks| ==> tasks[i].Answered?
  {
    if tasks != [] {
      var n := |tasks| - 1;
      NoStepsLeft(tasks[..n]);
      assert forall i :: 0 <= i < n ==> tasks[..n][i] == tasks[i];
    }
  }

  ghost predicate Collected(q: Replica) {
    forall i :: 0 <= i < |q.results| ==> q.results[i].Some?
  }

  ghost predicate CanGoOn(q: Replica) {
    exists e :: Enabled(q, e)
  }

  lemma NextUncollected(requests: seq<Request>, maxConcurrency: int, q: Replica)
    requires Inv(requests, maxConcurrency, q) && q.queue != []
    ensures !Collected(q)
  {
    assert q.results[q.queue[0]].None?;
  }

  // A replica has all its results exactly when it has no step left, which is exactly when it cannot go on.
  lemma CollectedIff(requests: seq<Request>, maxConcurrency: int, q: Replica)
    requires Inv(requests, maxConcurrency, q)
    ensures Left(q) == 0 <==> Collected(q)
    ensures Left(q) == 0 <==> !CanGoOn(q)
  {
    hide Running, StepsLeft, Apply, Enabled;
    NoStepsLeft(q.tasks);
    if q.queue != [] {
      NextUncollected(requests, maxConcurrency, q);
    }
    if !Collected(q) {
      NotStuck(requests, maxConcurrency, q);
    }
    if e :| Enabled(q, e) {
      StepLeavesLess(q, e);
    }
  }

  // ---- Splitting over the replicas, and putting the results together ----

  lemma RequestCount(chats: seq<Chat>, n: nat, first: nat)
    requires n > 0
    ensures |Requests(chats, n, first)| == |chats| * n
  {
  }

  lemma RequestAt(chats: seq<Chat>, n: nat, first: nat, i: nat)
    requires n > 0 && i < |Requests(chats, n, first)|
    ensures i / n < |chats| && Requests(chats, n, first)[i] == Request(first + i, chats[i / n])
  {
    QuotientBelow(i, |chats|, n);
  }

  lemma JoinedRequest(a: seq<Chat>, b: seq<Chat>, n: nat, i: nat)
    requires n > 0 && i < |Requests(a + b, n, 0)| == |Requests(a, n, 0)| + |Requests(b, n, |Requests(a, n, 0)|)|
    ensures Requests(a + b, n, 0)[i] == (Requests(a, n, 0) + Requests(b, n, |Requests(a, n, 0)|))[i]
  {
    hide Requests;
    RequestCount(a, n, 0);
    var m := |Requests(a, n, 0)|;
    RequestAt(a + b, n, 0, i);
    if i < m {
      RequestAt(a, n, 0, i);
    } else {
      RequestAt(b, n, m, i - m);
      ShiftQuotient(i - m, |a|, n);
    }
  }

  lemma RequestsAppend(a: seq<Chat>, b: seq<Chat>, n: nat)
    requires n > 0
    ensures Requests(a + b, n, 0) == Requests(a, n, 0) + Requests(b, n, |Requests(a, n, 0)|)
  {
    hide Requests;
    RequestCount(a, n, 0);
    RequestCount(b, n, |Requests(a, n, 0)|);
    RequestCount(a + b, n, 0);
    Distribute(|a|, |b|, n);
    forall i | 0 <= i < |Requests(a + b, n, 0)|
      ensures Requests(a + b, n, 0)[i] == (Requests(a, n, 0) + Requests(b, n, |Requests(a, n, 0)|))[i]
    {
      JoinedRequest(a, b, n, i);
    }
  }

  // The number of the first request of part i.
  function First(parts: seq<seq<Chat>>, n: nat, i: nat): nat
    requires n > 0 && i <= |parts|
  {
    |Requests(Flatten(parts[..i]), n, 0)|
  }

  function RequestsOfAll(parts: seq<seq<Chat>>, n: nat): seq<seq<Request>>
    requires n > 0
  {
    seq(|parts|, i requires 0 <= i < |parts| => Requests(parts[i], n, First(parts, n, i)))
  }

  lemma {:induction false} RequestsFlatten(parts: seq<seq<Chat>>, n: nat)
    requires n > 0
    ensures Flatten(RequestsOfAll(parts, n)) == Requests(Flatten(parts), n, 0)
  {
    if parts == [] {
      assert RequestsOfAll(parts, n) == [];
    } else {
      var m := |parts| - 1;
      RequestsFlatten(parts[..m], n);
      RequestCount(Flatten(parts[..m]), n, 0);
      RequestsAppend(Flatten(parts[..m]), parts[m], n);
      FrontRequests(parts, n);
    }
  }

  lemma FrontRequests(parts: seq<seq<Chat>>, n: nat)
    requires n > 0 && parts != []
    ensures RequestsOfAll(parts, n)[..|parts| - 1] == RequestsOfAll(parts[..|parts| - 1], n)
  {
    hide Requests, Flatten;
    var m := |parts| - 1;
    forall i | 0 <= i < m
      ensures First(parts, n, i) == First(parts[..m], n, i)
    {
      assert parts[..m][..i] == parts[..i];
    }
  }

  // ---- Runs of all replicas ----

  datatype Move = Move(replica: nat, event: Event)

  ghost predicate Takes(s: seq<Replica>, m: Move, s': seq<Replica>) {
    m.replica < |s| && Enabled(s[m.replica], m.event) && s' == s[m.replica := Apply(s[m.replica], m.event)]
  }

  function Start(chats: seq<Chat>, replicas: nat, n: nat, maxConcurrency: int): seq<Replica>
    requires n > 0 && replicas > 0
  {
    seq(replicas, r requires 0 <= r < replicas =>
      NewReplica(ArraySplit(chats, replicas)[r], n, First(ArraySplit(chats, replicas), n, r), maxConcurrency))
  }

  ghost predicate IsRun(chats: seq<Chat>, replicas: nat, n: nat, maxConcurrency: int, run: seq<seq<Replica>>, moves: seq<Move>) {
    && n > 0 && replicas > 0 && |run| == |moves| + 1 && run[0] == Start(chats, replicas, n, maxConcurrency)
    && forall i :: 0 <= i < |moves| ==> Takes(run[i], moves[i], run[i + 1])
  }

  lemma {:induction false} RunInv(chats: seq<Chat>, replicas: nat, n: nat, maxConcurrency: int, run: seq<seq<Replica>>,
                                  moves: seq<Move>, i: nat)
    requires IsRun(chats, replicas, n, maxConcurrency, run, moves) && i < |run|
    ensures |run[i]| == replicas
    ensures forall r :: 0 <= r < replicas ==> Inv(RequestsOfAll(ArraySplit(chats, replicas), n)[r], maxConcurrency, run[i][r])
  {
    if i == 0 {
      hide Requests, First, ArraySplit, Running;
      forall r | 0 <= r < replicas
        ensures Inv(RequestsOfAll(ArraySplit(chats, replicas), n)[r], maxConcurrency, run[0][r])
      {
        NoneRunning(run[0][r].tasks);
      }
    } else {
      hide Inv, Enabled, Apply, Requests, First, ArraySplit;
      RunInv(chats, replicas, n, maxConcurrency, run, moves, i - 1);
      assert Takes(run[i - 1], moves[i - 1], run[i]);
      var r := moves[i - 1].replica;
      StepInv(RequestsOfAll(ArraySplit(chats, replicas), n)[r], maxConcurrency, run[i - 1][r], moves[i - 1].event);
    }
  }

  // The semaphore's purpose.
  lemma AtMostLimitInFlight(chats: seq<Chat>, replicas: nat, n: nat, maxConcurrency: int, run: seq<seq<Replica>>,
                            moves: seq<Move>, i: nat, r: nat)
    requires IsRun(chats, replicas, n, maxConcurrency, run, moves) && i < |run| && r < replicas && maxConcurrency > 0
    ensures |run[i]| == replicas && Running(run[i][r].tasks) <= maxConcurrency
  {
    hide Requests, First, ArraySplit, Running;
    RunInv(chats, replicas, n, maxConcurrency, run, moves, i);
    assert Inv(RequestsOfAll(ArraySplit(chats, replicas), n)[r], maxConcurrency, run[i][r]);
  }

  ghost predicate AllCollected(s: seq<Replica>) {
    forall r :: 0 <= r < |s| ==> Collected(s[r])
  }

  function Values(rs: seq<Option<Answer>>): seq<Answer>
    requires forall i :: 0 <= i < |rs| ==> rs[i].Some?
  {
    seq(|rs|, i requires 0 <= i < |rs| => rs[i].value)
  }

  // itertools.chain over the replicas' result lists.
  ghost function Chained(s: seq<Replica>): seq<Answer>
    requires AllCollected(s)
  {
    Flatten(seq(|s|, r requires 0 <= r < |s| => Values(s[r].results)))
  }

  ghost predicate Answers(xs: seq<Answer>, requests: seq<Request>) {
    |xs| == |requests| && forall i :: 0 <= i < |xs| ==> xs[i].request == requests[i]
  }

  lemma {:induction false} ChainAnswers(xss: seq<seq<Answer>>, rss: seq<seq<Request>>)
    requires |xss| == |rss| && forall r :: 0 <= r < |xss| ==> Answers(xss[r], rss[r])
    ensures Answers(Flatten(xss), Flatten(rss))
  {
    if xss != [] {
      var m := |xss| - 1;
      ChainAnswers(xss[..m], rss[..m]);
    }
  }

  // np.reshape(results, (-1, n))[row]
  function Row(results: seq<Answer>, n: nat, row: nat): seq<Answer>
    requires 0 <= row * n && row * n + n <= |results|
  {
    results[row * n..row * n + n]
  }

  // Once every result is in, row i of the reshaped results holds the answers to requests i*n .. i*n+n-1, which are the n
  // requests for prompt i, whatever the completion order.
  lemma RowsMatchPrompts(chats: seq<Chat>, replicas: nat, n: nat, maxConcurrency: int, run: seq<seq<Replica>>,
                         moves: seq<Move>, i: nat, row: nat)
    requires IsRun(chats, replicas, n, maxConcurrency, run, moves) && i < |run| && AllCollected(run[i]) && row < |chats|
    ensures |Chained(run[i])| == |chats| * n
    ensures 0 <= row * n && row * n + n <= |Chained(run[i])|
    ensures forall k :: 0 <= k < n ==> Row(Chained(run[i]), n, row)[k].request == Request(row * n + k, chats[row])
  {
    hide Flatten, ArraySplit, Running, Requests, First;
    RunInv(chats, replicas, n, maxConcurrency, run, moves, i);
    var parts := ArraySplit(chats, replicas);
    var xss := seq(|run[i]|, r requires 0 <= r < |run[i]| => Values(run[i][r].results));
    forall r | 0 <= r < replicas
      ensures Answers(xss[r], RequestsOfAll(parts, n)[r])
    {
      assert Inv(RequestsOfAll(parts, n)[r], maxConcurrency, run[i][r]);
    }
    ChainAnswers(xss, RequestsOfAll(parts, n));
    RequestsFlatten(parts, n);
    ArraySplitFlattens(chats, replicas);
    RequestCount(chats, n, 0);
    RowInside(row, |chats|, n);
    forall k | 0 <= k < n
      ensures Row(Chained(run[i]), n, row)[k].request == Request(row * n + k, chats[row])
    {
      AddMultiple(row, n, k);
      RequestAt(chats, n, 0, row * n + k);
    }
  }

  // ---- The answers' texts ----

  // Move x completes request t of replica r with this text.
  ghost predicate Completes(moves: seq<Move>, x: nat, r: nat, t: nat, text: string) {
    x < |moves| && moves[x] == Move(r, Complete(t, text))
  }

  // An answer stays as it was given.
  lemma TaskAfter(q: Replica, e: Event, t: nat)
    requires Enabled(q, e) && t < |q.tasks|
    ensures var q' := Apply(q, e);
      && |q'.tasks| == |q.tasks|
      && (q.tasks[t].Answered? ==> q'.tasks[t] == q.tasks[t] && !(e.Complete? && e.i == t))
      && (e.Complete? && e.i == t ==> q'.tasks[t].Answered? && q'.tasks[t].answer.text == e.text)
      && (q'.tasks[t].Answered? ==> q.tasks[t].Answered? || (e.Complete? && e.i == t))
  {
  }

  lemma {:induction false} AnsweredBy(chats: seq<Chat>, replicas: nat, n: nat, maxConcurrency: int, run: seq<seq<Replica>>,
                                      moves: seq<Move>, i: nat, r: nat, t: nat)
    requires IsRun(chats, replicas, n, maxConcurrency, run, moves) && i < |run| && r < replicas
    requires |run[0]| == replicas && t < |run[0][r].tasks|
    ensures |run[i]| == replicas && t < |run[i][r].tasks|
    ensures run[i][r].tasks[t].Answered? ==>
              exists x: nat :: x < i && Completes(moves, x, r, t, run[i][r].tasks[t].answer.text)
    ensures forall x: nat, text :: x < i && Completes(moves, x, r, t, text) ==>
              run[i][r].tasks[t].Answered? && run[i][r].tasks[t].answer.text == text
  {
    hide Requests, First, ArraySplit;
    if i > 0 {
      hide Start, Enabled, Apply;
      AnsweredBy(chats, replicas, n, maxConcurrency, run, moves, i - 1, r, t);
      assert Takes(run[i - 1], moves[i - 1], run[i]);
      if moves[i - 1].replica == r {
        TaskAfter(run[i - 1][r], moves[i - 1].event, t);
      }
      if run[i][r].tasks[t].Answered? {
        if run[i - 1][r].tasks[t].Answered? {
          var x: nat :| x < i - 1 && Completes(moves, x, r, t, run[i - 1][r].tasks[t].answer.text);
          assert Completes(moves, x, r, t, run[i][r].tasks[t].answer.text);
        } else {
          assert Completes(moves, i - 1, r, t, run[i][r].tasks[t].answer.text);
        }
      }
    }
  }

  lemma InFlightBefore(chats: seq<Chat>, replicas: nat, n: nat, maxConcurrency: int, run: seq<seq<Replica>>,
                       moves: seq<Move>, x: nat, r: nat, t: nat, text: string)
    requires IsRun(chats, replicas, n, maxConcurrency, run, moves) && Completes(moves, x, r, t, text)
    ensures r < |run[x]| && t < |run[x][r].tasks| && run[x][r].tasks[t] == InFlight
  {
    hide Start, Apply;
    assert Takes(run[x], moves[x], run[x + 1]);
  }

  // A request is completed at most once.
  lemma CompletedOnce(chats: seq<Chat>, replicas: nat, n: nat, maxConcurrency: int, run: seq<seq<Replica>>,
                      moves: seq<Move>, r: nat, t: nat, x: nat, y: nat, a: string, b: string)
    requires IsRun(chats, replicas, n, maxConcurrency, run, moves) && r < replicas
    requires |run[0]| == replicas && t < |run[0][r].tasks|
    requires Completes(moves, x, r, t, a) && Completes(moves, y, r, t, b)
    ensures x == y && a == b
  {
    hide Start, Apply, Enabled, Takes;
    InFlightBefore(chats, replicas, n, maxConcurrency, run, moves, x, r, t, a);
    InFlightBefore(chats, replicas, n, maxConcurrency, run, moves, y, r, t, b);
    if x < y {
      AnsweredBy(chats, replicas, n, maxConcurrency, run, moves, y, r, t);
    } else if y < x {
      AnsweredBy(chats, replicas, n, maxConcurrency, run, moves, x, r, t);
    }
  }

  lemma {:induction false} LocateFlat<T>(ss: seq<seq<T>>, p: nat) returns (r: nat, t: nat)
    requires p < |Flatten(ss)|
    ensures r < |ss| && t < |ss[r]| && Flatten(ss)[p] == ss[r][t]
  {
    var m := |ss| - 1;
    if p < |Flatten(ss[..m])| {
      r, t := LocateFlat(ss[..m], p);
    } else {
      r, t := m, p - |Flatten(ss[..m])|;
    }
  }

  lemma {:induction false} FlatAt<T>(ss: seq<seq<T>>, r: nat, t: nat)
    requires r < |ss| && t < |ss[r]|
    ensures |Flatten(ss[..r])| + t < |Flatten(ss)| && Flatten(ss)[|Flatten(ss[..r])| + t] == ss[r][t]
  {
    var m := |ss| - 1;
    if r < m {
      FlatAt(ss[..m], r, t);
      assert ss[..m][..r] == ss[..r];
    }
  }

  lemma {:induction false} FlatBefore<T>(ss: seq<seq<T>>, r: nat, r': nat)
    requires r < r' <= |ss|
    ensures |Flatten(ss[..r])| + |ss[r]| <= |Flatten(ss[..r'])|
  {
    assert ss[..r'][..r' - 1] == ss[..r' - 1];
    if r < r' - 1 {
      FlatBefore(ss, r, r' - 1);
    }
  }

  // No two requests of the call have one number.
  lemma NumbersDiffer(chats: seq<Chat>, replicas: nat, n: nat, r: nat, t: nat, r': nat, t': nat)
    requires n > 0 && replicas > 0 && r < replicas && r' < replicas
    requires var rss := RequestsOfAll(ArraySplit(chats, replicas), n);
      t < |rss[r]| && t' < |rss[r']| && rss[r][t].number == rss[r'][t'].number
    ensures r == r' && t == t'
  {
    hide Flatten, Requests, ArraySplit, First;
    var rss := RequestsOfAll(ArraySplit(chats, replicas), n);
    RequestsFlatten(ArraySplit(chats, replicas), n);
    ArraySplitFlattens(chats, replicas);
    FlatAt(rss, r, t);
    FlatAt(rss, r', t');
    RequestAt(chats, n, 0, |Flatten(rss[..r])| + t);
    RequestAt(chats, n, 0, |Flatten(rss[..r'])| + t');
    if r < r' {
      FlatBefore(rss, r, r');
    } else if r' < r {
      FlatBefore(rss, r', r);
    }
  }

  // Once every result is in, entry k of row i has the text that some server returned for request i*n+k: exactly one request
  // has that number, exactly one move of the run completes it, and it has this text.
  lemma RowsHoldTheTexts(chats: seq<Chat>, replicas: nat, n: nat, maxConcurrency: int, run: seq<seq<Replica>>,
                         moves: seq<Move>, i: nat, row: nat, k: nat) returns (x: nat, r: nat, t: nat)
    requires IsRun(chats, replicas, n, maxConcurrency, run, moves) && i < |run| && AllCollected(run[i])
    requires row < |chats| && k < n
    ensures 0 <= row * n && row * n + n <= |Chained(run[i])|
    ensures x < i && r < |run[i]| && t < |run[i][r].requests| && run[i][r].requests[t].number == row * n + k
    ensures Completes(moves, x, r, t, Row(Chained(run[i]), n, row)[k].text)
    ensures forall y: nat, text :: Completes(moves, y, r, t, text) ==> y == x
    ensures forall r': nat, t': nat ::
              r' < |run[i]| && t' < |run[i][r'].requests| && run[i][r'].requests[t'].number == row * n + k ==> r' == r && t' == t
  {
    hide Flatten, Requests, ArraySplit, First, Running, Takes;
    RowsMatchPrompts(chats, replicas, n, maxConcurrency, run, moves, i, row);
    RunInv(chats, replicas, n, maxConcurrency, run, moves, i);
    RunInv(chats, replicas, n, maxConcurrency, run, moves, 0);
    var rss := RequestsOfAll(ArraySplit(chats, replicas), n);
    var xss := seq(|run[i]|, s requires 0 <= s < |run[i]| => Values(run[i][s].results));
    r, t := LocateFlat(xss, row * n + k);
    assert Inv(rss[r], maxConcurrency, run[i][r]) && Inv(rss[r], maxConcurrency, run[0][r]);
    AnsweredBy(chats, replicas, n, maxConcurrency, run, moves, i, r, t);
    var text := Row(Chained(run[i]), n, row)[k].text;
    x :| x < i && Completes(moves, x, r, t, text);
    forall y: nat, b | Completes(moves, y, r, t, b)
      ensures y == x
    {
      CompletedOnce(chats, replicas, n, maxConcurrency, run, moves, r, t, y, x, b, text);
    }
    forall r': nat, t': nat | r' < |run[i]| && t' < |run[i][r'].requests| && run[i][r'].requests[t'].number == row * n + k
      ensures r' == r && t' == t
    {
      assert Inv(rss[r'], maxConcurrency, run[i][r']);
      NumbersDiffer(chats, replicas, n, r, t, r', t');
    }
  }

  // ---- Every run ends with all results ----

  function Lefts(s: seq<Replica>): seq<int> {
    seq(|s|, r requires 0 <= r < |s| => Left(s[r]))
  }

  lemma TakesLeavesLess(s: seq<Replica>, m: Move, s': seq<Replica>)
    requires Takes(s, m, s')
    ensures Total(Lefts(s')) == Total(Lefts(s)) - 1
  {
    hide Left, Apply, Enabled, Total;
    StepLeavesLess(s[m.replica], m.event);
    TotalUpdate(Lefts(s), m.replica, Left(s'[m.replica]));
    assert Lefts(s') == Lefts(s)[m.replica := Left(s'[m.replica])];
  }

  lemma {:induction false} LengthsTotal(rss: seq<seq<Request>>, ms: seq<int>)
    requires |rss| == |ms| && forall r :: 0 <= r < |ms| ==> ms[r] == 3 * |rss[r]|
    ensures Total(ms) == 3 * |Flatten(rss)|
  {
    if rss != [] {
      LengthsTotal(rss[..|rss| - 1], ms[..|rss| - 1]);
    }
  }

  lemma StartLeft(chats: seq<Chat>, replicas: nat, n: nat, maxConcurrency: int)
    requires n > 0 && replicas > 0
    ensures Total(Lefts(Start(chats, replicas, n, maxConcurrency))) == 3 * (|chats| * n)
  {
    hide Flatten, ArraySplit, Requests, First, StepsLeft, Total;
    var parts, s := ArraySplit(chats, replicas), Start(chats, replicas, n, maxConcurrency);
    assert |parts| == replicas by { ArraySplitFlattens(chats, replicas); }
    forall r | 0 <= r < replicas
      ensures Lefts(s)[r] == 3 * |RequestsOfAll(parts, n)[r]|
    {
      AllLeft(s[r].tasks);
    }
    LengthsTotal(RequestsOfAll(parts, n), Lefts(s));
    RequestsFlatten(parts, n);
    ArraySplitFlattens(chats, replicas);
    RequestCount(chats, n, 0);
  }

  lemma {:induction false} LeftAfter(chats: seq<Chat>, replicas: nat, n: nat, maxConcurrency: int, run: seq<seq<Replica>>,
                                     moves: seq<Move>, i: nat)
    requires IsRun(chats, replicas, n, maxConcurrency, run, moves) && i < |run|
    ensures Total(Lefts(run[i])) == 3 * (|chats| * n) - i
  {
    hide Takes, Lefts, Total, Start;
    if i == 0 {
      StartLeft(chats, replicas, n, maxConcurrency);
    } else {
      LeftAfter(chats, replicas, n, maxConcurrency, run, moves, i - 1);
      TakesLeavesLess(run[i - 1], moves[i - 1], run[i]);
    }
  }

  ghost predicate Final(s: seq<Replica>) {
    forall r :: 0 <= r < |s| ==> !CanGoOn(s[r])
  }

  // Three steps per request: no run is longer, and the results are all in after exactly that many steps, which is exactly
  // when no replica can go on.
  lemma RunsEndCollected(chats: seq<Chat>, replicas: nat, n: nat, maxConcurrency: int, run: seq<seq<Replica>>,
                         moves: seq<Move>)
    requires IsRun(chats, replicas, n, maxConcurrency, run, moves)
    ensures |moves| <= 3 * (|chats| * n)
    ensures AllCollected(run[|moves|]) <==> |moves| == 3 * (|chats| * n)
    ensures AllCollected(run[|moves|]) <==> Final(run[|moves|])
  {
    hide ArraySplit, Requests, First, Inv, Total, Takes, Start, CanGoOn, Collected, Left;
    var s := run[|moves|];
    RunInv(chats, replicas, n, maxConcurrency, run, moves, |moves|);
    LeftAfter(chats, replicas, n, maxConcurrency, run, moves, |moves|);
    forall r | 0 <= r < |s|
      ensures Lefts(s)[r] == Left(s[r]) >= 0
      ensures Left(s[r]) == 0 <==> Collected(s[r])
      ensures Left(s[r]) == 0 <==> !CanGoOn(s[r])
    {
      CollectedIff(RequestsOfAll(ArraySplit(chats, replicas), n)[r], maxConcurrency, s[r]);
    }
    TotalZero(Lefts(s));
  }

  lemma RowInside(row: nat, rows: nat, n: nat)
    requires row < rows
    ensures 0 <= row * n && row * n + n <= rows * n
  {
    Monotone(0, row, n);
    Monotone(row + 1, rows, n);
    NextProduct(row, n);
  }
}
