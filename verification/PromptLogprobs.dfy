/** Prompt log-probabilities of requests whose prompts are prefilled in chunks, for any chunking of any number of requests
    over any number of scheduler steps. A row records every value ever written to it. */
module PromptLogprobs {
  // The hidden state of a request at a token position; the log-probabilities of a row are a function of it.
  datatype Hidden = Hidden(req: nat, pos: nat)

  type Rows = seq<seq<Hidden>>

  datatype Request = Request(len: nat, computed: nat)

  // Rows 0..n-1 written once, from the hidden state at their position, and the rest not yet.
  function Filled(req: nat, len: nat, n: nat): Rows
    requires len >= 1
  {
    seq(len - 1, k requires 0 <= k < len - 1 => if k < n then [Hidden(req, k)] else [])
  }

  // logprobs[lo : lo + |data|] = data
  function WriteSlice(rows: Rows, lo: nat, data: seq<Hidden>): Rows
    requires lo + |data| <= |rows|
  {
    seq(|rows|, k requires 0 <= k < |rows| => if lo <= k < lo + |data| then rows[k] + [data[k - lo]] else rows[k])
  }

  // The rows a scheduled chunk of n tokens fills: it stops before the last prompt token.
  function NumLogits(q: Request, n: nat): int {
    var remaining := q.len - (q.computed + 1);
    if n <= remaining then n else remaining
  }

  predicate Completes(q: Request, n: nat) {
    n > q.len - (q.computed + 1)
  }

  lemma WriteFills(req: nat, q: Request, n: nat, data: seq<Hidden>)
    requires 0 <= q.computed < q.len && |data| == NumLogits(q, n)
    requires forall t :: 0 <= t < |data| ==> data[t] == Hidden(req, q.computed + t)
    ensures q.computed + |data| <= q.len - 1
    ensures WriteSlice(Filled(req, q.len, q.computed), q.computed, data) == Filled(req, q.len, q.computed + n)
  {
    var a, b := WriteSlice(Filled(req, q.len, q.computed), q.computed, data), Filled(req, q.len, q.computed + n);
    assert forall k :: 0 <= k < q.len - 1 ==> a[k] == b[k];
  }

  // What one request's turn in the loop makes of it, and what it leaves of the requests whose turn is still to come.
  ghost predicate Handled(r: nat, q: Request, scheduled: map<nat, nat>, before: map<nat, Rows>, progress: map<nat, Rows>,
                          result: map<nat, Rows>) {
    if r !in scheduled then Untouched(r, before, progress, result)
    else
      && q.len >= 1 && r in progress && progress[r] == Filled(r, q.len, q.computed + scheduled[r])
      && (r in result <==> Completes(q, scheduled[r]))
      && (r in result ==> result[r] == progress[r])
  }

  ghost predicate Untouched(r: nat, before: map<nat, Rows>, progress: map<nat, Rows>, result: map<nat, Rows>) {
    r !in result && (r in progress <==> r in before) && (r in progress ==> progress[r] == before[r])
  }

  ghost predicate Consistent(requests: map<nat, Request>, wanted: set<nat>, progress: map<nat, Rows>) {
    && (forall r :: r in wanted ==>
          r in requests && requests[r].computed < requests[r].len && (requests[r].computed > 0 ==> r in progress))
    && forall r :: r in progress ==>
         r in wanted && progress[r] == Filled(r, requests[r].len, requests[r].computed)
  }

  function Advanced(requests: map<nat, Request>, scheduled: map<nat, nat>): map<nat, Request> {
    map r | r in requests ::
      if r in scheduled then requests[r].(computed := requests[r].computed + scheduled[r]) else requests[r]
  }

  lemma StillConsistent(requests: map<nat, Request>, wanted: set<nat>, progress: map<nat, Rows>, scheduled: map<nat, nat>,
                        wanted': set<nat>, progress': map<nat, Rows>)
    requires Consistent(requests, wanted, progress) && wanted' <= wanted && progress'.Keys <= wanted'
    requires forall r :: r in wanted' ==>
               if r in scheduled then !Completes(requests[r], scheduled[r]) && r in progress'
                 && progress'[r] == Filled(r, requests[r].len, requests[r].computed + scheduled[r])
               else (r in progress' <==> r in progress) && (r in progress' ==> progress'[r] == progress[r])
    ensures Consistent(Advanced(requests, scheduled), wanted', progress')
  {
    hide Filled;
  }

  // One scheduler step: a finished prompt is returned with every row written exactly once and then forgotten, the chunks'
  // tokens count as computed, and nothing else changes.
  ghost predicate Stepped(requests: map<nat, Request>, wanted: set<nat>, scheduled: map<nat, nat>,
                          requests': map<nat, Request>, wanted': set<nat>, result: map<nat, Rows>) {
    && (forall r :: r in result <==>
          r in wanted && r in scheduled && r in requests && requests[r].computed + scheduled[r] >= requests[r].len)
    && (forall r :: r in result ==> requests[r].len >= 1 && result[r] == Filled(r, requests[r].len, requests[r].len - 1))
    && wanted' == wanted - result.Keys
    && requests' == Advanced(requests, scheduled)
  }

  // Tokens of a request scheduled before step i.
  function TokensBefore(schedule: seq<map<nat, nat>>, r: nat, i: nat): nat
    requires i <= |schedule|
  {
    if i == 0 then 0
    else TokensBefore(schedule, r, i - 1) + if r in schedule[i - 1] then schedule[i - 1][r] else 0
  }

  ghost predicate Lifetime(schedule: seq<map<nat, nat>>, requests: seq<map<nat, Request>>, wanted: seq<set<nat>>,
                           results: seq<map<nat, Rows>>) {
    && |requests| == |wanted| == |schedule| + 1 && |results| == |schedule|
    && forall i :: 0 <= i < |schedule| ==>
         Stepped(requests[i], wanted[i], schedule[i], requests[i + 1], wanted[i + 1], results[i])
  }

  // Over any schedule, a request is returned exactly at the step whose chunk finishes its prompt, with every row written
  // exactly once from the hidden state at its own position, and is wanted exactly until then.
  lemma {:induction false} ReturnedWhenFinished(schedule: seq<map<nat, nat>>, requests: seq<map<nat, Request>>,
                                                wanted: seq<set<nat>>, results: seq<map<nat, Rows>>, r: nat, i: nat)
    requires Lifetime(schedule, requests, wanted, results) && i <= |schedule|
    requires r in requests[0] && requests[0][r].computed == 0 && requests[0][r].len >= 1 && r in wanted[0]
    ensures var len, done := requests[0][r].len, TokensBefore(schedule, r, i);
      && r in requests[i] && requests[i][r] == Request(len, done)
      && (r in wanted[i] <==> done < len)
      && (i < |schedule| ==>
            && (r in results[i] <==> done < len <= TokensBefore(schedule, r, i + 1))
            && (r in results[i] ==>
                  |results[i][r]| == len - 1 && forall k :: 0 <= k < len - 1 ==> results[i][r][k] == [Hidden(r, k)]))
  {
    hide Filled;
    if i > 0 {
      ReturnedWhenFinished(schedule, requests, wanted, results, r, i - 1);
      assert Stepped(requests[i - 1], wanted[i - 1], schedule[i - 1], requests[i], wanted[i], results[i - 1]);
    }
    FilledRows(r, requests[0][r].len);
    if i < |schedule| {
      assert Stepped(requests[i], wanted[i], schedule[i], requests[i + 1], wanted[i + 1], results[i]);
    }
  }

  /** The fields get_prompt_logprobs reads and writes. */
  class GPUModelRunner {
    var requests: map<nat, Request>
    var numPromptLogprobs: set<nat>
    var inProgress: map<nat, Rows>

    // A request wants log-probabilities until its prompt is finished; its rows reach as far as its tokens.
    ghost predicate Valid()
      reads this
    {
      Consistent(requests, numPromptLogprobs, inProgress)
    }

    constructor (lens: map<nat, nat>)
      requires forall r :: r in lens ==> lens[r] >= 1
      ensures Valid() && numPromptLogprobs == lens.Keys
      ensures requests == map r | r in lens :: Request(lens[r], 0)
    {
      requests := map r | r in lens :: Request(lens[r], 0);
      numPromptLogprobs := lens.Keys;
      inProgress := map[];
    }

    ghost predicate Items(items: seq<nat>)
      reads this
    {
      && (forall i :: 0 <= i < |items| ==> items[i] in numPromptLogprobs)
      && (forall r :: r in numPromptLogprobs ==> exists i :: 0 <= i < |items| && items[i] == r)
      && forall i, j :: 0 <= i < j < |items| ==> items[i] != items[j]
    }

    // The batch's hidden states hold each scheduled request's chunk at its offset.
    ghost predicate Batched(scheduled: map<nat, nat>, hidden: seq<Hidden>, offset: map<nat, nat>)
      reads this
      requires Valid()
    {
      forall r :: r in scheduled && r in numPromptLogprobs ==>
        && r in offset && offset[r] + scheduled[r] <= |hidden|
        && forall p :: offset[r] <= p < offset[r] + scheduled[r] ==> hidden[p] == Hidden(r, requests[r].computed + p - offset[r])
    }

    // The loop over the dict's items, in its order, on the rows in place.
    method FillRows(items: seq<nat>, scheduled: map<nat, nat>, hidden: seq<Hidden>, offset: map<nat, nat>)
      returns (progress: map<nat, Rows>, result: map<nat, Rows>)
      requires Valid() && Batched(scheduled, hidden, offset) && Items(items)
      ensures progress.Keys <= numPromptLogprobs && result.Keys <= numPromptLogprobs
      ensures forall r :: r in numPromptLogprobs ==> Handled(r, requests[r], scheduled, inProgress, progress, result)
    {
      hide Filled, WriteSlice, Handled;
      progress := inProgress;
      result := map[];
      for i := 0 to |items|
        invariant forall k :: 0 <= k < i ==> Handled(items[k], requests[items[k]], scheduled, inProgress, progress, result)
        invariant forall k :: i <= k < |items| ==> Untouched(items[k], inProgress, progress, result)
        invariant result.Keys <= numPromptLogprobs && progress.Keys <= numPromptLogprobs
      {
        var r := items[i];
        ghost var p0, r0 := progress, result;
        if r in scheduled {
          var rows := Continue(r, requests[r], scheduled[r], progress, hidden, offset);
          progress := progress[r := rows];
          if Completes(requests[r], scheduled[r]) {
            result := result[r := rows];
          }
        }
        TurnHandles(r, requests[r], scheduled, inProgress, progress, result);
        forall k | 0 <= k < i
          ensures Handled(items[k], requests[items[k]], scheduled, inProgress, progress, result)
        {
          HandledStays(items[k], requests[items[k]], scheduled, inProgress, p0, r0, progress, result);
        }
      }
    }

    // items: the dict's keys. Finished requests are deleted after the loop.
    method GetPromptLogprobs(items: seq<nat>, scheduled: map<nat, nat>, hidden: seq<Hidden>, offset: map<nat, nat>)
      returns (result: map<nat, Rows>)
      requires Valid() && Batched(scheduled, hidden, offset) && Items(items)
      modifies this`numPromptLogprobs, this`inProgress
      ensures forall r :: r in result <==>
                r in old(numPromptLogprobs) && r in scheduled && Completes(old(requests[r]), scheduled[r])
      ensures forall r :: r in result ==> result[r] == Filled(r, requests[r].len, requests[r].len - 1)
      ensures numPromptLogprobs == old(numPromptLogprobs) - result.Keys && inProgress.Keys <= numPromptLogprobs
      ensures forall r :: r in numPromptLogprobs ==>
                if r in scheduled then r in inProgress && inProgress[r] == Filled(r, requests[r].len, requests[r].computed + scheduled[r])
                else (r in inProgress <==> r in old(inProgress)) && (r in inProgress ==> inProgress[r] == old(inProgress)[r])
    {
      hide Filled, WriteSlice;
      var progress;
      progress, result := FillRows(items, scheduled, hidden, offset);
      forall r | r in result
        ensures result[r] == Filled(r, requests[r].len, requests[r].len - 1)
      {
        FilledAll(r, requests[r].len, requests[r].computed + scheduled[r]);
      }
      numPromptLogprobs := numPromptLogprobs - result.Keys;
      inProgress := progress - result.Keys;
    }

    // A scheduled request's turn: its rows, created on first use, with the chunk's rows written.
    method Continue(r: nat, q: Request, n: nat, progress: map<nat, Rows>, hidden: seq<Hidden>, offset: map<nat, nat>)
      returns (rows: Rows)
      requires q.computed < q.len && (q.computed > 0 ==> r in progress)
      requires r in progress ==> progress[r] == Filled(r, q.len, q.computed)
      requires r in offset && offset[r] + n <= |hidden|
      requires forall p :: offset[r] <= p < offset[r] + n ==> hidden[p] == Hidden(r, q.computed + p - offset[r])
      ensures rows == Filled(r, q.len, q.computed + n)
    {
      hide Filled, WriteSlice;
      if r in progress {
        rows := progress[r];
      } else {
        NothingFilled(r, q.len);
        rows := seq(q.len - 1, _ => []);
      }
      var numLogits := NumLogits(q, n);
      FilledLength(r, q.len, q.computed);
      var data := hidden[offset[r]..offset[r] + numLogits];
      WriteFills(r, q, n, data);
      if numLogits <= 0 {
        WriteNothing(rows, q.computed);
        return;
      }
      rows := WriteSlice(rows, q.computed, data);
    }

    // One scheduler step: the call, then the engine counts the chunk's tokens as computed.
    method Step(items: seq<nat>, scheduled: map<nat, nat>, hidden: seq<Hidden>, offset: map<nat, nat>)
      returns (result: map<nat, Rows>)
      requires Valid() && Batched(scheduled, hidden, offset)
      requires Items(items)
      modifies this
      ensures Valid()
      ensures Stepped(old(requests), old(numPromptLogprobs), scheduled, requests, numPromptLogprobs, result)
    {
      hide Filled, WriteSlice, Advanced;
      result := GetPromptLogprobs(items, scheduled, hidden, offset);
      StillConsistent(requests, old(numPromptLogprobs), old(inProgress), scheduled, numPromptLogprobs, inProgress);
      requests := Advanced(requests, scheduled);
    }
  }

  lemma TurnHandles(r: nat, q: Request, scheduled: map<nat, nat>, before: map<nat, Rows>, progress: map<nat, Rows>,
                    result: map<nat, Rows>)
    requires q.len >= 1
    requires if r !in scheduled then Untouched(r, before, progress, result)
             else r in progress && progress[r] == Filled(r, q.len, q.computed + scheduled[r])
                  && (r in result <==> Completes(q, scheduled[r])) && (r in result ==> result[r] == progress[r])
    ensures Handled(r, q, scheduled, before, progress, result)
  {
  }

  lemma HandledStays(r: nat, q: Request, scheduled: map<nat, nat>, before: map<nat, Rows>, p0: map<nat, Rows>, r0: map<nat, Rows>,
                     progress: map<nat, Rows>, result: map<nat, Rows>)
    requires Handled(r, q, scheduled, before, p0, r0)
    requires (r in progress <==> r in p0) && (r in p0 ==> progress[r] == p0[r])
    requires (r in result <==> r in r0) && (r in r0 ==> result[r] == r0[r])
    ensures Handled(r, q, scheduled, before, progress, result)
  {
  }

  lemma NothingFilled(req: nat, len: nat)
    requires len >= 1
    ensures seq(len - 1, _ => []) == Filled(req, len, 0)
  {
  }

  lemma FilledRows(req: nat, len: nat)
    requires len >= 1
    ensures |Filled(req, len, len - 1)| == len - 1
    ensures forall k :: 0 <= k < len - 1 ==> Filled(req, len, len - 1)[k] == [Hidden(req, k)]
  {
  }

  lemma FilledLength(req: nat, len: nat, n: nat)
    requires len >= 1
    ensures |Filled(req, len, n)| == len - 1
  {
  }

  lemma FilledAll(req: nat, len: nat, n: nat)
    requires len >= 1 && n >= len - 1
    ensures Filled(req, len, n) == Filled(req, len, len - 1)
  {
  }

  lemma WriteNothing(rows: Rows, lo: nat)
    requires lo <= |rows|
    ensures WriteSlice(rows, lo, []) == rows
  {
    assert forall k :: 0 <= k < |rows| ==> WriteSlice(rows, lo, [])[k] == rows[k];
  }
}
