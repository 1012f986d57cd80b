/**
 Accepting a request: find or start its key's batching task and put the request into its channel, once
 more if that task has just ended.
 */
module Enqueue {
  import opened Prelude
  import opened FlushBatch
  import opened Pipeline

  datatype EnqueueResult = Accepted | QueueFull | BatcherClosed

  /** The pipeline state as far as accepting a request goes. */
  ghost function Front(entries: map<BatchKey, nat>, tasks: seq<Task>, probing: seq<Probing>, accepted: set<Id>): State {
    State(entries, tasks, probing, [], None, [], accepted, multiset{})
  }

  /** The attempts that one call makes: a second one after the first found an ended task. */
  ghost function AttemptsOf(l: Limits, s: State, req: Request): seq<Step> {
    if req.key in s.entries && s.entries[req.key] < |s.tasks| && s.tasks[s.entries[req.key]].ended
    then [Attempt(req), Attempt(req)] else [Attempt(req)]
  }

  /** The key's running task has no room. */
  ghost predicate IsFull(l: Limits, s: State, req: Request) {
    && req.key in s.entries && s.entries[req.key] < |s.tasks|
    && !s.tasks[s.entries[req.key]].ended
    && |s.tasks[s.entries[req.key]].channel| >= l.maxQueueDepth
  }

  lemma AttemptsRun(l: Limits, s: State, req: Request)
    requires req.id !in s.accepted
    ensures Runs(l, s, AttemptsOf(l, s, req))
    ensures var first := AfterAttempt(l, s, req);
            After(l, s, AttemptsOf(l, s, req))
              == if |AttemptsOf(l, s, req)| == 2 then AfterAttempt(l, first, req) else first
  {
    var steps, first := AttemptsOf(l, s, req), Apply(l, s, Attempt(req));
    if |steps| == 2 {
      assert steps[1..] == [Attempt(req)] && [Attempt(req)][1..] == [];
      assert Runs(l, first, steps[1..]);
      assert After(l, first, steps[1..]) == After(l, AfterAttempt(l, first, req), []);
    } else {
      assert steps[1..] == [];
    }
  }

  class BatcherManager {
    const limits: Limits
    var batchers: map<BatchKey, nat>
    var tasks: seq<Task>
    ghost var probing: seq<Probing>
    ghost var accepted: set<Id>

    constructor (limits: Limits)
      ensures this.limits == limits && View() == Front(map[], [], [], {}) && Valid()
    {
      this.limits := limits;
      batchers, tasks, probing, accepted := map[], [], [], {};
    }

    ghost function View(): State
      reads this
    {
      Front(batchers, tasks, probing, accepted)
    }

    ghost predicate Valid()
      reads this
    {
      forall k :: k in batchers ==> batchers[k] < |tasks|
    }

    /**
     The call is one or two attempts of the pipeline, and nothing in between. It fails only when the
     key's task is running and full: without interference the second attempt always finds a task.
     */
    method Enqueue(req: Request) returns (result: EnqueueResult)
      requires Valid() && req.id !in accepted
      modifies this
      ensures Valid()
      ensures Runs(limits, old(View()), AttemptsOf(limits, old(View()), req))
      ensures View() == After(limits, old(View()), AttemptsOf(limits, old(View()), req))
      ensures result == if IsFull(limits, old(View()), req) then QueueFull else Accepted
      ensures accepted == if result == Accepted then old(accepted) + {req.id} else old(accepted)
    {
      ghost var start := View();
      ghost var first := AfterAttempt(limits, start, req);
      AttemptsRun(limits, start, req);
      for turn := 0 to 2
        invariant Valid() && accepted == old(accepted)
        invariant turn == 0 ==> View() == start
        invariant turn >= 1 ==> |AttemptsOf(limits, start, req)| == 2 && View() == first && req.key !in batchers
        invariant turn <= 1
      {
        if req.key !in batchers {
          // A new channel has room for the request that created it.
          tasks := tasks + [Task(req.key, [req], [], [], false)];
          probing := probing + [NO_PROBES];
          batchers := batchers[req.key := |tasks| - 1];
          accepted := accepted + {req.id};
          return Accepted;
        }
        var t := batchers[req.key];
        if tasks[t].ended {
          batchers := batchers - {req.key};
          continue;
        }
        if |tasks[t].channel| >= limits.maxQueueDepth {
          return QueueFull;
        }
        tasks := tasks[t := tasks[t].(channel := tasks[t].channel + [req])];
        accepted := accepted + {req.id};
        return Accepted;
      }
      result := BatcherClosed;
    }
  }
}
