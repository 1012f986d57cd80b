/**
 Running a queued invocation: how its outcome reaches the waiting requests, and what a probe reports.
 Together with the flush that queued it, this says how often a probe is heard of.
 */
module Invocation {
  import opened Prelude
  import opened Planner
  import opened FlushBatch

  datatype InvokeResult = BufferedPayload(payload: Bytes) | ResponseStream | InvokeError(msg: string)

  /** What becomes of the pending requests: their dispatcher takes over, or all are told the same. */
  datatype Handling = DispatchBuffered(payload: Bytes) | DispatchStream | TellAll(answers: map<Id, Answer>)

  /** The result is of the kind that the job's mode expects. */
  predicate Fits(streaming: bool, result: InvokeResult) {
    if streaming then result.ResponseStream? else result.BufferedPayload?
  }

  /** run_invocation_job: a probe reports on every path, success exactly when the target answered in its mode. */
  method RunInvocationJob(job: Job, streaming: bool, result: InvokeResult)
    returns (handling: Handling, feedback: Option<bool>)
    ensures feedback == if job.isProbe then Some(Fits(streaming, result)) else None
    ensures handling.TellAll? <==> !Fits(streaming, result)
    ensures streaming && result.ResponseStream? ==> handling == DispatchStream
    ensures !streaming && result.BufferedPayload? ==> handling == DispatchBuffered(result.payload)
    ensures handling.TellAll? ==> handling.answers.Keys == job.pending.Keys
    ensures handling.TellAll? ==>
              var why := match result
                         case BufferedPayload(_) => "unexpected buffered response"
                         case ResponseStream => "unexpected response stream"
                         case InvokeError(msg) => "invoke: " + msg;
              forall id :: id in handling.answers ==> handling.answers[id] == Answer(502, why)
  {
    feedback := None;
    match result {
      case BufferedPayload(payload) =>
        if streaming {
          handling := TellAll(AnswerAll(job.pending, Answer(BAD_GATEWAY, "unexpected buffered response")));
          if job.isProbe { feedback := Some(false); }
        } else {
          handling := DispatchBuffered(payload);
          if job.isProbe { feedback := Some(true); }
        }
      case ResponseStream =>
        if streaming {
          handling := DispatchStream;
          if job.isProbe { feedback := Some(true); }
        } else {
          handling := TellAll(AnswerAll(job.pending, Answer(BAD_GATEWAY, "unexpected response stream")));
          if job.isProbe { feedback := Some(false); }
        }
      case InvokeError(msg) =>
        handling := TellAll(AnswerAll(job.pending, Answer(BAD_GATEWAY, "invoke: " + msg)));
        if job.isProbe { feedback := Some(false); }
    }
  }

  // ---------------------------------------------------------------- how often a flush is heard of

  /** The probes among the jobs: each of them reports once when it is run or refused. */
  ghost function ProbeCount(jobs: seq<Job>): nat {
    if jobs == [] then 0 else ProbeCount(jobs[..|jobs| - 1]) + if jobs[|jobs| - 1].isProbe then 1 else 0
  }

  ghost function InvokeCount(plans: seq<Plan>, n: nat): nat
    requires n <= |plans|
  {
    if n == 0 then 0 else InvokeCount(plans, n - 1) + if plans[n - 1].Invoke? then 1 else 0
  }

  /** How often feedback is given for a flush: now, by what is refused, and later, by what was queued. */
  ghost function Reports(plans: seq<Plan>, outcomes: nat -> TrySend, isProbe: bool, task: nat): nat {
    RefusedReports(plans, outcomes, |plans|, isProbe) + ProbeCount(QueuedJobs(plans, outcomes, |plans|, isProbe, task))
  }

  lemma {:induction false} EachInvokeReports(plans: seq<Plan>, outcomes: nat -> TrySend, n: nat, isProbe: bool,
                                             task: nat)
    requires n <= |plans|
    ensures RefusedReports(plans, outcomes, n, isProbe) + ProbeCount(QueuedJobs(plans, outcomes, n, isProbe, task))
         == if isProbe then InvokeCount(plans, n) else 0
  {
    if n > 0 {
      EachInvokeReports(plans, outcomes, n - 1, isProbe, task);
      var before := QueuedJobs(plans, outcomes, n - 1, isProbe, task);
      if IsQueued(plans[n - 1], outcomes(n - 1)) {
        assert (before + [JobOf(plans[n - 1], isProbe, task)])[..|before|] == before;
      } else {
        assert before + [] == before;
      }
    }
  }

  /** The request can be sent in an invocation of its own. */
  predicate FitsAlone(build: Builder, limit: nat, r: Request) {
    var built := build([BatchItem(r.id, r.content)]);
    built.Ok? && |built.value| <= limit
  }

  /**
   Main result: a probe is heard of exactly once if its request can be encoded and fits into an invocation -
   whether it is queued, refused, answered or fails - and never otherwise.
   */
  lemma ProbeReportsOnce(build: Builder, limit: nat, streaming: bool, r: Request, outcomes: nat -> TrySend, task: nat)
    ensures Reports(PlansOf(build, limit, [r], streaming), outcomes, true, task)
         == if FitsAlone(build, limit, r) then 1 else 0
  {
    var plans := PlansOf(build, limit, [r], streaming);
    assert Items([r]) == [BatchItem(r.id, r.content)];
    assert |plans| == 1 && (plans[0].Invoke? <==> FitsAlone(build, limit, r));
    EachInvokeReports(plans, outcomes, 1, true, task);
    assert InvokeCount(plans, 1) == InvokeCount(plans, 0) + if plans[0].Invoke? then 1 else 0;
  }

  /** An ordinary batch is never heard of. */
  lemma OrdinaryReportsNothing(build: Builder, limit: nat, streaming: bool, batch: seq<Request>,
                               outcomes: nat -> TrySend, task: nat)
    ensures Reports(PlansOf(build, limit, batch, streaming), outcomes, false, task) == 0
  {
    var plans := PlansOf(build, limit, batch, streaming);
    EachInvokeReports(plans, outcomes, |plans|, false, task);
  }

  /** The concrete probe: one byte too large, it is answered 502 and never heard of. */
  lemma TooLargeIsSilent(r: Request, outcomes: nat -> TrySend, task: nat)
    requires r.streamSink
    ensures var plans := PlansOf(_ => Ok([0]), 0, [r], true);
            && Reports(plans, outcomes, true, task) == 0
            && PlanAnswers(plans, outcomes, |plans|) == map[r.id := Answer(BAD_GATEWAY, "invoke payload too large")]
  {
    var build: Builder := _ => Ok([0]);
    ProbeReportsOnce(build, 0, true, r, outcomes, task);
    var plans := PlansOf(build, 0, [r], true);
    assert Fitting([r][..0], true) == map[];
    assert Fitting([r], true) == map[r.id := r];
    assert plans[0] == Fail(map[r.id := r], Items([r]), BAD_GATEWAY, "invoke payload too large");
    assert PlanAnswers(plans, outcomes, 0) == map[];
    assert PlanAnswers(plans, outcomes, 1) == map[] + AnswerAll(map[r.id := r], Refusal(plans[0], outcomes(0)));
  }
}
