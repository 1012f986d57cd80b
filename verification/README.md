# Khone, modelled and proved in Dafny

Khone groups HTTP requests into batched Lambda invocations and routes each request's answer home. This
project models the parts of it that carry the difficulty and proves what they promise. Every file is
one module; `dafny verify dfyconfig.toml` checks them all.

**Streaming answers.** `Framing`, `StreamWire`, `ClientTrace`, `BatchRun`, `StreamDispatch` and
`ChunkIndependence` model the streaming dispatcher: bytes arrive in chunks, fall into lines, and change
a map of pending requests. A client is specified alone, as a small automaton that produces a trace of
events; the dispatcher is a class with the source's mutable map, buffer indices and failure paths, proved
to give every client the trace its automaton gives. `ConcurrentSelect`, `BatchAdapter` and
`StreamRoundTrip` add the adapter on the other side and close the circle from handler to client;
`BatchAnswer` says what a client is told in terms of its handler's response alone.
`BufferedDispatch` is the buffered counterpart.

**The runtime proxy.** `ProxyMachine` is a state machine with one step per critical section; fetches,
forwards and finalize tasks between locks are counted in its state, so a run is any sequence of steps.
`ProxyBatch` proves conservation of a batch, `ProxyState` is the mutable state with one method per
section, each proved to be its step, `KhoneEnvelope` recognises batches, and `ModeARoundTrip` composes
proxy and dispatcher end to end.

**Batching.** `Planner` splits oversized batches, `FlushBatch` flushes one, `Enqueue` accepts a request,
`Invocation` runs a queued job, `Pipeline` follows requests from acceptance to resolution over all
interleavings, and `ProbeFeedback` follows probes and their reports there. `Scheduler` and `ProbeScheduler`
are the per-key tasks over all schedules of events, `ProbeSchedule` reads a task's schedule off a run of the
pipeline, `WaitPolicy` decides waits.

**Statistics.** `P2Markers` specifies the P-square quantile sketch (Jain and Chlamtac, CACM 1985),
`P2Quantile` updates arrays in place, `P2Invariants`, `P2Interpolation` and `P2Affine` hold its properties.
`StageWindows`, `CostSource`, `DurationCost`, `TwoPassCost` and `CostAgreement` show when one pass over a
stream computes what two passes over records do. `SliceSampler` is a bottom-k sketch per second.
`RealSeqs` holds sorting and the like.

Exact reals stand for floating point. JSON, base64, header and UTF-8 conversions are functions that may
refuse their input; the laws assumed of them (`CodecAgrees`, `Base64RoundTrips`, `CrIsWhiteSpace`,
`TotalAndMonotone`) are named predicates, required only where they are needed. Whether a client still
listens, which stream is ready, when a timer fires and how the map is iterated are left to the
environment. Windows, intervals and batch sizes are positive, as the validation in
gateway/src/spec.rs:426-504 requires.

## What the proofs found

- A tail without its newline is stripped of all trailing carriage returns, a line of one only. A stream
  that ends in two carriage returns tells waiting clients something else with than without a final newline;
  in all other cases the final newline is optional (`ClientsMissNoNewline` says exactly when).
- Completing a pass-through invocation again while its first completion is still being forwarded lets
  the second forward's return discard a batch fetched in between (`ImpoliteLosesABatch`). The proxy's
  invariants hold under the assumption that this does not happen (`Polite`), and need no assumption on
  the batch side.
- A request whose id is no header value is counted as in flight although it is never delivered
  (bootstrap/layer-proxy/src/proxy.rs:264-271), so its batch can finish only if somebody completes an id
  that was never handed out (`CanFinishIff`, `OneUndeliverable`).
- A probe whose plan fails reports nothing (gateway/src/batching/flush.rs:126-143), and a task waits for
  feedback before it probes again: such a probe is the task's last (`SilentProbeIsTheLast`). That happens
  exactly to probes that cannot be encoded or do not fit alone (`SilentIff`, `OneSilentProbe`).
- The one-pass statistics skip records without a positive timestamp or without a named endpoint, the
  two-pass ones do not (`ReadTheSameIff`, `TimestampsMatter`, `NamesMatter`); an endpoint without durations
  has the total 0 in one and none in the other.

## Model

| member | source | states |
|---|---|---|
| `Framing.SplitJoins` | gateway/src/batching/response_dispatch/stream.rs:112-118 | cutting bytes at newlines loses nothing: the lines with their newlines, followed by the rest, are the bytes |
| `Framing.SplitUnique` | gateway/src/batching/response_dispatch/stream.rs:112-118 | the cut is the only way to write bytes as newline-free lines and a newline-free rest |
| `Framing.SplitConcat` | gateway/src/batching/response_dispatch/stream.rs:86-177 | framing is incremental: of the bytes seen so far only the part after the last newline matters for what comes next |
| `Framing.WhatIsStripped` | gateway/src/batching/response_dispatch/stream.rs:112-185 | a line loses one carriage return if it ends in one; the unterminated rest loses every newline and carriage return at its end and nothing else |
| `ClientTrace.ServeFollowsGrammar` | gateway/src/batching/response_dispatch/stream.rs:284-405 | every record, whether it converts or not and whether the client listens or not, extends the client's trace within the grammar (Response, Dropped, Gone, or Head Chunk* [Gone]) Close, and an error only ever comes with the client closed |
| `ClientTrace.ResolveFollowsGrammar` | gateway/src/batching/response_dispatch.rs:131-152 | failing what is still pending completes a trace that follows the grammar |
| `StreamWire.HeadOfConverts` | gateway/src/batching/response_dispatch/stream.rs:16-48 | a head is built exactly when status, headers and cookies all convert, holds the converted values and the batch's metadata, and otherwise names the first that does not convert |
| `StreamWire.ResponseOfConverts` | gateway/src/batching/response_dispatch/parts.rs:9-29 | a response is built exactly when nothing is refused, holds the converted status, headers with cookies and body, and fails with the first refusal's reason |
| `StreamWire.ErrorAnswerIs` | gateway/src/batching/response_dispatch/stream.rs:381-396 | an error record's answer has its status, 502 if it has none or an unusable one, and its message or 'error' as text |
| `BatchRun.RunConcat` | gateway/src/batching/response_dispatch/stream.rs:112-172 | dispatching records in two portions is dispatching them at once, up to the first failure |
| `BatchRun.EveryTraceCompletes` | gateway/src/batching/response_dispatch/stream.rs:50-264 | whatever arrives, however it is cut, whichever sends fail and however the stream ends: every client ends with exactly one complete trace and nothing is pending |
| `BatchRun.NonInterference` | gateway/src/batching/response_dispatch/stream.rs:284-405 | while the stream does not fail, a client receives what it would receive from its own records alone in a batch of its own, even when other clients disconnect |
| `StreamDispatch.StreamDispatcher.SendStreamHead` | gateway/src/batching/response_dispatch/stream.rs:16-48 | the init sender is consumed at most once: used for a head that converts, dropped unsent otherwise |
| `StreamDispatch.StreamDispatcher.DispatchLegacy` | gateway/src/batching/response_dispatch/stream.rs:292-316 | the imperative legacy branch on the pending map is the client automaton's step, and touches one client |
| `StreamDispatch.StreamDispatcher.DispatchHead` | gateway/src/batching/response_dispatch/stream.rs:323-339 | likewise for a head record, which puts the entry back only if the client listens |
| `StreamDispatch.StreamDispatcher.DispatchChunk` | gateway/src/batching/response_dispatch/stream.rs:340-364 | likewise for a chunk record, which opens the response with a default head when none was sent |
| `StreamDispatch.StreamDispatcher.DispatchEnd` | gateway/src/batching/response_dispatch/stream.rs:365-380 | likewise for an end record |
| `StreamDispatch.StreamDispatcher.DispatchError` | gateway/src/batching/response_dispatch/stream.rs:381-399 | likewise for an error record |
| `StreamDispatch.StreamDispatcher.DispatchStreamRecord` | gateway/src/batching/response_dispatch/stream.rs:284-405 | one record changes the pending map and the traces exactly as specified, unknown ids and wrong versions included |
| `StreamDispatch.StreamDispatcher.FailAllStream` | gateway/src/batching/response_dispatch.rs:131-152 | every pending client is resolved, in any order of the map, and the map is empty |
| `StreamDispatch.StreamDispatcher.DrainLines` | gateway/src/batching/response_dispatch/stream.rs:111-177 | the index loop dispatches exactly the complete lines of the buffer and leaves exactly what follows the last newline |
| `StreamDispatch.StreamDispatcher.DispatchResponseStream` | gateway/src/batching/response_dispatch/stream.rs:50-264 | the whole loop - buffering, limit, stream errors, tail, missing records - computes the outcome that is specified on the accepted bytes, without chunks |
| `ChunkIndependence.ReadToTheEnd` | gateway/src/batching/response_dispatch/stream.rs:86-109 | a stream is read to its end exactly if no transport error occurs and rest plus chunk never exceeds 8 MiB, and then every byte is accepted |
| `ChunkIndependence.ChunkingIndependence` | gateway/src/batching/response_dispatch/stream.rs:61-177 | two ways of cutting the same bytes give every client the same trace |
| `ChunkIndependence.FinalNewlineIsOptional` | gateway/src/batching/response_dispatch/stream.rs:112-185 | reading ends alike with and without the final newline if and only if the unterminated rest is not two or more carriage returns and nothing else; identically when the rest holds a record |
| `ChunkIndependence.ClientsMissNoNewline` | gateway/src/batching/response_dispatch/stream.rs:112-264 | every client receives the same with and without the final newline, up to what an error says, if and only if it is not the case that two or more carriage returns alone are left while somebody who has received nothing yet listens |
| `ChunkIndependence.FinalNewlineMatters` | gateway/src/batching/response_dispatch/stream.rs:180-185 | the concrete stream, two carriage returns, on which a waiting client is told something else |
| `BufferedDispatch.FailAll` | gateway/src/batching/response_dispatch.rs:112-129 | every pending request is sent the text once, nobody else anything |
| `BufferedDispatch.DispatchBuffered` | gateway/src/batching/response_dispatch/buffered.rs:12-121 | every pending request is sent exactly one response and nobody else any: the converted status, headers, cookies and body of its first item; 502 with the reason if those do not convert; 502 'missing response record' if it has no item; 502 with one message for all if the payload or its version is unusable |
| `BufferedDispatch.AnswersDoNotInterfere` | gateway/src/batching/response_dispatch/buffered.rs:65-95 | items for other requests, wherever they stand, do not change a request's answer |
| `ConcurrentSelect.Select.Refill` | lambda-kit/adapter-rust/src/lib.rs:448-453 | streams are started in order until the limit is reached or none is left, and nothing is lost in between |
| `ConcurrentSelect.Select.PollActive` | lambda-kit/adapter-rust/src/lib.rs:455-463 | an item comes from the front of one open stream; the end is reported only when no stream is open |
| `ConcurrentSelect.Select.PollNext` | lambda-kit/adapter-rust/src/lib.rs:439-467 | at every moment each stream is what was yielded of it followed by what is left; when the merge ends, the output is an interleaving of all the streams, whole and in order, with at most the limit open at a time |
| `StreamRoundTrip.OwnAnswer` | lambda-kit/adapter-rust/src/lib.rs:529-650 | alone and listening, a client of an adapter's record stream receives its handler's own status (200 for 0), exactly the headers with a name, the cookies that are not blank in order, and the body in pieces or at once - or its error answer - in both record modes |
| `BatchAnswer.TraceTells` | lambda-kit/adapter-rust/src/lib.rs:523-650 | what a client is to receive is what its handler returned: status or 200, exactly the headers with a name, exactly the cookies that are not blank, trimmed and in order, every piece of the body; and the error answers of a failed handler |
| `BatchAnswer.CookiesAreKept` | lambda-kit/adapter-rust/src/lib.rs:293-306 | exactly the cookies that are not blank are kept, trimmed, in order |
| `StreamRoundTrip.EncodedOutcome` | lambda-kit/adapter-rust/src/lib.rs:426-430 | an encoded stream that fits the buffer reaches the dispatcher record by record |
| `StreamRoundTrip.ConnectedClient` | lambda-kit/adapter-rust/src/lib.rs:501-660 | in any interleaving of the merge, a client that stays connected has received exactly its own handler's status, headers, cookies and body |
| `StreamRoundTrip.StreamingRoundTrip` | lambda-kit/adapter-rust/src/lib.rs:501-660 | end to end: for every interleaving of the merge and every chunking that fits, every client has a complete trace, and a client that stays connected has received its own handler's status, headers, cookies and body, read off the response's fields, and nothing else |
| `ProxyMachine.ExclusiveStep` | bootstrap/layer-proxy/src/proxy.rs:70-183 | one critical section keeps the exclusivity invariant and changes the active invocation only in a legal way |
| `ProxyMachine.ExclusiveAlways` | bootstrap/layer-proxy/src/proxy.rs:70-461 | over every run: at most one fetch in flight, exactly while fetching_outer holds, and then nothing is active; one finalizer exactly while finalizing; one forward at most; nothing active is ever overwritten |
| `ProxyMachine.ImpoliteLosesABatch` | bootstrap/layer-proxy/src/proxy.rs:289-301 | why the one assumption is needed: completing a pass-through id a second time while its completion is being forwarded allows a run that throws a whole batch away unanswered |
| `ProxyMachine.ExclusiveFromTheStart` | bootstrap/layer-proxy/src/proxy.rs:70-461 | the same for every run from the initial state |
| `ProxyBatch.BatchStep` | bootstrap/layer-proxy/src/proxy.rs:246-448 | every critical section keeps batch conservation |
| `ProxyBatch.BatchAlways` | bootstrap/layer-proxy/src/proxy.rs:246-448 | over every run, with duplicate and unknown completions: queue, inflight and recorded ids partition the batch, records are distinct, deliveries are the deliverable ids taken so far in order, the stream is open exactly while something is to be done |
| `ProxyBatch.BatchFromTheStart` | bootstrap/layer-proxy/src/proxy.rs:246-448 | the same for every run from the initial state |
| `ProxyBatch.BatchProgress` | bootstrap/layer-proxy/src/proxy.rs:259-271 | every step on an open batch changes nothing of it or lowers 2*queue+inflight by one, and the step that reaches zero closes the stream, once |
| `ProxyBatch.ClosedStreamIsPermutation` | bootstrap/layer-proxy/src/proxy.rs:427-441 | a closed stream holds exactly one record per id of the batch |
| `ProxyBatch.DeliveredInOrder` | bootstrap/layer-proxy/src/proxy.rs:259-271 | what has been handed out is a prefix of the batch's deliverable ids |
| `ProxyBatch.AnsweredAlways` | bootstrap/layer-proxy/src/proxy.rs:405-425 | whatever completions the proxy ignores - second ones, unknown ids, of any content - every record in the stream holds its own handler's answer field by field, or 502 and nothing if that is unreadable, or 500 and nothing for an error report |
| `ProxyBatch.SameBatch` | bootstrap/layer-proxy/src/proxy.rs:133-166 | the batch is not exchanged before the next fetch is installed |
| `ProxyBatch.UndeliverableKeepsOpen` | bootstrap/layer-proxy/src/proxy.rs:264-271 | as long as only requests that were handed out are completed, a batch with an unanswered id that is no header value stays open for good |
| `ProxyBatch.CanFinishIff` | bootstrap/layer-proxy/src/proxy.rs:264-271 | an open batch can be finished by completing only what was handed out if and only if every unanswered id is a valid header value |
| `ProxyBatch.OneUndeliverable` | bootstrap/layer-proxy/src/proxy.rs:264-271 | the concrete run of one such request, taken, never delivered, and stuck |
| `ProxyState.ProxyInner.TryTakeNext` | bootstrap/layer-proxy/src/proxy.rs:246-275 | the locked section is the machine's step; it hands out the front of the queue with its event, or the pass-through with its body once, or says that there is nothing, or that the front's id is no header value |
| `ProxyState.ProxyInner.ShouldFetch` | bootstrap/layer-proxy/src/proxy.rs:76-80 | only one caller is told to fetch, and only when nothing is active |
| `ProxyState.ProxyInner.InstallBatch` | bootstrap/layer-proxy/src/proxy.rs:133-158 | installing a fetched batch is the machine's step |
| `ProxyState.ProxyInner.InstallPassThrough` | bootstrap/layer-proxy/src/proxy.rs:159-167 | installing a fetched pass-through is the machine's step |
| `ProxyState.ProxyInner.GiveUpFetch` | bootstrap/layer-proxy/src/proxy.rs:103-131 | a failed or rejected fetch frees the flag and changes nothing else |
| `ProxyState.ProxyInner.HandleCompletion` | bootstrap/layer-proxy/src/proxy.rs:368-448 | the locked section is the machine's step; a completion of a request in flight adds one record with that id and the completion's own content, any other adds none; it forwards or finalizes exactly when it should |
| `ProxyState.ProxyInner.ForwardReturned` | bootstrap/layer-proxy/src/proxy.rs:296-303 | only a successful forward frees the proxy |
| `ProxyState.ProxyInner.Finalize` | bootstrap/layer-proxy/src/proxy.rs:450-462 | the finalize task's section is the machine's step |
| `KhoneEnvelope.ParseOuterBatch` | bootstrap/layer-proxy/src/khone.rs:11-53 | passes through exactly what is no version-1 envelope with a batch field; accepts exactly non-empty lists of items with distinct ids, keeping order; rejects the rest with the reason of the first bad item |
| `KhoneEnvelope.RequestId` | bootstrap/layer-proxy/src/khone.rs:35-39 | an item has an id exactly if it is an object whose requestContext is an object whose requestId is that string |
| `ModeARoundTrip.RecordsAnswerBatch` | gateway/src/batching/response_dispatch/stream.rs:292-316 | one convertible record per client answers exactly those clients, each with its own record |
| `ModeARoundTrip.FinishedStream` | bootstrap/layer-proxy/src/proxy.rs:405-441 | when a batch is finished, the stream holds one record for each request, with the content of its own handler's completion, whatever else was completed |
| `ProxyMachine.RecordForHolds` | bootstrap/layer-proxy/src/proxy.rs:464-505 | the record made of a completion carries the id and the answer's status, headers, cookies, body and encoding; 502 without content if the answer is unreadable, 500 for an error report |
| `ModeARoundTrip.ModeAEndToEnd` | bootstrap/layer-proxy/src/proxy.rs:405-441 | end to end: for every order of taking and completing, with duplicate and unknown completions of any content, and every chunking, every client of the batch is told the converted status, headers, cookies and body its own handler answered, 502 or 500 with an empty body if there is no readable answer, or has left |
| `Planner.SplitPending` | gateway/src/batching/planner.rs:160-171 | moving entries one by one out of the map splits it into those of the left items and the others |
| `Planner.PlansPartition` | gateway/src/batching/planner.rs:72-149 | the plans' pending maps partition the batch's, their items are the batch's in order, every payload is what was built and fits, there is one plan more than there were splits |
| `Planner.PlansAreCalledFor` | gateway/src/batching/planner.rs:72-149 | every plan is what building its own items calls for: a failure with the encoding error, an invocation with the payload built if that fits, or a failure of a single item that is too large; none is without items unless the batch is |
| `Planner.SplitOnlyTooLarge` | gateway/src/batching/planner.rs:92-142 | splitting is by halves and only where it must be: a batch with more than one plan was too large, and every plan of it is one half of a block that could be encoded but was too large |
| `Planner.PlansOwnTheirItems` | gateway/src/batching/planner.rs:118-142 | with distinct ids every plan holds exactly those entries of the batch that belong to its own items |
| `Planner.FailuresAreTooLarge` | gateway/src/batching/planner.rs:95-115 | with a total and monotone builder exactly the items that do not fit alone fail, each alone, and they are counted |
| `FlushBatch.CollectPending` | gateway/src/batching/flush.rs:27-85 | the loop puts every request into the pending map of its sink's mode and into the items, in order |
| `FlushBatch.FailJob` | gateway/src/batching/invocation.rs:43-76 | a job that is failed tells exactly its own requests the same, and a probe reports a failure |
| `FlushBatch.SendPlans` | gateway/src/batching/flush.rs:124-161 | the queue receives, in order, one job for each plan that is an invocation and is taken, with that plan's entries, payload, probe flag and feedback channel; everybody else is told the plan's failure, 429 when the queue is full or 502 when it is closed, and a refused probe reports |
| `FlushBatch.Flush` | gateway/src/batching/flush.rs:16-279 | a flush cuts its batch into stretches one behind the other; each stretch that can be encoded, fits and is taken is queued, in order, with the payload built from it and on behalf of exactly its own requests; with distinct ids everybody else is told the reason: encoding error, too large, queue full, shutting down, or a sink of the wrong kind |
| `FlushBatch.FlushMeans` | gateway/src/batching/flush.rs:16-279 | the same of the specified flush, for all batches, builders, limits and reactions of the queue |
| `FlushBatch.FlushLosesNobody` | gateway/src/batching/flush.rs:16-238 | each request of a batch ends either in exactly one queued invocation or answered, never both, whatever the sizes and however the queue reacts |
| `Invocation.RunInvocationJob` | gateway/src/batching/invocation.rs:100-343 | a result of the job's mode goes to that mode's dispatcher with its payload; otherwise exactly the job's requests are told 502 and why; a probe reports once on every path, success exactly in the first case |
| `Invocation.ProbeReportsOnce` | gateway/src/batching/flush.rs:124-161 | a probe is heard of exactly once if its request can be encoded and fits into an invocation, whatever becomes of it then, and never otherwise |
| `Invocation.TooLargeIsSilent` | gateway/src/batching/flush.rs:126-143 | the concrete probe that is one byte too large: answered 502 and never heard of |
| `Pipeline.StepKeepsStructure` | gateway/src/batching/mod.rs:236-256 | every step keeps the bounds of channels, job queue and running invocations, and batches of one key |
| `Pipeline.StepConserves` | gateway/src/batching/invocation.rs:79-98 | every step keeps each accepted request in exactly one place |
| `Pipeline.QueuedUnlessFull` | gateway/src/batching/flush.rs:240-279 | an invocation is queued with its plan's requests and payload exactly while the queue has room, and its requests are answered only when it has none |
| `Pipeline.EndedTaskIsReplaced` | gateway/src/batching/mod.rs:264-327 | once an ended task's entry is gone, the next request of its key is accepted by a new task |
| `Pipeline.ConservedAlways` | gateway/src/batching/mod.rs:267-326 | over every interleaving of callers, batching tasks, dispatcher and invocations: each accepted request is in exactly one of channel, open batch, plans, job queue, dispatcher's hand, running job, resolved; and all bounds hold |
| `Pipeline.QuietMeansResolved` | gateway/src/batching/invocation.rs:79-98 | nothing is ever resolved twice, and when nothing is in flight exactly the accepted requests are resolved |
| `ProbeFeedback.ProbesFromTheStart` | gateway/src/batching/scheduler.rs:124-181 | over every run of the pipeline: each probe flushed is in a plan, in a job, silent or has reported once; a task hears no report twice, none before its probe and none but that of the probe that is out; while none is out, none of its probes or reports is anywhere |
| `ProbeFeedback.SilentIff` | gateway/src/batching/flush.rs:124-161 | of the probes flushed exactly those whose request cannot be encoded or does not fit alone stay silent |
| `ProbeFeedback.SilentProbeIsTheLast` | gateway/src/batching/scheduler.rs:167-181 | after a silent probe its task hears no report and flushes no probe in any continuation of the run |
| `ProbeFeedback.OneSilentProbe` | gateway/src/batching/scheduler.rs:167-181 | the concrete run of four steps that ends with a silent probe |
| `Enqueue.BatcherManager.Enqueue` | gateway/src/batching/mod.rs:264-327 | without interference a call is one or two attempts of the pipeline, and fails only when the key's running task has a full channel |
| `Scheduler.BatcherTaskFixed` | gateway/src/batching/scheduler.rs:77-113 | the nested loops do with every schedule of events what the event-by-event specification says; every batch has the configured wait |
| `Scheduler.BatcherTaskDynamic` | gateway/src/batching/scheduler.rs:239-316 | likewise; and every batch waits by the request rate over the last complete intervals before it was opened |
| `Scheduler.CollectDynamic` | gateway/src/batching/scheduler.rs:280-308 | the collecting loop stops exactly when the batch is full, due or cut off, and every arrival is counted |
| `Scheduler.FollowsPartitions` | gateway/src/batching/scheduler.rs:77-316 | for every schedule and all wait policies the flushed batches are the received requests in order, in pieces of at least one and at most the maximal size |
| `ProbeScheduler.ProbeClock.MovePast` | gateway/src/batching/scheduler.rs:161-166 | a due time moves to the least point of its grid after now |
| `ProbeScheduler.ProbeClock.Decide` | gateway/src/batching/scheduler.rs:160-170 | a probe is sent exactly when one is due and none is out; no two fall into the same grid cell |
| `ProbeScheduler.ProbeClock.Hear` | gateway/src/batching/scheduler.rs:138-152 | feedback at any time ends the probe that is out, and a success enters the window of the last successes |
| `ProbeScheduler.WaitNow` | gateway/src/batching/scheduler.rs:184-194 | the wait is that of the smoothed successes in the window, or of the minimum before enough of them are known |
| `ProbeScheduler.FirstBatch` | gateway/src/batching/scheduler.rs:160-232 | a request that opens a batch is sent alone exactly when it is a probe; any other batch waits as the feedback received before it was opened says |
| `ProbeScheduler.BatcherTaskDuration` | gateway/src/batching/scheduler.rs:115-237 | on every schedule, feedback at any time included, the loops do what the event-by-event specification says: which batches, which of them are probes, and how long each waits; no two probes share a grid cell |
| `ProbeScheduler.NextProbeNeedsFeedback` | gateway/src/batching/scheduler.rs:167-181 | on every schedule there is at most one probe more than feedback, and then one is out |
| `ProbeScheduler.OneProbeOut` | gateway/src/batching/scheduler.rs:124-181 | as long as feedback never runs ahead of the probes, a probe is out exactly while one more was sent than heard of, and feedback only comes while its probe is out |
| `ProbeSchedule.OneProbeOutInEveryRun` | gateway/src/batching/scheduler.rs:124-181 | the schedule that any run of the pipeline gives to one of its tasks is such a schedule: a probe is out exactly while one more was sent than heard of, and feedback only comes while its probe is out |
| `ProbeScheduler.UnheardProbeIsTheLast` | gateway/src/batching/scheduler.rs:167-181 | a probe that is not heard of is the task's last, however many requests arrive |
| `WaitPolicy.SmoothedProbeMs` | gateway/src/batching/wait_policy.rs:142-164 | the one-pass loop computes the mean of the positive samples, without least and greatest from three on |
| `WaitPolicy.SmoothedIsRobust` | gateway/src/batching/wait_policy.rs:157-159 | with three or more positive samples the result lies between the second smallest and the second largest |
| `WaitPolicy.WaitMonotone` | gateway/src/batching/wait_policy.rs:175-185 | a wait is monotone in positive probe times |
| `WaitPolicy.WaitIsNearestMs` | gateway/src/batching/wait_policy.rs:166-186 | the wait is the probe time lengthened by the fraction, to the nearest millisecond, halves up, brought into the bounds; the minimum stands for an unusable probe time, and a negative fraction lengthens nothing |
| `WaitPolicy.WaitIsRobust` | gateway/src/batching/wait_policy.rs:142-186 | no single sample moves the wait beyond what the second largest or second smallest sample gives |
| `WaitPolicy.PushToWindow` | gateway/src/batching/wait_policy.rs:136-139 | pushing and dropping keeps exactly the last elements |
| `WaitPolicy.DynamicRateEstimator.Tick` | gateway/src/batching/wait_policy.rs:90-103 | a tick closes an interval with exactly the requests since the last one; every request is counted in one interval |
| `WaitPolicy.MeanWithin` | gateway/src/batching/wait_policy.rs:105-110 | the smoothed rate lies between the least and the greatest rate of the window |
| `P2Invariants.MovedHeightInOrder` | benchmark/src/metrics/p2Quantile.ts:86-98 | an up move never lowers a height, a down move never raises one, and neither passes a neighbour |
| `P2Invariants.InvAlways` | benchmark/src/metrics/p2Quantile.ts:23-100 | after every sequence of at least five observations: positions strictly increase from 1 to the count, heights are sorted, extremes are exact, desired positions are as designed |
| `P2Invariants.EstimateInRange` | benchmark/src/metrics/p2Quantile.ts:102-118 | at every moment the estimate lies between the least and the greatest value seen |
| `P2Affine.AfterAffine` | benchmark/src/metrics/p2Quantile.ts:23-100 | for a > 0 the sketch of a*v+b is the transformed sketch, with the same marker positions |
| `P2Affine.EstimateAffine` | benchmark/src/metrics/p2Quantile.ts:102-118 | for a > 0 the estimate of a*v+b is a*estimate+b, also below five observations |
| `P2Interpolation.ParabolicFollowsCurve` | benchmark/src/metrics/p2Quantile.ts:120-131 | if the marker and its neighbours lie on a parabola, the formula gives that parabola's height d positions further, for every d |
| `P2Interpolation.ThreeMarkersOnCurve` | benchmark/src/metrics/p2Quantile.ts:120-131 | there always is such a parabola |
| `P2Interpolation.ParabolicMeetsNeighbours` | benchmark/src/metrics/p2Quantile.ts:120-131 | a move by the distance to a neighbour gives that neighbour's height |
| `P2Interpolation.LinearFollowsLine` | benchmark/src/metrics/p2Quantile.ts:133-135 | if the marker and the neighbour ahead lie on a line, the fallback gives that line's height at the new position |
| `P2Interpolation.MovedHeightInterpolates` | benchmark/src/metrics/p2Quantile.ts:91-98 | a moved marker's height is the parabola's where that lies strictly between the neighbours, the line's otherwise |
| `P2Interpolation.ExactWhileCollecting` | benchmark/src/metrics/p2Quantile.ts:106-115 | up to four values the estimate is read off the sorted values where the quantile falls, in proportion between two of them |
| `P2Interpolation.SevenByHand` | benchmark/src/metrics/p2Quantile.ts:83-135 | the concrete run of seven observations of a median, 0, 2, 3, 9, 16, 0.5, 0.6, whose estimate is 25/12 |
| `P2Quantile.P2.Add` | benchmark/src/metrics/p2Quantile.ts:23-100 | the in-place update keeps the arrays equal to the specified sketch of everything observed; values that are not finite are ignored |
| `P2Quantile.P2.AdjustMarker` | benchmark/src/metrics/p2Quantile.ts:83-99 | a marker moves by one position or not at all; a moved one gets the height at its new position of the parabola through it and its neighbours if that lies strictly between theirs, of the line to the neighbour ahead otherwise; this is the specified adjustment |
| `P2Quantile.P2.Value` | benchmark/src/metrics/p2Quantile.ts:102-118 | the value is the specified estimate, none exactly before the first observation, and within the range seen |
| `StageWindows.BuildStageWindows` | benchmark/src/metrics/derive.ts:73-98 | windows are contiguous from zero, in stage order, one for exactly the stages with a positive duration, as long as these |
| `StageWindows.FindStageIndex` | benchmark/src/metrics/derive.ts:104-120 | the search loop computes the specified stage |
| `StageWindows.EveryMomentHasOneStage` | benchmark/src/metrics/derive.ts:104-120 | every moment from the start on belongs to exactly one window, whose stage the search returns |
| `CostSource.SourceState.PairPending` | benchmark/src/metrics/deriveCsvStream.ts:346-365 | pairing fronts of the two queues charges exactly the pairs of equal rank |
| `CostSource.SourceState.AddDuration` | benchmark/src/metrics/deriveCsvStream.ts:444-453 | a new duration leaves the totals those of the paired prefix |
| `CostSource.SourceState.AddBatchSize` | benchmark/src/metrics/deriveCsvStream.ts:489-500 | likewise for a batch size |
| `CostSource.SourceState.ChargeLeftovers` | benchmark/src/metrics/deriveCsvStream.ts:522-541 | unpaired durations are charged in full |
| `DurationCost.OnePass` | benchmark/src/metrics/deriveCsvStream.ts:367-541 | the streaming computation returns, for every endpoint and stage, the cost of the metric selected at the end |
| `DurationCost.ElapsedIsDistance` | benchmark/src/metrics/deriveCsvStream.ts:382-400 | a row's moment is its distance from the base time in seconds, to the nearest millisecond, and never negative |
| `DurationCost.WhichIsSelected` | benchmark/src/metrics/deriveCsvStream.ts:242-250 | the target's durations price an endpoint exactly when there are any, and no fewer than the client's |
| `TwoPassCost.CountDurations` | benchmark/src/metrics/derive.ts:128-144 | the first pass counts every selected endpoint's usable durations |
| `TwoPassCost.TwoPass` | benchmark/src/metrics/derive.ts:122-226 | the two-pass computation returns the specified costs, with a total exactly for endpoints that have a duration |
| `CostAgreement.ReadTheSameIff` | benchmark/src/metrics/deriveCsvStream.ts:380-400 | one pass reads the same durations of both metrics and the same batch sizes as two passes if and only if every row that contributes has a positive timestamp and a named endpoint |
| `CostAgreement.PassesAgree` | benchmark/src/metrics/deriveCsvStream.ts:242-250 | then both select the same metric and give the same total, whatever base time each uses; with the same base time the same stage costs |
| `CostAgreement.TimestampsMatter` | benchmark/src/metrics/deriveCsvStream.ts:380-383 | the concrete record without a positive timestamp that only the two-pass form counts |
| `CostAgreement.NamesMatter` | benchmark/src/metrics/deriveCsvStream.ts:392-396 | the concrete record without a named endpoint that only the two-pass form counts |
| `CostAgreement.InterleavingIsIrrelevant` | benchmark/src/metrics/derive.ts:183-208 | two record sequences with the same durations in order and the same other records in order give every endpoint the same cost, whatever base time is used, and the same stage costs for the same base time |
| `CostAgreement.StagesSumToTotal` | benchmark/src/metrics/derive.ts:164-172 | with at least one window, stage costs add up to the total |
| `SliceSampler.BottomIsUnique` | benchmark/src/metrics/deriveCsvStream.ts:85-109 | the multiset of the cap smallest hashes is determined by what was offered |
| `SliceSampler.Offer` | benchmark/src/metrics/deriveCsvStream.ts:92-108 | adding or replacing the worst pick keeps exactly the smallest hashes |
| `SliceSampler.SliceIsASecond` | benchmark/src/metrics/deriveCsvStream.ts:85-90 | a sample belongs to the second of the run it falls into, or to the first if it lies before the start |
| `SliceSampler.SlicesCoverThePlan` | benchmark/src/metrics/deriveCsvStream.ts:73-76 | the planned slices are the least number of seconds that covers the planned time, and at least one |
| `SliceSampler.BatchTimeSliceSampler.Add` | benchmark/src/metrics/deriveCsvStream.ts:85-109 | after every sample each slice keeps the min(cap, n) smallest of the n hashes offered to it, with samples that were offered |
| `SliceSampler.KeptIgnoresOrder` | benchmark/src/metrics/deriveCsvStream.ts:85-109 | what is kept does not depend on the order of arrival |

## Left out

- Elapsed times in response metadata, and logging and metrics emitted on the way.
- Lexing and encoding of JSON, base64, header values and UTF-8: parameters with named assumptions.
- ProxyState.ProxyInner.HandleCompletion: does not model that encoding the record fails after its id was removed (bootstrap/layer-proxy/src/proxy.rs:419), because records of strings and numbers always encode.
- ProxyMachine.ExclusiveFromTheStart: assumes that a handler runs on from one critical section to the next; if a closed connection dropped it in between, a fetch could leave fetching_outer set for good.
- Wake-ups of waiting `/next` calls, fairness of the merge, and every other liveness claim.
- Outer invocation errors posted upstream, header sanitising and the fallback route of the proxy: plumbing around the modelled sections.
- Handlers' body streams that never end; a merge is specified for finite streams.
- The adapter's concurrency is taken as given; that it is the minimum of the configured value and the batch size is not modelled.
- ConcurrentSelect.Select.PollActive: which open stream is ready is arbitrary here; the real select polls for wake-ups and keeps its own order.
- Pipeline.ConservedAlways: a call that finds an ended task and tries again is two attempts, between which anything may happen; Enqueue.BatcherManager.Enqueue shows the call without interference.
- Shutting down: a closed job queue appears in FlushBatch only, a closed semaphore and lost permits nowhere.
- Saturating 64-bit counters, the rounding of floating point, and the sigmoid of the dynamic wait, which is any function of the rate here.
- The hash behind a key's probe offset: any offset is allowed.
- ProbeSchedule.OneProbeOutInEveryRun: takes it from ProbeScheduler.BatcherTaskDuration that a task flushes as probes only requests its schedule makes probes; times and reported values are given from outside, since the pipeline does not carry them.
- Pipeline.StepConserves: a job that is finished answers its requests and reports in one step.
- Scheduler.BatcherTaskFixed: timers are events of the schedule, so that a timer fires neither early nor late is not modelled.
- Scheduler.BatcherTaskDynamic: likewise for its timers; the wait is any function of the smoothed rate.
- Scheduler.CollectDynamic: likewise, the flush timer may fire at any point.
- KhoneEnvelope.ParseOuterBatch: rendering an item back to bytes always succeeds.
- Stage costs of the two statistics when the first record's time is not the batch's base time: they differ by construction.
- Statistics values that are not finite, reservoir sampling, and ordering and deduplication when samples are collected.
- SliceSampler.BatchTimeSliceSampler.Add: the hash of a sample is any function; FNV-1a over its text is not modelled.
- Route matching, configuration parsing, HTTP and AWS plumbing, charts and reports: no hard properties of their own.
