# String-art GPU frontend: router, job polling and session handlers

This project models the frontend of a string-art generator that runs its GPU
work on one of two backends. One is a "Home" GPU worker, reached synchronously.
The other is a RunPod serverless endpoint, which takes a job and is then polled
for its status. The model has three parts:

- `Router` (`gpu_router.dfy`) is the `GPURouter` class. Its health probe sets
  the availability flag and the time of the last check. For each preprocessing
  or generation request it tries Home only when a Home URL is configured and a
  fresh probe reports the GPU available and not busy. On any Home failure it
  submits to RunPod. It keeps request and failure counters and reports success
  rates from them. The HTTP requests are inputs: the probe outcome, the Home
  call outcome and the RunPod submission outcome. A ghost trace `calls` records
  the requests the router makes.
- `RouterApp` (`app_with_router.dfy`) is the pair of Socket.IO handlers of the
  frontend that uses the router: `preprocess_image` and `start_generation`.
  Each checks the RunPod credentials and asks the router. It either reports a
  Home result at once, rejects a RunPod reply that has no job id, or polls the
  RunPod job with an adaptive sleep schedule under a wall-clock ceiling: 60 for
  preprocessing, 300 for generation.
- `DirectApp` (`app.py`'s model, in `app.dfy`) is the `start_generation`
  handler of the frontend that talks to RunPod directly. It checks the
  submission, then polls every 2 time units with the timeout checked after the
  status branch.

Shared pieces:

- `Json` gives decoded JSON values and the Python dict, list and string
  operations the handlers use: `.get`, `[]` and `in`. Where Python raises, the
  model gives `None`.
- `Socket` gives the emitted events. `status` messages are an enumeration, with
  wording and emoji dropped. A handler's emits are a log, a `seq<Event>`; where
  the recipient matters they are `Emit(event, Session | Broadcast)`.
- `RunPodApi` gives the credentials check, the status-request replies, the
  status classification and the two-layer success check on a COMPLETED job.

### How time is modelled

A polling loop's remote side and clock come from a `JobFeed`. It holds three
functions of the poll number k:
- the reply to the k-th status request;
- the elapsed-time reading the loop takes for that poll;
- the time since submission, read when the job is reported completed.

`socketio.sleep(d)` sleeps at least `d`, so each loop requires the feed to be
"paced": the reading at poll k is at least the sum of the sleeps before it.
This pacing is what bounds every loop:
- at most 168 router-generation polls;
- at most 43 preprocessing polls;
- at most 151 direct-generation polls.

Each loop is a method with a `while` loop, proved against a specification
function of the feed. The function is the log of the first n polls and the
facts that the loop went on through them and stopped at the n-th. Lemmas about
those functions state what the log means.

## Model

| member | source | states |
|---|---|---|
| Json.Get | gpu_router.py:77-78 | `v.get(k, default)` succeeds exactly when `v` is a dict; on anything else Python raises |
| Json.Index | app_with_router.py:265 | `d[k]` is defined exactly on dicts holding `k` |
| Json.Contains | app_with_router.py:258 | `k in v` on a dict is key membership; it raises exactly on null, booleans and numbers (lists and strings answer by element and substring) |
| RunPodApi.ConfiguredIsTruthiness | app_with_router.py:113 | the credentials are configured exactly when neither `RUNPOD_API_KEY` nor `RUNPOD_ENDPOINT_ID` is falsy in Python, that is, both are set and non-empty |
| RunPodApi.StatusOf | app_with_router.py:301 | the status is read exactly when the body is a dict; IN_QUEUE, IN_PROGRESS, COMPLETED and FAILED are each classified as such exactly when that string is the body's `status` |
| RunPodApi.CompletedOutcome | app_with_router.py:323-333 | a completed job succeeded iff its output is a dict whose `status` is "success", and then the output is kept; otherwise the error is the output's `message` or "Unknown GPU error"; a non-dict output raises |
| RunPodApi.FailureMessage | app_with_router.py:339 | a FAILED job's message is defined exactly on dict outputs: the output's `message` when it has one, "Unknown GPU error" otherwise |
| Router.SuccessRate | gpu_router.py:262-274 | 0 with no requests; otherwise rate·requests = (requests − failures)·100; within [0, 100] when failures ≤ requests; 100 with no failures |
| Router.TrimTrailingSlashes | gpu_router.py:34 | `rstrip('/')`: the result is a prefix of the input, the rest is all slashes, and the result does not end in a slash |
| Router.SlashTrimmedUnique | gpu_router.py:34 | that characterisation determines the trimmed string uniquely |
| Router.NormalizeHomeUrl | gpu_router.py:34 | the stored Home URL is None exactly when the input is None or empty, otherwise the input with its trailing slashes removed |
| Router.SlashOnlyUrlIsKeptEmpty | gpu_router.py:34 | a URL made only of slashes is stored as "", not None |
| Router.GpuRouter.constructor | gpu_router.py:16-51 | normalised Home URL, the other settings as given, GPU unavailable, no health check yet, all counters 0 |
| Router.GpuRouter.CheckHomeGpuHealth | gpu_router.py:58-100 | true iff a URL is configured and the probe gives 200 with `gpu_available` truthy and `gpu_busy` not; with no URL nothing is probed or changed; otherwise the flag becomes the verdict, the check is stamped only when a 200 body was read, a probe is recorded and the counters are unchanged |
| Router.GpuRouter.RunOnHome | gpu_router.py:122-149 | the Home result is the decoded body of a 200 reply; 503, other codes, decoding failures and exceptions fail; one Home request is counted, plus one Home failure on failure |
| Router.GpuRouter.SubmitToRunPod | gpu_router.py:151-180 | the RunPod body is handed back with provider runpod whatever its content, or the exception; one RunPod request is counted |
| Router.GpuRouter.Route | gpu_router.py:102-120 | total requests +1; Home is tried only when configured and healthy in this call; the provider is Home only when the Home call returned 200 with a body; a Home failure counts one failure, clears the flag and submits to RunPod without retrying Home; the requests made, in order; keeps the counter invariant |
| Router.GpuRouter.Preprocess | gpu_router.py:102-120 | `Route` with the preprocess endpoint |
| Router.GpuRouter.Generate | gpu_router.py:182-200 | `Route` with the generate endpoint |
| Router.GpuRouter.GetStats | gpu_router.py:260-283 | the counters, the flag and the last check as held; Home enabled iff a URL is stored; each rate is the success rate of the held counters of its provider; Home rate 0 with no requests and within [0, 100] under the invariant; RunPod rate 100 once any RunPod request is made, since RunPod failures are never counted |
| RouterApp.GenerationPollInterval | app_with_router.py:287-293 | the generation sleep is 0.5 for the first 10 polls, 1.0 up to the 30th, then 2.0 |
| RouterApp.GenerationSleepTotal | app_with_router.py:287-296 | the time slept before n polls lies between 0.5·n and 2·n |
| RouterApp.GenerationSleepTotalClosedForm | app_with_router.py:287-296 | closed form of the sleeps before n polls: 0.5·n, then 5 + (n − 10), then 25 + 2·(n − 30) |
| RouterApp.GenerationProgress | app_with_router.py:314 | `min(15 + 2·elapsed, 90)`: at most 90 and at most 15 + 2·elapsed, equal to one of the two, and at least 15 for elapsed ≥ 0 |
| RouterApp.TaggedOutput | app_with_router.py:326-328 | the output gains total_time = the time since submission, poll_count = the poll number and provider = runpod, and keeps every other key |
| RouterApp.GenerationPoll | app_with_router.py:298-351 | a final_sequence is emitted exactly when the pass delivers; a delivered pass saw COMPLETED with output status "success" and sends the output with provider runpod and the poll count; an error pass after COMPLETED reports the output's message, a remote failure reports the FAILED message; the loop goes on only for IN_QUEUE, IN_PROGRESS or another status read at elapsed ≤ 300, and times out only for such a status read after 300; progress values lie in [10, 100]; the converse, reply by reply, is GenerationPollEnds and GenerationPollOngoing |
| RouterApp.GenerationPollEnds | app_with_router.py:317-351 | by reply: a raise or a body that is not a dict is the status-check failure; COMPLETED reports "complete" and progress 100, then is delivered when the output's `status` is "success", a GPU error when the output is another dict, and the status-check failure when the output is not a dict; FAILED with a dict output is a remote failure, otherwise the status-check failure |
| RouterApp.GenerationPollOngoing | app_with_router.py:308-346 | for IN_QUEUE, IN_PROGRESS and any other status: the loop times out exactly when more than 300 have elapsed, goes on exactly otherwise, and the pass ends with the timeout notice exactly then; IN_QUEUE emits exactly "queued" and progress 10, IN_PROGRESS exactly "generating" and its computed progress, another status nothing, each followed by the timeout notice exactly when more than 300 have elapsed |
| RouterApp.GenerationLogFinal | app_with_router.py:287-351 | the polling log holds a final_sequence iff the poll that stopped the loop delivered one |
| RouterApp.GenerationLogProgress | app_with_router.py:308-321 | every progress value sent while polling lies in [10, 100] |
| RouterApp.GenerationPacedElapsed | app_with_router.py:295-302 | elapsed readings of a paced loop are non-negative |
| RouterApp.GenerationLogEnd | app_with_router.py:287-351 | for a loop stopped at poll n: final_sequence iff delivered, and then it is the last event, tagged runpod with poll_count n; timed out only after 300; progress within [10, 100] |
| RouterApp.GenerationRoomForMore | app_with_router.py:287-346 | a poll that lets the loop go on was read at most 300 after its sleeps, so it is among the first 167 and at most 168 polls are made |
| RouterApp.GenerationPollOnce | app_with_router.py:298-351 | one pass of the loop's `try` computes exactly the step of `GenerationPoll` |
| RouterApp.PollGeneration | app_with_router.py:283-351 | the loop makes between 1 and 168 polls, sleeps by the schedule, stops at the first poll that ends it with none after, and its log is that of those polls |
| RouterApp.PreprocessPollInterval | app_with_router.py:167-172 | the preprocessing sleep is 0.5 for the first 10 polls, 1.0 up to the 20th, then 2.0 |
| RouterApp.PreprocessSleepTotal | app_with_router.py:166-175 | the time slept before n polls lies between 0.5·n and 2·n |
| RouterApp.PreprocessSleepTotalClosedForm | app_with_router.py:166-175 | closed form of the sleeps before n polls: 0.5·n, then 5 + (n − 10), then 15 + 2·(n − 20) |
| RouterApp.PreprocessRoomForPoll | app_with_router.py:166 | the guard `elapsed < 60` admits only the first 43 polls |
| RouterApp.PreprocessPoll | app_with_router.py:177-202 | one preprocessing poll never itself times out |
| RouterApp.PreprocessPollMeaning | app_with_router.py:177-202 | preprocessing_complete, tagged runpod with the time since submission and `cached: False`, is emitted iff the job is COMPLETED with output status "success"; a COMPLETED job whose outcome is not a success and a FAILED job report the image loaded; a raise emits nothing of its own; the loop goes on exactly for the other statuses, silently; the converse for terminal replies is PreprocessPollEnds |
| RouterApp.PreprocessPollEnds | app_with_router.py:177-203 | by reply: a raise or a body that is not a dict leaves the loop for the handler's `except`; COMPLETED is ready when the output's `status` is "success", an error when the output is another dict, and a raise when it is not a dict; FAILED ends the loop as a failed job |
| RouterApp.PreprocessAdvance | app_with_router.py:166-203 | a poll started before 60 after polls that let the loop go on adds its events to the log, and either lets the loop go on or ends it with its own end |
| RouterApp.PreprocessLogQuiet | app_with_router.py:166-206 | polls that let the loop go on emit nothing |
| RouterApp.PreprocessLoopOutcome | app_with_router.py:166-206 | the loop and the timeout notice after it emit the ready notice and preprocessing_complete iff the job succeeded; for a polling exception the loop's log is empty, and the handler's `except` adds the "image loaded" (see ProcessAndPollPreprocessing); otherwise exactly one "image loaded": completed with an error, failed, or timed out |
| RouterApp.PreprocessPollOnce | app_with_router.py:177-202 | one pass of the loop body computes exactly the step of `PreprocessPoll` |
| RouterApp.PollPreprocessing | app_with_router.py:163-206 | at most 43 polls, sleeping by the schedule; the loop ends at the first COMPLETED, FAILED or raise, or when the guard reads 60 or more, with no poll after; its log is that of those polls |
| RouterApp.HomeTagged | app_with_router.py:252-253 | the Home result gains total_time and provider = home and keeps every other key |
| RouterApp.Rejection | app_with_router.py:258-263 | a RunPod reply without an id is reported as a GPU server error carrying the body's `error` (or None) exactly when it is a dict; otherwise the notice is the submit failure, since the `in` test or the `.get` raises |
| RouterApp.ImmediateGenerationAnswer | app_with_router.py:243-274 | with no polling: a Home dict result gives "complete", progress 100 and the Home-tagged final_sequence; a Home result that is not a dict, or a raise, ends in the submit failure; a RunPod reply without an id gives exactly its `Rejection` notice; no final_sequence otherwise |
| RouterApp.QueueAndPollGeneration | app_with_router.py:265-351 | a queued job gives "queued" and progress 5, then the polling log; final_sequence iff the job was delivered; progress within [5, 100] |
| RouterApp.AnswerGeneration | app_with_router.py:243-351 | polling starts iff the router chose RunPod and the reply has an id; otherwise the immediate answer; final_sequence iff delivered; progress within [5, 100] |
| RouterApp.HandleStartGeneration | app_with_router.py:220-351 | "starting" first; without credentials a config error and the router untouched; otherwise the router's whole effect for a generate call, then the answer above |
| RouterApp.CachedFlag | app_with_router.py:131 | `cached` is the result's own `cached` value when it has one, and False when absent |
| RouterApp.ImmediatePreprocessAnswer | app_with_router.py:128-149 | with no polling: a Home dict result gives the ready notice and preprocessing_complete tagged home with the Home time and `cached`; anything else gives exactly "image loaded" |
| RouterApp.ProcessAndPollPreprocessing | app_with_router.py:151-210 | "processing on RunPod", then the ready notice and preprocessing_complete iff the job succeeded, and otherwise exactly one "image loaded" |
| RouterApp.AnswerPreprocess | app_with_router.py:128-210 | polling starts iff the router chose RunPod and the reply has an id; preprocessing_complete iff the job succeeded; the last event is either "image loaded" or preprocessing_complete |
| RouterApp.HandlePreprocess | app_with_router.py:104-210 | "pre-processing" first; without credentials "image loaded" and the router untouched; otherwise the router's whole effect for a preprocess call, then the answer above; the handler always ends with "image loaded" or preprocessing_complete |
| DirectApp.Admit | app.py:132-151 | a job is admitted iff the status is 200 and the body is a dict holding `id`, whose value is the job id; refused with the body's `error` iff the body is a dict and the status is not 200 or `id` is missing; any other reply (exception, undecodable or non-dict body) is a connection error |
| DirectApp.DirectProgress | app.py:175 | `min(15 + 1.5·elapsed, 90)`: the smaller of the two |
| DirectApp.DirectPoll | app.py:157-209 | after one pass the loop goes on exactly when the status is read from a dict, is not COMPLETED or FAILED, and at most 300 have elapsed |
| DirectApp.DirectPollEnds | app.py:178-209 | by reply: a raise or a body that is not a dict is the status-check failure; COMPLETED reports "complete" and progress 100, then is delivered when the output's `status` is "success", a GPU error when the output is another dict, and the status-check failure when it is not a dict; FAILED with a dict output reports exactly its message and is a remote failure, otherwise the status-check failure |
| DirectApp.DirectPollOngoing | app.py:167-204 | for IN_QUEUE, IN_PROGRESS and any other status the pass ends with the timeout notice exactly when more than 300 have elapsed; IN_QUEUE emits exactly "in queue" and progress 10, IN_PROGRESS exactly "generating" and its computed progress, another status nothing, each followed by the timeout notice exactly when more than 300 have elapsed |
| DirectApp.DirectPollMeaning | app.py:156-209 | a final_sequence, the output unchanged, is emitted iff the status is COMPLETED with output status "success"; COMPLETED otherwise reports the message; FAILED reports its message; a polling error ends in the status-check error; a COMPLETED job is reported as such even after 300, with no timeout; the loop goes on iff another status is read at elapsed ≤ 300; progress within [10, 100]; the converse for the other replies is DirectPollEnds |
| DirectApp.DirectLogFinal | app.py:156-209 | the polling log holds a final_sequence iff the poll that stopped the loop delivered one |
| DirectApp.DirectLogProgress | app.py:167-181 | every progress value sent while polling lies in [10, 100] |
| DirectApp.DirectRoomForMore | app.py:156-204 | a poll that lets the loop go on was read at most 300 after its 2-unit sleeps, so it is among the first 150 and at most 151 polls are made |
| DirectApp.DirectLogEnd | app.py:156-209 | for a loop stopped at poll n: final_sequence iff delivered; timed out only after 300; progress within [10, 100] |
| DirectApp.DirectStopIsUnique | app.py:156-209 | a loop stops at one poll only |
| DirectApp.DirectGoesOnEarlier | app.py:156-209 | a loop that went on through n polls went on through each earlier one |
| DirectApp.DirectPollOnce | app.py:157-209 | one pass of the loop's `try` computes exactly the step of `DirectPoll` |
| DirectApp.PollDirect | app.py:153-209 | between 1 and 151 polls, each after a 2-unit sleep; the loop stops at the first poll that ends it, with none after; its log is that of those polls |
| DirectApp.QueueAndPollDirect | app.py:144-209 | an admitted job gives "queued" and progress 5, then the polling log; final_sequence iff delivered; progress within [5, 100] |
| DirectApp.StartGeneration | app.py:99-209 | "sending" first, to the session; without credentials a config error; a refusal reports the body's error; a connection error reports it; all with no polling; an admitted job polls, and what it sends from then on is the log above |
| DirectApp.HandleStartGeneration | app.py:99-209 | the handler as written: "sending" first, then to the session exactly the config error without credentials, the GPU server error carrying the body's `error` for a refusal, or the connection error for a failed post; for an admitted job everything from "queued" on is broadcast, so a delivered final_sequence reaches every client |
| DirectApp.HandleStartGenerationForSession | app.py:99-209 | the same handler with every emit addressed to the session: the same config error, refusal or connection error with no polling, otherwise "queued", progress 5 and the polling log, with a delivered final_sequence among them |
| DirectApp.SampleResultIsBroadcast | app.py:184-187 | a concrete admitted job whose first poll delivers its result: the inputs on which the as-written handler broadcasts a final_sequence |

Two behaviours of the code that the model keeps:
- The health check's time stamp is set only when a 200 reply with a JSON object
  was read (gpu_router.py:74-80). A failed probe leaves it as it was.
- RunPod failures are never counted (gpu_router.py:151-180), so the RunPod
  success rate is 100 as soon as a RunPod request has been made.

## Left out

- HTTP requests, JSON decoding and request timeouts are inputs (`ProbeOutcome`,
  `HomeOutcome`, `SubmitOutcome`, `Submission`, `PollReply`). The request
  payloads (image data, parameters, headers) are not modelled, and neither are
  the `KeyError`s that `data['imageData']` or `data['params'][...]` would raise
  on a malformed request.
- Socket.IO transport, Flask routes and eventlet: an emit is an appended event.
  Message wording, emoji and exception texts are not kept.
- `download_template`, `wake_gpu`, `cancel_generation`, `connect`/`disconnect`,
  `gpu-stats` routing, `index` and the `__main__` banners are not modelled. They
  are placeholders, stubs, fire-and-forget calls or start-up code.
- Logging and `print` are not modelled, including the `last_status` change log.
- `datetime.now()` and `time.time()` are parameters: a `Timestamp` for the
  health check, the `JobFeed` readings for the loops, and `homeTime` for a Home
  result. `socketio.sleep` is modelled by its duration and the pacing
  requirement.
- Concurrency between sessions sharing the router's counters is not modelled.
- Floating point is modelled as `real`.
- `generate_stream`, a streaming relay, is not part of this model.
- Router.GpuRouter.CheckHomeGpuHealth: `home_gpu_available` is stored as a
  bool. Python stores the raw value of `gpu_available and not gpu_busy`, which
  may be a non-boolean JSON value with the same truthiness.
- DirectApp.DirectPoll: app.py reads the clock twice in an IN_PROGRESS pass,
  for the progress and for the timeout check. The model uses one reading per
  poll for both.
- RouterApp.PollPreprocessing, RouterApp.PollGeneration and
  DirectApp.PollDirect also return the time slept. That value is part of the
  model, not something the source reports.
- RouterApp.PollGeneration, RouterApp.PollPreprocessing, DirectApp.PollDirect:
  termination and the poll bounds (168, 43, 151) are proved only for paced
  feeds. A `time.time()` that steps backwards, or a sleep that returns early,
  would let the Python loops poll more often; the model does not cover that.
- RouterApp.AnswerPreprocess and RouterApp.HandlePreprocess: for the RunPod
  path they state how the loop ended and whether preprocessing_complete was
  sent. The exact events are stated one level down, by
  RouterApp.ProcessAndPollPreprocessing.
- The ghost `calls` trace records which requests the router makes. It does not
  record their payloads.

## Findings

| source | as written | input that shows it | evidently intended | confidence | as-written member | corrected member |
|---|---|---|---|---|---|---|
| app.py:144-145, 168-208 | everything from "job queued" on, including `final_sequence`, is emitted without `to=sid`, so Socket.IO broadcasts it to every connected client | any admitted job whose first poll reports COMPLETED with output status "success" (`DirectApp.SampleFeed`, `DirectApp.SampleSubmission`) | every message of one generation goes to the session that asked for it, as the earlier messages of the same handler (app.py:110-149) and the router frontend (app_with_router.py:268-351) do | not executed; medium | DirectApp.HandleStartGeneration | DirectApp.HandleStartGenerationForSession |
