/**
 * The parts of RunPod's serverless job API that both frontends read the same way:
 * the credentials check, the reply to a status request, the status classification
 * and the two-layer success check on a completed job's output.
 */
module RunPodApi {
  import opened Wrappers
  import opened Json
  import opened Socket

  /** RUNPOD_API_KEY and RUNPOD_ENDPOINT_ID, each unset or a string. */
  datatype Env = Env(apiKey: Option<string>, endpointId: Option<string>)

  /** An environment variable as Python sees it: unset is None, set is a string. */
  function EnvValue(v: Option<string>): Value {
    if v.Some? then Str(v.value) else Null
  }

  /** Both variables are set and non-empty. */
  predicate Configured(env: Env) {
    env.apiKey.Some? && env.apiKey.value != "" && env.endpointId.Some? && env.endpointId.value != ""
  }

  /** Configured is the guard `not RUNPOD_API_KEY or not RUNPOD_ENDPOINT_ID` being false. */
  lemma ConfiguredIsTruthiness(env: Env)
    ensures Configured(env) <==> Truthy(EnvValue(env.apiKey)) && Truthy(EnvValue(env.endpointId))
  {
  }

  /** One status request: the GET or the JSON decoding raised, or the decoded body. */
  datatype PollReply = PollRaised | PollBody(body: Value)

  /**
   * The remote side and the clock over one job, indexed by poll number from 0: the
   * reply to each status request, the elapsed-time reading the loop takes for that
   * poll, and the time since submission read when the job is reported completed.
   */
  datatype JobFeed = JobFeed(replies: nat -> PollReply, elapsed: nat -> real, sinceSubmit: nat -> real)

  datatype JobStatus = InQueue | InProgress | Completed | Failed | Unrecognised

  /** The value is a dict whose `status` is the string `name`. */
  predicate Reports(body: Value, name: string) {
    body.Obj? && "status" in body.fields && body.fields["status"] == Str(name)
  }

  /** `poll_json.get('status')` compared against the four strings RunPod reports. */
  function StatusOf(body: Value): (r: Option<JobStatus>)
    ensures r.Some? <==> body.Obj?
    ensures r == Some(InQueue) <==> Reports(body, "IN_QUEUE")
    ensures r == Some(InProgress) <==> Reports(body, "IN_PROGRESS")
    ensures r == Some(Completed) <==> Reports(body, "COMPLETED")
    ensures r == Some(Failed) <==> Reports(body, "FAILED")
  {
    match Get(body, "status", Null)
    case None => None
    case Some(s) =>
      Some(if s == Str("IN_QUEUE") then InQueue
           else if s == Str("IN_PROGRESS") then InProgress
           else if s == Str("COMPLETED") then Completed
           else if s == Str("FAILED") then Failed
           else Unrecognised)
  }

  /** `poll_json.get('output', {})`. */
  function OutputOf(body: Value): Value
    requires body.Obj?
  {
    if "output" in body.fields then body.fields["output"] else Obj(map[])
  }

  const UnknownGpuError: Value := Str("Unknown GPU error")

  /** What a job that RunPod reports COMPLETED actually produced. */
  datatype Outcome = Succeeded(output: map<string, Value>) | NotSucceeded(message: Value)

  /**
   * The second layer of the success check: a completed job succeeded only if its
   * output says `status: success`; otherwise the error is the output's `message`,
   * or a fixed default. None where Python raises: the output is not a dict.
   */
  function CompletedOutcome(output: Value): (r: Option<Outcome>)
    ensures r.Some? <==> output.Obj?
    ensures (r.Some? && r.value.Succeeded?) <==>
            output.Obj? && "status" in output.fields && output.fields["status"] == Str("success")
    ensures r.Some? && r.value.Succeeded? ==> r.value.output == output.fields
    ensures r.Some? && r.value.NotSucceeded? ==>
            r.value.message == (if "message" in output.fields then output.fields["message"] else UnknownGpuError)
  {
    match Get(output, "status", Null)
    case None => None
    case Some(s) =>
      if s == Str("success") then Some(Succeeded(output.fields))
      else Some(NotSucceeded(Get(output, "message", UnknownGpuError).value))
  }

  /** `output.get('message', 'Unknown GPU error')`, as read for a FAILED job. */
  function FailureMessage(output: Value): (r: Option<Value>)
    ensures r.Some? <==> output.Obj?
    ensures output.Obj? && "message" in output.fields ==> r == Some(output.fields["message"])
    ensures output.Obj? && "message" !in output.fields ==> r == Some(UnknownGpuError)
  {
    Get(output, "message", UnknownGpuError)
  }

  /** How a generation polling loop ended. */
  datatype JobEnd = Delivered | CompletedWithError | RemoteFailed | TimedOut | PollError

  /** The events one poll emits, and whether the loop stops after it. */
  datatype JobStep = JobStep(events: seq<Event>, stop: Option<JobEnd>)

  /** The status request answered with a dict that StatusOf classifies as `status`. */
  predicate ReportsStatus(reply: PollReply, status: JobStatus) {
    reply.PollBody? && StatusOf(reply.body) == Some(status)
  }

  /** The status was read and is not one that ends a loop by itself. */
  predicate NonTerminal(reply: PollReply) {
    reply.PollBody? && StatusOf(reply.body).Some? && StatusOf(reply.body).value in {InQueue, InProgress, Unrecognised}
  }
}
