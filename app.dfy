/**
 * The Socket.IO generation handler of the frontend that talks to RunPod directly:
 * it checks the credentials, submits the job, and polls its status every two
 * seconds until the job ends, the time is up, or polling fails.
 *
 * The handler sends the opening messages and the submission errors to the requesting
 * session, but everything from "job queued" on, the final sequence included, without
 * a recipient, which Socket.IO delivers to every connected client. `HandleStartGeneration`
 * keeps that behaviour; `HandleStartGenerationForSession` is the handler with every
 * message sent to the session.
 */
module DirectApp {
  import opened Wrappers
  import opened Json
  import opened Socket
  import opened RunPodApi

  // ---------------------------------------------------------------------------
  // Submission

  /** The POST to the run URL: it raised, or it answered with a status code and a body that decoded or did not. */
  datatype Submission = PostRaised | PostReply(status: int, body: Option<Value>)

  /** How the submission was judged: a job id, a refusal with the body's error, or an exception. */
  datatype Admission = Admitted(jobId: Value) | Refused(error: Value) | SubmitError

  /** `response_json.get("error")`, reported as a refusal; it raises unless the body is a dict. */
  function Refusal(json: Value): Admission {
    match Get(json, "error", Null)
    case None => SubmitError
    case Some(error) => Refused(error)
  }

  /**
   * `status_code != 200 or "id" not in response_json`, then `response_json['id']`. Only a
   * dict body can be admitted or refused: any other body makes one of `in`, `.get` or `[]` raise.
   */
  function Admit(sub: Submission): (a: Admission)
    ensures a.Admitted? <==>
            sub.PostReply? && sub.status == 200 && sub.body.Some? && sub.body.value.Obj?
            && "id" in sub.body.value.fields
    ensures a.Admitted? ==> a.jobId == sub.body.value.fields["id"]
    ensures a.Refused? <==>
            sub.PostReply? && sub.body.Some? && sub.body.value.Obj?
            && (sub.status != 200 || "id" !in sub.body.value.fields)
    ensures a.Refused? ==>
            a.error == (if "error" in sub.body.value.fields then sub.body.value.fields["error"] else Null)
    ensures a == SubmitError <==> sub.PostRaised? || sub.body.None? || !sub.body.value.Obj?
  {
    match sub
    case PostRaised => SubmitError
    case PostReply(status, body) =>
      match body
      case None => SubmitError
      case Some(json) =>
        if status != 200 then Refusal(json)
        else
          match Contains(json, "id")
          case None => SubmitError
          case Some(false) => Refusal(json)
          case Some(true) =>
            (match Index(json, "id")
             case None => SubmitError
             case Some(id) => Admitted(id))
  }

  // ---------------------------------------------------------------------------
  // Polling

  const DirectCeiling: real := 300.0

  /** Every poll is preceded by a sleep of this length. */
  const DirectPollInterval: real := 2.0

  /** A poll that lets the loop go on read at most 300 after at least 2·(k+1): so k < 150, and at most 151 polls are made. */
  const DirectMaxPolls: nat := 151

  /** A sleep lasts at least as long as asked: the reading after poll k follows its k+1 sleeps. */
  ghost predicate DirectPaced(feed: JobFeed) {
    forall k: nat :: feed.elapsed(k) >= DirectPollInterval * (k + 1) as real
  }

  /** `min(15 + elapsed * 1.5, 90)`. */
  function DirectProgress(elapsed: real): (percent: real)
    ensures percent <= 90.0 && percent <= 15.0 + 1.5 * elapsed
    ensures percent == 90.0 || percent == 15.0 + 1.5 * elapsed
  {
    if 15.0 + elapsed * 1.5 < 90.0 then 15.0 + elapsed * 1.5 else 90.0
  }

  /** What the timeout check emits: the timeout notice once more than the ceiling has elapsed. */
  function DirectTimeoutNotice(elapsed: real): seq<Event> {
    if elapsed > DirectCeiling then [Status(JobTimedOut)] else []
  }

  /** The timeout check at the end of a pass whose status did not end the loop. */
  function DirectCeilingCheck(events: seq<Event>, elapsed: real): JobStep {
    if elapsed > DirectCeiling then JobStep(events + [Status(JobTimedOut)], Some(TimedOut))
    else JobStep(events, None)
  }

  /** One pass of the loop after its sleep: the status request and what it reports. */
  function DirectPoll(reply: PollReply, elapsed: real): (s: JobStep)
    ensures s.stop.None? <==> NonTerminal(reply) && elapsed <= DirectCeiling
  {
    match reply
    case PollRaised => JobStep([Status(StatusCheckFailed)], Some(PollError))
    case PollBody(body) =>
      match StatusOf(body)
      case None => JobStep([Status(StatusCheckFailed)], Some(PollError))
      case Some(status) =>
        match status
        case InQueue => DirectCeilingCheck([Status(JobInQueue), Progress(10.0)], elapsed)
        case InProgress => DirectCeilingCheck([Status(GeneratingOnGpu), Progress(DirectProgress(elapsed))], elapsed)
        case Unrecognised => DirectCeilingCheck([], elapsed)
        case Completed =>
          var done := [Status(GenerationCompleteSending), Progress(100.0)];
          (match CompletedOutcome(OutputOf(body))
           case None => JobStep(done + [Status(StatusCheckFailed)], Some(PollError))
           case Some(Succeeded(output)) => JobStep(done + [FinalSequence(output)], Some(Delivered))
           case Some(NotSucceeded(message)) => JobStep(done + [Status(GpuError(message))], Some(CompletedWithError)))
        case Failed =>
          (match FailureMessage(OutputOf(body))
           case None => JobStep([Status(StatusCheckFailed)], Some(PollError))
           case Some(message) => JobStep([Status(GpuError(message))], Some(RemoteFailed)))
  }

  /** What one pass reports, by how it ends. */
  lemma DirectPollMeaning(reply: PollReply, elapsed: real, s: JobStep)
    requires s == DirectPoll(reply, elapsed)
    ensures HasFinalSequence(s.events) <==> s.stop == Some(Delivered)
    ensures s.stop == Some(Delivered) ==>
              && reply.PollBody? && StatusOf(reply.body) == Some(Completed)
              && OutputOf(reply.body).Obj? && "status" in OutputOf(reply.body).fields
              && OutputOf(reply.body).fields["status"] == Str("success")
              && s.events == [Status(GenerationCompleteSending), Progress(100.0),
                              FinalSequence(OutputOf(reply.body).fields)]
    ensures s.stop == Some(CompletedWithError) ==>
              && reply.PollBody? && StatusOf(reply.body) == Some(Completed)
              && CompletedOutcome(OutputOf(reply.body)).Some?
              && CompletedOutcome(OutputOf(reply.body)).value.NotSucceeded?
              && s.events == [Status(GenerationCompleteSending), Progress(100.0),
                              Status(GpuError(CompletedOutcome(OutputOf(reply.body)).value.message))]
    ensures s.stop == Some(RemoteFailed) ==>
              && reply.PollBody? && StatusOf(reply.body) == Some(Failed)
              && FailureMessage(OutputOf(reply.body)).Some?
              && s.events == [Status(GpuError(FailureMessage(OutputOf(reply.body)).value))]
    ensures s.stop == Some(PollError) ==> |s.events| >= 1 && s.events[|s.events| - 1] == Status(StatusCheckFailed)
    // a COMPLETED job is reported as such however late it is seen: the clock is read after the status branch
    ensures reply.PollBody? && StatusOf(reply.body) == Some(Completed) && OutputOf(reply.body).Obj? ==>
              s.stop in {Some(Delivered), Some(CompletedWithError)} && Status(JobTimedOut) !in s.events
    ensures s.stop.None? || s.stop == Some(TimedOut) ==> NonTerminal(reply)
    ensures NonTerminal(reply) ==>
              && (s.stop == Some(TimedOut) <==> elapsed > DirectCeiling)
              && (s.stop.None? <==> elapsed <= DirectCeiling)
    ensures elapsed >= 0.0 ==> ProgressWithin(s.events, 10.0, 100.0)
  {
    if s.stop == Some(Delivered) {
      assert s.events[2].FinalSequence?;
    }
  }

  /**
   * How a pass ends, by what the status request returned: a COMPLETED job is delivered
   * when its output says success and reported as a GPU error otherwise, a FAILED job is
   * reported with its message, and a raise, a body that is not a dict or an output that
   * is not a dict is the status-check failure.
   */
  lemma DirectPollEnds(reply: PollReply, elapsed: real, s: JobStep)
    requires s == DirectPoll(reply, elapsed)
    ensures !reply.PollBody? || StatusOf(reply.body).None? ==>
              s == JobStep([Status(StatusCheckFailed)], Some(PollError))
    ensures ReportsStatus(reply, Completed) ==>
              |s.events| == 3 && s.events[..2] == [Status(GenerationCompleteSending), Progress(100.0)]
    ensures ReportsStatus(reply, Completed) && Reports(OutputOf(reply.body), "success") ==>
              s.stop == Some(Delivered)
    ensures ReportsStatus(reply, Completed) && OutputOf(reply.body).Obj? && !Reports(OutputOf(reply.body), "success") ==>
              s.stop == Some(CompletedWithError)
    ensures ReportsStatus(reply, Completed) && !OutputOf(reply.body).Obj? ==>
              s.events[2] == Status(StatusCheckFailed) && s.stop == Some(PollError)
    ensures ReportsStatus(reply, Failed) && OutputOf(reply.body).Obj? ==>
              s == JobStep([Status(GpuError(FailureMessage(OutputOf(reply.body)).value))], Some(RemoteFailed))
    ensures ReportsStatus(reply, Failed) && !OutputOf(reply.body).Obj? ==>
              s == JobStep([Status(StatusCheckFailed)], Some(PollError))
  {
  }

  /**
   * A status that does not end the job: IN_QUEUE and IN_PROGRESS report themselves with
   * their progress, and the pass times the loop out exactly when more than the ceiling
   * has elapsed.
   */
  lemma DirectPollOngoing(reply: PollReply, elapsed: real, s: JobStep)
    requires s == DirectPoll(reply, elapsed)
    ensures NonTerminal(reply) ==>
              (elapsed > DirectCeiling <==> |s.events| > 0 && s.events[|s.events| - 1] == Status(JobTimedOut))
    ensures ReportsStatus(reply, InQueue) ==>
              s.events == [Status(JobInQueue), Progress(10.0)] + DirectTimeoutNotice(elapsed)
    ensures ReportsStatus(reply, InProgress) ==>
              s.events == [Status(GeneratingOnGpu), Progress(DirectProgress(elapsed))] + DirectTimeoutNotice(elapsed)
    ensures ReportsStatus(reply, Unrecognised) ==> s.events == DirectTimeoutNotice(elapsed)
  {
  }

  function DirectPollAt(feed: JobFeed, k: nat): JobStep {
    DirectPoll(feed.replies(k), feed.elapsed(k))
  }

  /** Everything the first `n` polls emit. */
  function DirectLog(feed: JobFeed, n: nat): seq<Event> {
    if n == 0 then [] else DirectLog(feed, n - 1) + DirectPollAt(feed, n - 1).events
  }

  /** None of the first `n` polls stops the loop. */
  predicate DirectGoesOn(feed: JobFeed, n: nat) {
    n == 0 || (DirectGoesOn(feed, n - 1) && DirectPollAt(feed, n - 1).stop.None?)
  }

  /** Polls before the n-th let the loop go on, and the n-th stops it. */
  predicate DirectStopsAt(feed: JobFeed, n: nat) {
    n >= 1 && DirectGoesOn(feed, n - 1) && DirectPollAt(feed, n - 1).stop.Some?
  }

  /** A final_sequence is in the log exactly when the poll that stopped the loop delivered one. */
  lemma {:induction false} DirectLogFinal(feed: JobFeed, n: nat)
    requires n > 0 ==> DirectGoesOn(feed, n - 1)
    ensures HasFinalSequence(DirectLog(feed, n)) <==> n > 0 && DirectPollAt(feed, n - 1).stop == Some(Delivered)
  {
    if n > 0 {
      DirectLogFinal(feed, n - 1);
      DirectPollMeaning(feed.replies(n - 1), feed.elapsed(n - 1), DirectPollAt(feed, n - 1));
      FinalSequenceInConcat(DirectLog(feed, n - 1), DirectPollAt(feed, n - 1).events);
    }
  }

  /** Every progress value sent while polling lies in [10, 100]. */
  lemma {:induction false} DirectLogProgress(feed: JobFeed, n: nat)
    requires forall k: nat :: feed.elapsed(k) >= 0.0
    ensures ProgressWithin(DirectLog(feed, n), 10.0, 100.0)
  {
    if n > 0 {
      DirectLogProgress(feed, n - 1);
      DirectPollMeaning(feed.replies(n - 1), feed.elapsed(n - 1), DirectPollAt(feed, n - 1));
      ProgressWithinConcat(DirectLog(feed, n - 1), DirectPollAt(feed, n - 1).events, 10.0, 100.0);
    }
  }

  /** A poll that lets the loop go on came early enough for another one to follow. */
  lemma DirectRoomForMore(feed: JobFeed, k: nat)
    requires DirectPaced(feed)
    requires DirectPollAt(feed, k).stop.None?
    ensures k + 1 < DirectMaxPolls
  {
    DirectPollMeaning(feed.replies(k), feed.elapsed(k), DirectPollAt(feed, k));
  }

  /** What the log of a loop that stopped at poll n says about how it stopped. */
  lemma DirectLogEnd(feed: JobFeed, n: nat, end: JobEnd)
    requires DirectPaced(feed)
    requires DirectStopsAt(feed, n) && DirectPollAt(feed, n - 1).stop == Some(end)
    ensures HasFinalSequence(DirectLog(feed, n)) <==> end == Delivered
    ensures end == TimedOut ==> feed.elapsed(n - 1) > DirectCeiling
    ensures ProgressWithin(DirectLog(feed, n), 10.0, 100.0)
  {
    DirectLogFinal(feed, n);
    DirectPollMeaning(feed.replies(n - 1), feed.elapsed(n - 1), DirectPollAt(feed, n - 1));
    forall k: nat ensures feed.elapsed(k) >= 0.0 {
      assert feed.elapsed(k) >= DirectPollInterval * (k + 1) as real;
    }
    DirectLogProgress(feed, n);
  }

  /** A loop stops at one poll only. */
  lemma {:induction false} DirectStopIsUnique(feed: JobFeed, m: nat, n: nat)
    requires DirectStopsAt(feed, m) && DirectStopsAt(feed, n)
    ensures m == n
  {
    if m < n {
      DirectGoesOnEarlier(feed, n - 1, m);
    } else if n < m {
      DirectGoesOnEarlier(feed, m - 1, n);
    }
  }

  /** A loop that went on through `n` polls went on through every poll before. */
  lemma {:induction false} DirectGoesOnEarlier(feed: JobFeed, n: nat, k: nat)
    requires DirectGoesOn(feed, n) && k < n
    ensures DirectGoesOn(feed, k + 1)
  {
    if k + 1 < n {
      DirectGoesOnEarlier(feed, n - 1, k);
    }
  }

  /**
   * The body of the loop's `try` after the sleep, written as statements. `DirectPoll` is
   * its specification, and the lemmas above are stated about that function.
   */
  method DirectPollOnce(feed: JobFeed, k: nat) returns (events: seq<Event>, stop: Option<JobEnd>)
    ensures JobStep(events, stop) == DirectPollAt(feed, k)
  {
    var reply, elapsed := feed.replies(k), feed.elapsed(k);
    stop := None;
    match reply {
      case PollRaised =>
        return [Status(StatusCheckFailed)], Some(PollError);
      case PollBody(body) =>
        var status := StatusOf(body);
        if status.None? {
          return [Status(StatusCheckFailed)], Some(PollError);
        }
        if status.value == InQueue {
          events := [Status(JobInQueue), Progress(10.0)];
        } else if status.value == InProgress {
          events := [Status(GeneratingOnGpu), Progress(DirectProgress(elapsed))];
        } else if status.value == Completed {
          events := [Status(GenerationCompleteSending), Progress(100.0)];
          match CompletedOutcome(OutputOf(body)) {
            case None =>
              return events + [Status(StatusCheckFailed)], Some(PollError);
            case Some(Succeeded(output)) =>
              return events + [FinalSequence(output)], Some(Delivered);
            case Some(NotSucceeded(message)) =>
              return events + [Status(GpuError(message))], Some(CompletedWithError);
          }
        } else if status.value == Failed {
          match FailureMessage(OutputOf(body)) {
            case None =>
              return [Status(StatusCheckFailed)], Some(PollError);
            case Some(message) =>
              return [Status(GpuError(message))], Some(RemoteFailed);
          }
        } else {
          events := [];
        }
        if elapsed > DirectCeiling {
          events, stop := events + [Status(JobTimedOut)], Some(TimedOut);
        }
    }
  }

  /**
   * `while True`: sleep two seconds, poll, report, and break at the first COMPLETED,
   * FAILED, polling exception, or other status seen after the ceiling.
   */
  method PollDirect(feed: JobFeed) returns (log: seq<Event>, polls: nat, slept: real, end: JobEnd)
    requires DirectPaced(feed)
    ensures 1 <= polls <= DirectMaxPolls
    ensures slept == DirectPollInterval * polls as real
    ensures DirectStopsAt(feed, polls) && DirectPollAt(feed, polls - 1).stop == Some(end)
    ensures log == DirectLog(feed, polls)
  {
    log, polls, slept := [], 0, 0.0;
    while true
      invariant polls < DirectMaxPolls
      invariant slept == DirectPollInterval * polls as real
      invariant DirectGoesOn(feed, polls)
      invariant log == DirectLog(feed, polls)
      decreases DirectMaxPolls - polls
    {
      slept := slept + DirectPollInterval;
      polls := polls + 1;
      var events, stop := DirectPollOnce(feed, polls - 1);
      log := log + events;
      if stop.Some? {
        end := stop.value;
        break;
      }
      DirectRoomForMore(feed, polls - 1);
    }
  }

  // ---------------------------------------------------------------------------
  // The handler

  /** An admitted job: the queued notice and the initial progress, then the polling loop. */
  method QueueAndPollDirect(feed: JobFeed) returns (events: seq<Event>, polls: nat)
    requires DirectPaced(feed)
    ensures DirectStopsAt(feed, polls)
    ensures events == [Status(JobQueuedOnGpu), Progress(5.0)] + DirectLog(feed, polls)
    ensures HasFinalSequence(events) <==> DirectPollAt(feed, polls - 1).stop == Some(Delivered)
    ensures ProgressWithin(events, 5.0, 100.0)
  {
    var queued := [Status(JobQueuedOnGpu), Progress(5.0)];
    var polled, slept, end;
    polled, polls, slept, end := PollDirect(feed);
    DirectLogEnd(feed, polls, end);
    FinalSequenceInConcat(queued, polled);
    ProgressWithinConcat(queued, polled, 5.0, 100.0);
    events := queued + polled;
  }

  /**
   * `handle_start_generation` without the addressing: what it emits with `to=sid`
   * (`toSession`) and what it emits without a recipient (`unaddressed`).
   */
  method StartGeneration(env: Env, sub: Submission, feed: JobFeed)
    returns (toSession: seq<Event>, unaddressed: seq<Event>, polls: nat)
    requires DirectPaced(feed)
    ensures polls > 0 <==> Configured(env) && Admit(sub).Admitted?
    ensures !Configured(env) ==> toSession == [Status(SendingJob), Status(ConfigMissing)] && unaddressed == []
    ensures Configured(env) && Admit(sub).Refused? ==>
              toSession == [Status(SendingJob), Status(GpuServerError(Admit(sub).error))] && unaddressed == []
    ensures Configured(env) && Admit(sub) == SubmitError ==>
              toSession == [Status(SendingJob), Status(ConnectFailed)] && unaddressed == []
    ensures Configured(env) && Admit(sub).Admitted? ==>
              && toSession == [Status(SendingJob)]
              && DirectStopsAt(feed, polls)
              && unaddressed == [Status(JobQueuedOnGpu), Progress(5.0)] + DirectLog(feed, polls)
              && (HasFinalSequence(unaddressed) <==> DirectPollAt(feed, polls - 1).stop == Some(Delivered))
              && ProgressWithin(unaddressed, 5.0, 100.0)
  {
    toSession, unaddressed, polls := [Status(SendingJob)], [], 0;
    if !Configured(env) {
      toSession := toSession + [Status(ConfigMissing)];
      return;
    }
    var admission := Admit(sub);
    match admission {
      case SubmitError =>
        toSession := toSession + [Status(ConnectFailed)];
      case Refused(error) =>
        toSession := toSession + [Status(GpuServerError(error))];
      case Admitted(_) =>
        unaddressed, polls := QueueAndPollDirect(feed);
    }
  }

  /** The handler as written: the messages emitted without `to=` reach every connected client. */
  method HandleStartGeneration(env: Env, sub: Submission, feed: JobFeed) returns (log: seq<Emit>, polls: nat)
    requires DirectPaced(feed)
    ensures |log| >= 2 && log[0] == Emit(Status(SendingJob), Session)
    ensures polls > 0 <==> Configured(env) && Admit(sub).Admitted?
    ensures polls == 0 ==> |log| == 2 && log[1].to == Session
    ensures !Configured(env) ==> log == [Emit(Status(SendingJob), Session), Emit(Status(ConfigMissing), Session)]
    ensures Configured(env) && Admit(sub).Refused? ==>
              log == [Emit(Status(SendingJob), Session), Emit(Status(GpuServerError(Admit(sub).error)), Session)]
    ensures Configured(env) && Admit(sub) == SubmitError ==>
              log == [Emit(Status(SendingJob), Session), Emit(Status(ConnectFailed), Session)]
    ensures polls > 0 ==>
              && DirectStopsAt(feed, polls)
              && log[1..] == Addressed([Status(JobQueuedOnGpu), Progress(5.0)] + DirectLog(feed, polls), Broadcast)
    // a delivered result goes to every client, not only to the one that asked for it
    ensures polls > 0 && DirectPollAt(feed, polls - 1).stop == Some(Delivered) ==>
              exists i :: 0 <= i < |log| && log[i].event.FinalSequence? && log[i].to == Broadcast
  {
    var toSession, unaddressed;
    toSession, unaddressed, polls := StartGeneration(env, sub, feed);
    log := Addressed(toSession, Session) + Addressed(unaddressed, Broadcast);
    if polls > 0 && DirectPollAt(feed, polls - 1).stop == Some(Delivered) {
      var i :| 0 <= i < |unaddressed| && unaddressed[i].FinalSequence?;
      assert log[1 + i] == Emit(unaddressed[i], Broadcast);
    }
  }

  /** The handler with every message sent to the requesting session. */
  method HandleStartGenerationForSession(env: Env, sub: Submission, feed: JobFeed) returns (log: seq<Emit>, polls: nat)
    requires DirectPaced(feed)
    ensures forall i :: 0 <= i < |log| ==> log[i].to == Session
    ensures |log| >= 2 && log[0] == Emit(Status(SendingJob), Session)
    ensures polls > 0 <==> Configured(env) && Admit(sub).Admitted?
    ensures !Configured(env) ==> log == [Emit(Status(SendingJob), Session), Emit(Status(ConfigMissing), Session)]
    ensures Configured(env) && Admit(sub).Refused? ==>
              log == [Emit(Status(SendingJob), Session), Emit(Status(GpuServerError(Admit(sub).error)), Session)]
    ensures Configured(env) && Admit(sub) == SubmitError ==>
              log == [Emit(Status(SendingJob), Session), Emit(Status(ConnectFailed), Session)]
    ensures polls > 0 ==>
              && DirectStopsAt(feed, polls)
              && log[1..] == Addressed([Status(JobQueuedOnGpu), Progress(5.0)] + DirectLog(feed, polls), Session)
    ensures polls > 0 && DirectPollAt(feed, polls - 1).stop == Some(Delivered) ==>
              exists i :: 0 <= i < |log| && log[i].event.FinalSequence?
  {
    var toSession, unaddressed;
    toSession, unaddressed, polls := StartGeneration(env, sub, feed);
    log := Addressed(toSession + unaddressed, Session);
    if polls > 0 && DirectPollAt(feed, polls - 1).stop == Some(Delivered) {
      var i :| 0 <= i < |unaddressed| && unaddressed[i].FinalSequence?;
      assert log[1 + i].event == unaddressed[i];
    }
  }

  // ---------------------------------------------------------------------------
  // A job whose result is broadcast

  /** A job RunPod reports completed with a successful output at the first poll. */
  const SampleFeed: JobFeed :=
    JobFeed(k => PollBody(Obj(map["status" := Str("COMPLETED"), "output" := Obj(map["status" := Str("success")])])),
            k => DirectPollInterval * (k + 1) as real,
            k => DirectPollInterval * (k + 1) as real)

  const SampleSubmission: Submission := PostReply(200, Some(Obj(map["id" := Str("job-1")])))

  /** Inputs the handler's contract applies to: its final sequence is broadcast at the first poll. */
  lemma SampleResultIsBroadcast()
    ensures Configured(Env(Some("key"), Some("endpoint")))
    ensures DirectPaced(SampleFeed) && Admit(SampleSubmission).Admitted?
    ensures DirectStopsAt(SampleFeed, 1) && DirectPollAt(SampleFeed, 0).stop == Some(Delivered)
  {
  }
}
