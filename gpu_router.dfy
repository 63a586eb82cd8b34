/**
 * The GPU router: for each preprocessing or generation request it probes the Home
 * GPU, runs the request there when the probe says the GPU is free, and otherwise,
 * or when the Home call fails, submits a RunPod job. It keeps request and failure
 * counters and reports success rates from them.
 *
 * Every HTTP request is an input: the outcome of the health probe, of the Home call
 * and of the RunPod submission. The router records the requests it makes in the
 * ghost trace `calls`, so that its contracts can say which requests are made.
 */
module Router {
  import opened Wrappers
  import opened Json

  /** A wall-clock reading, supplied by the caller. */
  type Timestamp = int

  datatype Provider = Home | RunPod

  datatype Operation = PreprocessOp | GenerateOp {
    /** The Home worker's path and the `endpoint` field of the RunPod payload. */
    function Endpoint(): string {
      match this
      case PreprocessOp => "preprocess"
      case GenerateOp => "generate"
    }
  }

  /** `GET {home}/health`: a timeout, any other exception, or the status and the body (None: not JSON). */
  datatype ProbeOutcome = ProbeTimeout | ProbeRaised | ProbeReply(status: int, body: Option<Value>)

  /** `POST {home}/preprocess` or `/generate`: any exception, or the status and the body (None: not JSON). */
  datatype HomeOutcome = HomeRaised | HomeReply(status: int, body: Option<Value>)

  /** `POST` to RunPod's run URL: an exception (in the request or in decoding), or the decoded body. */
  datatype SubmitOutcome = SubmitRaised | SubmitReply(body: Value)

  /** What `preprocess` and `generate` give their caller: a result and its provider, or an exception. */
  datatype Routed = Routed(result: Value, provider: Provider) | Raised

  /** An outbound HTTP request. */
  datatype Call = HealthProbe(url: string) | HomePost(url: string) | RunPodPost(url: string, endpoint: string)

  datatype Counters = Counters(
    homeRequests: nat,
    runpodRequests: nat,
    homeFailures: nat,
    runpodFailures: nat,
    totalRequests: nat)

  /**
   * What the counters always satisfy: a Home failure is a failed Home request, every
   * request ends on exactly one provider (a failed Home request then also on RunPod),
   * and nothing ever counts a RunPod failure.
   */
  predicate Consistent(c: Counters) {
    && c.homeFailures <= c.homeRequests
    && c.totalRequests == c.homeRequests + c.runpodRequests - c.homeFailures
    && c.runpodFailures == 0
  }

  datatype StatsReport = StatsReport(
    counters: Counters,
    homeGpuAvailable: bool,
    homeGpuEnabled: bool,
    lastHealthCheck: Option<Timestamp>,
    homeSuccessRate: real,
    runpodSuccessRate: real)

  /** Percentage of requests that did not fail; 0 when there were none. */
  function SuccessRate(requests: nat, failures: nat): (rate: real)
    ensures requests == 0 ==> rate == 0.0
    ensures requests > 0 ==> rate * requests as real == (requests as real - failures as real) * 100.0
    ensures failures <= requests ==> 0.0 <= rate <= 100.0
    ensures requests > 0 && failures == 0 ==> rate == 100.0
  {
    if requests > 0 then
      QuotientFacts(requests as real - failures as real, requests as real);
      (requests as real - failures as real) / requests as real * 100.0
    else 0.0
  }

  lemma QuotientFacts(n: real, d: real)
    requires d > 0.0
    ensures n / d * d == n
    ensures 0.0 <= n <= d ==> 0.0 <= n / d <= 1.0
    ensures n == d ==> n / d == 1.0
  {
  }

  /** `r` is `s` without its trailing slashes. */
  predicate SlashTrimmed(s: string, r: string) {
    && |r| <= |s| && r == s[..|r|]
    && (forall i :: |r| <= i < |s| ==> s[i] == '/')
    && (r == [] || r[|r| - 1] != '/')
  }

  /** `s.rstrip('/')`. */
  function TrimTrailingSlashes(s: string): (r: string)
    ensures SlashTrimmed(s, r)
    decreases |s|
  {
    if s != [] && s[|s| - 1] == '/' then TrimTrailingSlashes(s[..|s| - 1]) else s
  }

  /** The contract of TrimTrailingSlashes leaves it no choice. */
  lemma SlashTrimmedUnique(s: string, r: string, t: string)
    requires SlashTrimmed(s, r) && SlashTrimmed(s, t)
    ensures r == t
  {
  }

  /** `url.rstrip('/') if url else None`. */
  function NormalizeHomeUrl(url: Option<string>): (r: Option<string>)
    ensures r.None? <==> url.None? || url.value == ""
    ensures r.Some? ==> SlashTrimmed(url.value, r.value)
  {
    if url.Some? && url.value != "" then Some(TrimTrailingSlashes(url.value)) else None
  }

  /** A URL made only of slashes is kept, as "", so the router reports Home as enabled. */
  lemma SlashOnlyUrlIsKeptEmpty(url: string)
    requires url != [] && forall i :: 0 <= i < |url| ==> url[i] == '/'
    ensures NormalizeHomeUrl(Some(url)) == Some("")
  {
  }

  /** The truthiness of `data.get(key, False)`. */
  predicate Flag(data: map<string, Value>, key: string) {
    key in data && Truthy(data[key])
  }

  /** The probe got a 200 whose body decodes to a JSON object, so the flags are read. */
  predicate ProbeAnswered(probe: ProbeOutcome) {
    probe.ProbeReply? && probe.status == 200 && probe.body.Some? && probe.body.value.Obj?
  }

  /** ... and the flags say the GPU is available and not busy. */
  predicate ProbeSaysReady(probe: ProbeOutcome) {
    && ProbeAnswered(probe)
    && Flag(probe.body.value.fields, "gpu_available")
    && !Flag(probe.body.value.fields, "gpu_busy")
  }

  /** The Home result the router hands back: only a 200 with a JSON body. */
  function HomeResult(home: HomeOutcome): Option<Value> {
    if home.HomeReply? && home.status == 200 && home.body.Some? then home.body else None
  }

  function SubmitResult(submit: SubmitOutcome): Routed {
    match submit
    case SubmitRaised => Raised
    case SubmitReply(body) => Routed(body, RunPod)
  }

  class GpuRouter {
    const homeGpuUrl: Option<string>
    const runpodRunUrl: string
    const runpodStatusUrl: string
    const runpodApiKey: string
    const timeout: int

    var homeGpuAvailable: bool
    var lastHealthCheck: Option<Timestamp>
    var stats: Counters

    /** The outbound requests made so far, oldest first. */
    ghost var calls: seq<Call>

    ghost predicate Valid()
      reads this
    {
      Consistent(stats)
    }

    /** The Python truthiness of `self.home_gpu_url`: a URL is configured and not empty. */
    predicate HomeEnabled() {
      homeGpuUrl.Some? && homeGpuUrl.value != ""
    }

    function HomeUrl(): string
      requires HomeEnabled()
    {
      homeGpuUrl.value
    }

    /** This call tries the Home GPU. */
    predicate TriesHome(probe: ProbeOutcome) {
      HomeEnabled() && ProbeSaysReady(probe)
    }

    /** This call is served by the Home GPU. */
    predicate ServedByHome(probe: ProbeOutcome, home: HomeOutcome) {
      TriesHome(probe) && HomeResult(home).Some?
    }

    constructor (homeGpuUrl: Option<string>, runpodRunUrl: string, runpodStatusUrl: string,
                 runpodApiKey: string, timeout: int := 10)
      ensures this.homeGpuUrl == NormalizeHomeUrl(homeGpuUrl)
      ensures this.runpodRunUrl == runpodRunUrl && this.runpodStatusUrl == runpodStatusUrl
      ensures this.runpodApiKey == runpodApiKey && this.timeout == timeout
      ensures !homeGpuAvailable && lastHealthCheck.None? && calls == []
      ensures stats == Counters(0, 0, 0, 0, 0)
      ensures Valid()
    {
      this.homeGpuUrl := NormalizeHomeUrl(homeGpuUrl);
      this.runpodRunUrl := runpodRunUrl;
      this.runpodStatusUrl := runpodStatusUrl;
      this.runpodApiKey := runpodApiKey;
      this.timeout := timeout;
      homeGpuAvailable := false;
      lastHealthCheck := None;
      stats := Counters(0, 0, 0, 0, 0);
      calls := [];
    }

    /**
     * One probe, one verdict. With no Home URL nothing is probed and nothing changes;
     * otherwise the availability flag becomes the verdict, and the check is stamped
     * only when a 200 response was read.
     */
    method CheckHomeGpuHealth(probe: ProbeOutcome, now: Timestamp) returns (healthy: bool)
      modifies this
      ensures healthy <==> HomeEnabled() && ProbeSaysReady(probe)
      ensures homeGpuAvailable == if HomeEnabled() then healthy else old(homeGpuAvailable)
      ensures lastHealthCheck == if HomeEnabled() && ProbeAnswered(probe) then Some(now) else old(lastHealthCheck)
      ensures calls == old(calls) + (if HomeEnabled() then [HealthProbe(HomeUrl() + "/health")] else [])
      ensures stats == old(stats)
    {
      if !HomeEnabled() {
        return false;
      }
      calls := calls + [HealthProbe(homeGpuUrl.value + "/health")];
      match probe
      case ProbeReply(status, body) =>
        if status == 200 {
          if body.Some? && body.value.Obj? {
            var data := body.value.fields;
            homeGpuAvailable := Flag(data, "gpu_available") && !Flag(data, "gpu_busy");
            lastHealthCheck := Some(now);
            healthy := homeGpuAvailable;
          } else {
            // decoding the body, or reading a flag from it, raised
            homeGpuAvailable := false;
            healthy := false;
          }
        } else {
          homeGpuAvailable := false;
          healthy := false;
        }
      case ProbeTimeout =>
        homeGpuAvailable := false;
        healthy := false;
      case ProbeRaised =>
        homeGpuAvailable := false;
        healthy := false;
    }

    /** `_preprocess_on_home` / `_generate_on_home`; None stands for the exception it re-raises. */
    method RunOnHome(op: Operation, home: HomeOutcome) returns (result: Option<Value>)
      requires HomeEnabled()
      modifies this
      ensures result == HomeResult(home)
      ensures stats == old(stats).(homeRequests := old(stats.homeRequests) + 1,
                                   homeFailures := old(stats.homeFailures) + if result.None? then 1 else 0)
      ensures calls == old(calls) + [HomePost(HomeUrl() + "/" + op.Endpoint())]
      ensures homeGpuAvailable == old(homeGpuAvailable) && lastHealthCheck == old(lastHealthCheck)
    {
      stats := stats.(homeRequests := stats.homeRequests + 1);
      calls := calls + [HomePost(homeGpuUrl.value + "/" + op.Endpoint())];
      var failed := true;
      match home {
      case HomeReply(status, body) =>
        if status == 200 {
          // decoding a body that is not JSON raises
          failed := body.None?;
          result := body;
        } else if status == 503 {
          // the worker is busy
          result := None;
        } else {
          result := None;
        }
      case HomeRaised =>
        result := None;
      }
      if failed {
        stats := stats.(homeFailures := stats.homeFailures + 1);
      }
    }

    /** `_preprocess_on_runpod` / `_generate_on_runpod`: the submission's body, whatever its status. */
    method SubmitToRunPod(op: Operation, submit: SubmitOutcome) returns (r: Routed)
      modifies this
      ensures r == SubmitResult(submit)
      ensures stats == old(stats).(runpodRequests := old(stats.runpodRequests) + 1)
      ensures calls == old(calls) + [RunPodPost(runpodRunUrl, op.Endpoint())]
      ensures homeGpuAvailable == old(homeGpuAvailable) && lastHealthCheck == old(lastHealthCheck)
    {
      stats := stats.(runpodRequests := stats.runpodRequests + 1);
      calls := calls + [RunPodPost(runpodRunUrl, op.Endpoint())];
      match submit
      case SubmitRaised => r := Raised;
      case SubmitReply(body) => r := Routed(body, RunPod);
    }

    /** The whole effect of one `preprocess` or `generate` call. */
    twostate predicate RoutedBy(op: Operation, probe: ProbeOutcome, home: HomeOutcome,
                                submit: SubmitOutcome, now: Timestamp, r: Routed)
      reads this
    {
      && r == (if ServedByHome(probe, home) then Routed(HomeResult(home).value, Home) else SubmitResult(submit))
      && stats == old(stats).(
           totalRequests := old(stats.totalRequests) + 1,
           homeRequests := old(stats.homeRequests) + (if TriesHome(probe) then 1 else 0),
           homeFailures := old(stats.homeFailures)
                           + (if TriesHome(probe) && !ServedByHome(probe, home) then 1 else 0),
           runpodRequests := old(stats.runpodRequests) + (if ServedByHome(probe, home) then 0 else 1))
      && homeGpuAvailable == (if HomeEnabled() then ServedByHome(probe, home) else old(homeGpuAvailable))
      && lastHealthCheck == (if HomeEnabled() && ProbeAnswered(probe) then Some(now) else old(lastHealthCheck))
      && calls == old(calls)
                  + (if HomeEnabled() then [HealthProbe(HomeUrl() + "/health")] else [])
                  + (if TriesHome(probe) then [HomePost(HomeUrl() + "/" + op.Endpoint())] else [])
                  + (if ServedByHome(probe, home) then [] else [RunPodPost(runpodRunUrl, op.Endpoint())])
    }

    /**
     * Count the request; try Home only if it is configured and the probe says it is
     * free; on a Home failure clear the availability flag and submit to RunPod,
     * without trying Home again.
     */
    method Route(op: Operation, probe: ProbeOutcome, home: HomeOutcome, submit: SubmitOutcome, now: Timestamp)
      returns (r: Routed)
      requires Valid()
      modifies this
      ensures Valid()
      ensures RoutedBy(op, probe, home, submit, now, r)
    {
      stats := stats.(totalRequests := stats.totalRequests + 1);
      var healthy := false;
      if HomeEnabled() {
        healthy := CheckHomeGpuHealth(probe, now);
      }
      if healthy {
        var served := RunOnHome(op, home);
        if served.Some? {
          return Routed(served.value, Home);
        }
        homeGpuAvailable := false;
      }
      r := SubmitToRunPod(op, submit);
    }

    method Preprocess(probe: ProbeOutcome, home: HomeOutcome, submit: SubmitOutcome, now: Timestamp)
      returns (r: Routed)
      requires Valid()
      modifies this
      ensures Valid()
      ensures RoutedBy(PreprocessOp, probe, home, submit, now, r)
    {
      r := Route(PreprocessOp, probe, home, submit, now);
    }

    method Generate(probe: ProbeOutcome, home: HomeOutcome, submit: SubmitOutcome, now: Timestamp)
      returns (r: Routed)
      requires Valid()
      modifies this
      ensures Valid()
      ensures RoutedBy(GenerateOp, probe, home, submit, now, r)
    {
      r := Route(GenerateOp, probe, home, submit, now);
    }

    function GetStats(): (s: StatsReport)
      reads this
      ensures s.counters == stats
      ensures s.homeGpuAvailable == homeGpuAvailable && s.lastHealthCheck == lastHealthCheck
      ensures s.homeGpuEnabled <==> homeGpuUrl.Some?
      ensures s.homeSuccessRate == SuccessRate(stats.homeRequests, stats.homeFailures)
      ensures s.runpodSuccessRate == SuccessRate(stats.runpodRequests, stats.runpodFailures)
      ensures stats.homeRequests == 0 ==> s.homeSuccessRate == 0.0
      ensures Consistent(stats) ==> 0.0 <= s.homeSuccessRate <= 100.0
      ensures Consistent(stats) ==> s.runpodSuccessRate == if stats.runpodRequests == 0 then 0.0 else 100.0
    {
      StatsReport(
        stats,
        homeGpuAvailable,
        homeGpuUrl.Some?,
        lastHealthCheck,
        SuccessRate(stats.homeRequests, stats.homeFailures),
        SuccessRate(stats.runpodRequests, stats.runpodFailures))
    }
  }
}
