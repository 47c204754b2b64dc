/** `utils/video_gen.py`: one Veo job per prompt, polled until done or until
    600 time units have passed, then classified.

    The Veo service is a collaborator given by the outcome of the one
    submission, the outcome of the `k`-th re-poll, and the time the `k`-th
    loop iteration takes beyond its 15-unit sleep (the re-poll's own latency).
    The clock counts whole time units from the moment the submission returns.
 */
module VideoGen {
  import opened Results

  const VeoModel := "veo-2.0-generate-001"
  const DefaultAspectRatio := "16:9"
  const BucketVar := "GOOGLE_STORAGE_BUCKET"
  const Timeout: nat := 600
  const PollInterval: nat := 15
  const UnknownError := "Unknown error"

  datatype VeoRequest = VeoRequest(model: string, prompt: string, aspectRatio: string, outputGcsUri: Option<string>)

  /** A long-running operation as one observation shows it: whether it is
      done, the URIs of the generated videos once it has a response, and its
      error (absent when it has none or an empty one). */
  datatype Operation = Operation(name: string, done: bool, response: Option<seq<string>>, error: Option<string>)

  datatype VeoService = VeoService(
    submit: VeoRequest -> Result<Operation>,
    poll: nat -> Result<Operation>,
    latency: nat -> nat)

  /** The dictionary `generate_video` returns. */
  datatype VideoResult = Success(uri: string, operationId: string) | Failed(error: string)

  /** One call: the request submitted, how many re-polls it made, the clock
      when the loop ended, and the result (or the exception that escaped). */
  datatype Job = Job(request: VeoRequest, repolls: nat, elapsed: nat, outcome: Result<VideoResult>)

  /** How the polling loop ended. */
  datatype Waited = Waited(last: Result<Operation>, repolls: nat, elapsed: nat)

  function Lookup(env: map<string, string>, name: string): Option<string> {
    if name in env then Some(env[name]) else None
  }

  function RequestFor(prompt: string, aspectRatio: string, env: map<string, string>): VeoRequest {
    VeoRequest(VeoModel, prompt, aspectRatio, Lookup(env, BucketVar))
  }

  // ---------------------------------------------------------------------
  // The loop, as a reference function

  /** `while not operation.done and elapsed < 600: sleep(15); operation = get(operation)`,
      from the state after `k` re-polls at clock `elapsed`. */
  function Await(svc: VeoService, op: Operation, k: nat, elapsed: nat): (w: Waited)
    ensures w.repolls >= k && w.elapsed >= elapsed
    ensures w.last.Ok? ==> w.last.value.done || w.elapsed >= Timeout
    ensures op.done ==> w == Waited(Ok(op), k, elapsed)
    decreases Timeout - elapsed
  {
    if op.done || elapsed >= Timeout then Waited(Ok(op), k, elapsed)
    else
      var clock := elapsed + PollInterval + svc.latency(k);
      match svc.poll(k)
      case Raised(e) => Waited(Raised(e), k + 1, clock)
      case Ok(next) => Await(svc, next, k + 1, clock)
  }

  /** The result the final observation gives: success with the first video's
      URI when it has a response, otherwise failure with its error or
      `Unknown error`. A response without videos raises `IndexError`. */
  function Classify(op: Operation): (r: Result<VideoResult>)
    ensures r.Ok? && r.value.Success? <==> op.response.Some? && |op.response.value| > 0
    ensures r.Ok? && r.value.Success? ==> r.value.uri == op.response.value[0] && r.value.operationId == op.name
    ensures r.Ok? && r.value.Failed? <==> op.response.None?
    ensures op.response.None? && op.error.None? ==> r == Ok(Failed("Unknown error"))
    ensures op.response.None? && op.error.Some? ==> r == Ok(Failed(op.error.value))
  {
    match op.response
    case Some(videos) =>
      if |videos| == 0 then Raised("list index out of range")
      else Ok(Success(videos[0], op.name))
    case None => Ok(Failed(match op.error case Some(e) => e case None => UnknownError))
  }

  /** `generate_video(prompt, aspect_ratio)`: one submission, the loop, the
      classification. An exception from the submission or a re-poll escapes. */
  function VideoJob(prompt: string, aspectRatio: string, env: map<string, string>, svc: VeoService): (job: Job)
    ensures job.request == RequestFor(prompt, aspectRatio, env)
    ensures svc.submit(job.request).Raised? ==> job.outcome.Raised? && job.repolls == 0
    ensures svc.submit(job.request).Ok? && svc.submit(job.request).value.done ==>
      job.repolls == 0 && job.outcome == Classify(svc.submit(job.request).value)
  {
    var request := RequestFor(prompt, aspectRatio, env);
    match svc.submit(request)
    case Raised(e) => Job(request, 0, 0, Raised(e))
    case Ok(op) =>
      var w := Await(svc, op, 0, 0);
      Job(request, w.repolls, w.elapsed, match w.last case Raised(e) => Raised(e) case Ok(last) => Classify(last))
  }

  // ---------------------------------------------------------------------
  // The loop, as the program writes it

  /** `generate_video` with its polling loop. */
  method GenerateVideo(prompt: string, aspectRatio: string, env: map<string, string>, svc: VeoService)
    returns (job: Job)
    ensures job == VideoJob(prompt, aspectRatio, env, svc)
    ensures job.repolls <= 40
  {
    var request := RequestFor(prompt, aspectRatio, env);
    var submitted := svc.submit(request);
    if submitted.Raised? {
      return Job(request, 0, 0, Raised(submitted.error));
    }
    var operation := submitted.value;
    ghost var first := operation;
    var elapsed: nat := 0;
    var repolls: nat := 0;
    RepollBound(svc, first, 0, first, 0);
    while !operation.done && elapsed < Timeout
      invariant Await(svc, operation, repolls, elapsed) == Await(svc, first, 0, 0)
      invariant PollInterval * repolls <= elapsed
      decreases Timeout - elapsed
    {
      var polled := svc.poll(repolls);
      elapsed := elapsed + PollInterval + svc.latency(repolls);
      repolls := repolls + 1;
      if polled.Raised? {
        return Job(request, repolls, elapsed, Raised(polled.error));
      }
      operation := polled.value;
    }
    job := Job(request, repolls, elapsed, Classify(operation));
  }

  // ---------------------------------------------------------------------
  // What the loop does, stated independently

  /** The observation the loop tests before its `j`-th re-poll: the submitted
      operation, then the outcome of each re-poll. */
  function Before(svc: VeoService, first: Operation, j: nat): Result<Operation> {
    if j == 0 then Ok(first) else svc.poll(j - 1)
  }

  /** The clock before the `j`-th re-poll: each earlier iteration slept 15
      and took its latency on top. */
  function Clock(svc: VeoService, j: nat): (t: nat)
    ensures t >= PollInterval * j
  {
    if j == 0 then 0 else Clock(svc, j - 1) + PollInterval + svc.latency(j - 1)
  }

  /** The loop goes on to re-poll `j`: the last observation is readable and
      not done, and the clock has not reached the timeout. */
  predicate Continues(svc: VeoService, first: Operation, j: nat) {
    Before(svc, first, j).Ok? && !Before(svc, first, j).value.done && Clock(svc, j) < Timeout
  }

  /** The loop re-polls exactly while it should: every re-poll it makes
      follows a not-done observation taken before the timeout, and it stops at
      the first observation that is done, raised, or comes at or after the
      timeout, reporting that observation and that clock. */
  lemma {:induction false} AwaitStopsAtFirstExit(svc: VeoService, first: Operation, k: nat, op: Operation, elapsed: nat)
    requires Before(svc, first, k) == Ok(op) && elapsed == Clock(svc, k)
    requires forall j :: 0 <= j < k ==> Continues(svc, first, j)
    ensures var w := Await(svc, op, k, elapsed);
      && w.last == Before(svc, first, w.repolls)
      && w.elapsed == Clock(svc, w.repolls)
      && (forall j :: 0 <= j < w.repolls ==> Continues(svc, first, j))
      && !Continues(svc, first, w.repolls)
    decreases Timeout - elapsed
  {
    if op.done || elapsed >= Timeout {
    } else {
      assert Continues(svc, first, k);
      var clock := elapsed + PollInterval + svc.latency(k);
      assert Clock(svc, k + 1) == clock;
      assert Before(svc, first, k + 1) == svc.poll(k);
      match svc.poll(k)
      case Raised(e) =>
      case Ok(next) =>
        AwaitStopsAtFirstExit(svc, first, k + 1, next, clock);
    }
  }

  /** However slow the re-polls, the loop makes at most 40 of them: each
      iteration advances the clock by at least 15 and none starts at 600. */
  lemma {:induction false} RepollBound(svc: VeoService, first: Operation, k: nat, op: Operation, elapsed: nat)
    requires PollInterval * k <= elapsed
    requires k <= 40
    ensures Await(svc, op, k, elapsed).repolls <= 40
    decreases Timeout - elapsed
  {
    if !(op.done || elapsed >= Timeout) {
      match svc.poll(k)
      case Raised(e) =>
      case Ok(next) =>
        RepollBound(svc, first, k + 1, next, elapsed + PollInterval + svc.latency(k));
    }
  }

  /** The loop's first exit point is unique, so any index with the same
      property is the number of re-polls. */
  lemma ExitIsUnique(svc: VeoService, first: Operation, n: nat, m: nat)
    requires forall j :: 0 <= j < n ==> Continues(svc, first, j)
    requires !Continues(svc, first, n)
    requires forall j :: 0 <= j < m ==> Continues(svc, first, j)
    requires !Continues(svc, first, m)
    ensures n == m
  {
  }

  /** A job that reports "not done" `m` times and then "done", with instant
      re-polls and `m <= 40`, is re-polled exactly `m` times and classified
      from the done observation. */
  lemma DoneAfterNotDone(prompt: string, aspectRatio: string, env: map<string, string>, svc: VeoService, m: nat)
    requires m <= 40
    requires svc.submit(RequestFor(prompt, aspectRatio, env)).Ok?
    requires forall j :: 0 <= j < m ==> svc.latency(j) == 0
    requires var first := svc.submit(RequestFor(prompt, aspectRatio, env)).value;
      && (forall j :: 0 <= j < m ==> Before(svc, first, j).Ok? && !Before(svc, first, j).value.done)
      && Before(svc, first, m).Ok? && Before(svc, first, m).value.done
    ensures var job := VideoJob(prompt, aspectRatio, env, svc);
      var first := svc.submit(RequestFor(prompt, aspectRatio, env)).value;
      job.repolls == m && job.outcome == Classify(Before(svc, first, m).value)
  {
    var first := svc.submit(RequestFor(prompt, aspectRatio, env)).value;
    ZeroLatencyClock(svc, m);
    AwaitStopsAtFirstExit(svc, first, 0, first, 0);
    var w := Await(svc, first, 0, 0);
    ExitIsUnique(svc, first, w.repolls, m);
  }

  /** A job that never reports done, with instant re-polls and no response
      in its last observation, is re-polled exactly 40 times and reported as
      a failure — the same result a job that
      failed without an error gets, so a timeout is not told apart. */
  lemma NeverDoneTimesOut(prompt: string, aspectRatio: string, env: map<string, string>, svc: VeoService)
    requires svc.submit(RequestFor(prompt, aspectRatio, env)).Ok?
    requires forall j :: 0 <= j < 40 ==> svc.latency(j) == 0
    requires var first := svc.submit(RequestFor(prompt, aspectRatio, env)).value;
      forall j :: 0 <= j <= 40 ==> Before(svc, first, j).Ok? && !Before(svc, first, j).value.done
    requires var first := svc.submit(RequestFor(prompt, aspectRatio, env)).value;
      Before(svc, first, 40).value.response.None?
    ensures var job := VideoJob(prompt, aspectRatio, env, svc);
      && job.repolls == 40 && job.elapsed == 600
      && job.outcome.Ok? && job.outcome.value.Failed?
  {
    var first := svc.submit(RequestFor(prompt, aspectRatio, env)).value;
    ZeroLatencyClock(svc, 40);
    AwaitStopsAtFirstExit(svc, first, 0, first, 0);
    var w := Await(svc, first, 0, 0);
    ExitIsUnique(svc, first, w.repolls, 40);
  }

  lemma {:induction false} ZeroLatencyClock(svc: VeoService, m: nat)
    requires forall j :: 0 <= j < m ==> svc.latency(j) == 0
    ensures forall j :: 0 <= j <= m ==> Clock(svc, j) == PollInterval * j
  {
    if m > 0 {
      ZeroLatencyClock(svc, m - 1);
    }
  }
}
