/** When workers and operators get what they ask for, what exactly they then change, and how long a lease is safe. */
module PipelineGrants {
  import opened Common
  import opened PipelineModel
  import opened PipelineInvariant
  import opened PipelineSteps
  import opened PipelineProgress

  // ---------------------------------------------------------------- starting a job

  /** Candidates, digests, selections, generations, tokens and handoffs stay. */
  ghost predicate SameDesk(s: Db, u: Db) {
    && u.candidates == s.candidates && u.digests == s.digests && u.selections == s.selections
    && u.generations == s.generations && u.tokens == s.tokens && u.handoffs == s.handoffs
  }

  /** Job i has this row now, and no other job changes. */
  ghost predicate OnlyJob(s: Db, u: Db, i: nat, row: Job) {
    && i < |s.jobs| && |u.jobs| == |s.jobs| && u.jobs[i] == row
    && forall j | 0 <= j < |s.jobs| && j != i :: u.jobs[j] == s.jobs[j]
  }

  /** The job runs for five minutes under the token, with one new open attempt; older open ones are abandoned. */
  ghost predicate Started(s: Db, u: Db, k: Ticket, now: int) {
    && k.job < |s.jobs| && k.attempt == |s.provider| && |u.provider| == |s.provider| + 1
    && OnlyJob(s, u, k.job, s.jobs[k.job].(status := Running, attempts := s.jobs[k.job].attempts + 1, token := Some(k.token),
                                           leaseExpires := now + 300 * SECOND_US, retryAt := None))
    && u.provider[k.attempt] == ProviderAttempt(k.job, s.jobs[k.job].attempts + 1, k.token, None)
    && (forall a | 0 <= a < |s.provider| :: u.provider[a] ==
          if s.provider[a].job == k.job && s.provider[a].outcome.None? then s.provider[a].(outcome := Some(Abandoned)) else s.provider[a])
    && u.issued == s.issued + {k.token} && SameDesk(s, u) && SameControl(s, u)
  }

  /** A candidate has at most one unfinished job. */
  lemma OneWorker(s: Db, c: nat, i: nat, j: nat)
    requires JobsOk(s) && SelectionsOk(s) && WorkFor(s, c, i) && WorkFor(s, c, j)
    ensures i == j
  {
    var a, b := s.jobs[i].selection, s.jobs[j].selection;
    assert a < b || b < a || a == b;
    assert i < j || j < i || i == j;
  }

  /** The candidate's unfinished job may be taken by hand: Codex does not own it, and nobody's lease on it is in force. */
  ghost predicate Takeable(s: Db, c: nat, i: nat, now: int) {
    WorkFor(s, c, i) && !s.jobs[i].bound && (s.jobs[i].status == Running ==> s.jobs[i].leaseExpires < now)
  }

  /** A start by hand is granted if and only if the candidate has such a job, and then starts that one. */
  lemma {:induction false} StartGrantedExactly(s: Db, c: nat, now: int, token: nat, sourcesBound: bool)
    requires Inv(s)
    ensures var (u, got) := StartSelected(s, c, now, token, sourcesBound);
            && (got.Some? <==> token !in s.issued && sourcesBound && exists i: nat :: Takeable(s, c, i, now))
            && (got.None? ==> u == s)
            && (got.Some? ==> got.value.token == token && Takeable(s, c, got.value.job, now) && Started(s, u, got.value, now))
  {
    var job := JobFor(s, c, now);
    if i: nat :| Takeable(s, c, i, now) {
      assert LiveJobOk(s, s.jobs[i]);
      assert StartableFor(s, i, c, now);
      assert job.Some? && StartableFor(s, job.value, c, now);
      assert WorkFor(s, c, job.value);
      OneWorker(s, c, i, job.value);
    }
    var (u, got) := StartSelected(s, c, now, token, sourcesBound);
    if got.Some? {
      assert Takeable(s, c, got.value.job, now);
      assert LiveJobOk(s, s.jobs[got.value.job]);
      StartedByHand(s, c, now, token, sourcesBound);
    }
  }

  lemma StartedByHand(s: Db, c: nat, now: int, token: nat, sourcesBound: bool)
    requires c < |s.candidates| && s.candidates[c].status == GenerationPending && StartSelected(s, c, now, token, sourcesBound).1.Some?
    ensures var (u, got) := StartSelected(s, c, now, token, sourcesBound); Started(s, u, got.value, now)
  {
  }

  // ---------------------------------------------------------------- Codex

  /** Nobody's lease on the job is in force, and a failed one has reached its time. */
  ghost predicate Idle(j: Job, now: int) {
    match j.status
    case Queued => true
    case Running => j.leaseExpires < now
    case FailedRecoverable => j.retryAt.Some? && j.retryAt.value <= now
    case _ => false
  }

  /** A job of Codex that is idle, neither held nor blocked, and was authorized if the cutover demands it. */
  ghost predicate Ready(s: Db, i: nat, now: int) {
    && i < |s.jobs| && s.jobs[i].bound && Idle(s.jobs[i], now)
    && (i in s.retry ==> !s.retry[i].held && s.retry[i].blocked.None?)
    && (s.cutover ==> s.jobs[i].authorized)
  }

  /** Since when it waits: its lease ran out, its retry came due, or it was requested. */
  ghost function WaitsSince(j: Job): int {
    match j.status case Running => j.leaseExpires case FailedRecoverable => (if j.retryAt.Some? then j.retryAt.value else 0) case _ => j.requestedAt
  }

  /** Broken leases come first, then retries, then new jobs; among equals the longest waiting, then the least tried, then the oldest. */
  ghost predicate GoesFirst(s: Db, i: nat, j: nat)
    requires i < |s.jobs| && j < |s.jobs|
  {
    var a, b := s.jobs[i], s.jobs[j];
    if a.status != b.status then a.status == Running || b.status == Queued
    else if WaitsSince(a) != WaitsSince(b) then WaitsSince(a) < WaitsSince(b)
    else if a.attempts != b.attempts then a.attempts < b.attempts
    else i <= j
  }

  ghost predicate FirstReady(s: Db, i: nat, now: int) {
    Ready(s, i, now) && forall j | 0 <= j < |s.jobs| && Ready(s, j, now) :: GoesFirst(s, i, j)
  }

  lemma ReadyIsEligible(s: Db, i: nat, now: int)
    requires Inv(s)
    ensures Ready(s, i, now) <==> CodexEligible(s, i, now)
  {
    if i < |s.jobs| { assert LiveJobOk(s, s.jobs[i]); }
  }

  /** The job that comes first is well defined, and it is the one chosen. */
  lemma {:induction false} FirstIsChosen(s: Db, i: nat, now: int)
    requires Inv(s)
    ensures FirstReady(s, i, now) <==> MostUrgent(s, now, |s.jobs|) == Some(i)
    ensures MostUrgent(s, now, |s.jobs|).None? <==> forall j: nat :: !Ready(s, j, now)
  {
    var best := MostUrgent(s, now, |s.jobs|);
    forall j: nat ensures Ready(s, j, now) <==> CodexEligible(s, j, now) { ReadyIsEligible(s, j, now); }
    if best.Some? {
      forall j | 0 <= j < |s.jobs| && Ready(s, j, now) ensures GoesFirst(s, best.value, j) {
        assert best.value == j || Before(s, best.value, j, now);
      }
      if FirstReady(s, i, now) { assert GoesFirst(s, i, best.value) && GoesFirst(s, best.value, i); }
    }
  }

  /** A Codex start is granted if and only if the job comes first and the provider is not paused. */
  lemma {:induction false} CodexStartGrantedExactly(s: Db, job: nat, now: int, token: nat, sourcesBound: bool)
    requires Inv(s)
    ensures var (u, got) := StartCodex(s, job, now, token, sourcesBound);
            && (got.Some? <==> token !in s.issued && sourcesBound && s.paused.None? && FirstReady(s, job, now))
            && (got.None? ==> u == s)
            && (got.Some? ==> got.value.token == token && got.value.job == job && Started(s, u, got.value, now))
  {
    FirstIsChosen(s, job, now);
    if StartCodex(s, job, now, token, sourcesBound).1.Some? && s.jobs[job].status != Running { IdleHasNoOpenAttempt(s, job); }
  }

  lemma IdleHasNoOpenAttempt(s: Db, job: nat)
    requires LeasesOk(s) && job < |s.jobs| && s.jobs[job].status in {Queued, FailedRecoverable}
    ensures forall a | 0 <= a < |s.provider| && s.provider[a].job == job :: s.provider[a].outcome.Some?
  {
    assert JobOk(s, s.jobs[job]);
    forall a | 0 <= a < |s.provider| && s.provider[a].job == job ensures s.provider[a].outcome.Some? { assert AttemptOk(s, s.provider[a]); }
  }

  /** A queued job that no provider has, authorized if the cutover demands it. */
  ghost predicate Free(s: Db, i: nat) {
    i < |s.jobs| && !s.jobs[i].bound && s.jobs[i].status == Queued && (s.cutover ==> s.jobs[i].authorized)
  }

  ghost predicate FirstFree(s: Db, i: nat) {
    Free(s, i) && forall j | 0 <= j < |s.jobs| && Free(s, j) ::
      s.jobs[i].requestedAt < s.jobs[j].requestedAt || (s.jobs[i].requestedAt == s.jobs[j].requestedAt && i <= j)
  }

  lemma FirstFreeIsChosen(s: Db, i: nat)
    requires Inv(s)
    ensures OldestUnbound(s, |s.jobs|) == Some(i) ==> FirstFree(s, i)
    ensures OldestUnbound(s, |s.jobs|).None? <==> forall j: nat :: !Free(s, j)
  {
    forall j: nat ensures Free(s, j) <==> Bindable(s, j) { if j < |s.jobs| { assert LiveJobOk(s, s.jobs[j]); } }
  }

  /** Unless paused, Codex is given the job that comes first; if none is ready, the first free job, which it then owns. */
  lemma {:induction false} CodexIsGivenExactly(s: Db, now: int)
    requires Inv(s)
    ensures var (u, got) := SelectCodex(s, now);
            && SameDesk(s, u) && SameControl(s, u) && u.provider == s.provider && u.issued == s.issued
            && (s.paused.Some? ==> got.None?)
            && (s.paused.None? && got.None? ==> forall j: nat :: !Ready(s, j, now) && !Free(s, j))
            && (got.None? ==> u == s)
            && (got.Some? ==> if Ready(s, got.value, now) then FirstReady(s, got.value, now) && u == s
                              else (forall j: nat :: !Ready(s, j, now)) && FirstFree(s, got.value)
                                   && OnlyJob(s, u, got.value, s.jobs[got.value].(bound := true)))
  {
    var got := SelectCodex(s, now).1;
    FirstIsChosen(s, if got.Some? then got.value else 0, now);
    FirstFreeIsChosen(s, if got.Some? then got.value else 0);
  }

  // ---------------------------------------------------------------- failures

  /** A failed attempt ends, and its job waits for this time. */
  ghost predicate FailedUntil(s: Db, u: Db, k: Ticket, retryAt: Option<int>) {
    && k.job < |s.jobs|
    && OnlyJob(s, u, k.job, s.jobs[k.job].(status := FailedRecoverable, retryAt := retryAt, token := None))
    && AttemptEnds(s, u, k.attempt, Failed) && SameDesk(s, u) && u.issued == s.issued
  }

  /** On the first path a failure is due again at once, if and only if the lease was still held. */
  lemma FailureIsRetriedExactly(s: Db, k: Ticket, now: int)
    requires Inv(s)
    ensures if HoldsLease(s, k, false) then FailedUntil(s, FailSelected(s, k, now), k, Some(now)) && SameControl(s, FailSelected(s, k, now))
            else FailSelected(s, k, now) == s
  {
    if HoldsLease(s, k, false) { LeasedFacts(s, k); }
  }

  /** How many failures in a row the operator must look at. */
  function Patience(code: FailureCode): nat {
    match code
    case Busy => 10
    case Timeout => 5
    case Nonzero => 5
    case InputLimit => 2
    case OutputLimit => 2
    case InvalidDraft => 2
    case Pausing(_) => 0
  }

  /** The first delay in seconds. */
  function FirstDelay(code: FailureCode): nat {
    match code case Busy => 30 case Timeout => 60 case Nonzero => 60 case _ => 300
  }

  /** The provider takes its pause: the reason, the next version, and one event that says so. */
  ghost predicate PausedNow(s: Db, u: Db, reason: PauseReason) {
    && u.paused == Some(reason) && u.version == s.version + 1
    && u.events == s.events + [ControlEvent(true, s.version, s.version + 1)]
  }

  /** One failure more is on the job's count, which makes it held or blocked like this; no other job's count changes. */
  ghost predicate Counted(s: Db, u: Db, job: nat, held: bool, blocked: Option<Block>) {
    && job in u.retry
    && u.retry[job].failures == (if job in s.retry then s.retry[job].failures else 0) + 1
    && u.retry[job].version == (if job in s.retry then s.retry[job].version else 1) + 1
    && u.retry[job].held == held && u.retry[job].blocked == blocked
    && u.retry.Keys == s.retry.Keys + {job} && forall j | j in s.retry && j != job :: u.retry[j] == s.retry[j]
  }

  /**
    A Codex failure is settled if and only if the lease was still held, and a pausing one found no pause in force.
    It pauses the provider and blocks the job, or holds it when patience ends, or has it retried.
   */
  lemma {:induction false} CodexFailureExactly(s: Db, k: Ticket, code: FailureCode, now: int, seed: nat)
    requires Inv(s)
    ensures var (u, ok) := FailCodex(s, k, code, now, seed);
            && (ok <==> HoldsLease(s, k, true) && !(code.Pausing? && s.paused.Some?))
            && (!ok ==> u == s)
            && (ok ==> CodexFailed(s, u, k, code, now, Jitter(seed)))
  {
    if HoldsLease(s, k, true) {
      LeasedFacts(s, k);
      if !(code.Pausing? && s.paused.Some?) { CodexFails(s, k, code, now, seed); }
    }
  }

  /** The job's failures, this one included. */
  ghost function FailuresWith(s: Db, job: nat): nat { (if job in s.retry then s.retry[job].failures else 0) + 1 }

  ghost function BlockOf(s: Db, job: nat): Option<Block> { if job in s.retry then s.retry[job].blocked else None }

  ghost predicate WasHeld(s: Db, job: nat) { job in s.retry && s.retry[job].held }

  ghost predicate CodexFailed(s: Db, u: Db, k: Ticket, code: FailureCode, now: int, jitter: nat) {
    var n := FailuresWith(s, k.job);
    && u.cutover == s.cutover
    && if code.Pausing? then
         && PausedNow(s, u, code.reason) && FailedUntil(s, u, k, None)
         && Counted(s, u, k.job, WasHeld(s, k.job), Some(Block(s.version + 1, code.reason)))
       else
         && u.paused == s.paused && u.version == s.version && u.events == s.events
         && Counted(s, u, k.job, WasHeld(s, k.job) || n >= Patience(code), BlockOf(s, k.job))
         && FailedUntil(s, u, k, if n >= Patience(code) then None else Some(now + Backoff(code, n, jitter) * SECOND_US))
  }

  /** Deterministic failures wait a fixed time; the others twice as long each time, up to fifteen minutes, and the jitter. */
  ghost function Backoff(code: FailureCode, n: nat, jitter: nat): int {
    if FirstDelay(code) == 300 then 300 else jitter + Doubled(FirstDelay(code), n - 1, if code == Busy then 900 else 3600)
  }

  ghost function Doubled(first: nat, times: int, cap: nat): nat
    decreases times
  {
    if times <= 0 then first else if 2 * Doubled(first, times - 1, cap) > cap then cap else 2 * Doubled(first, times - 1, cap)
  }

  lemma {:induction false} DoubledIsCapped(times: nat)
    ensures Doubled(30, times, 900) == Min(900, 30 * Pow2(times)) && Doubled(60, times, 3600) == Min(3600, 60 * Pow2(times))
  {
    if times > 0 { DoubledIsCapped(times - 1); }
  }

  lemma DelaysDouble(code: FailureCode, n: nat, jitter: nat)
    requires 1 <= n < Patience(code)
    ensures !Holds(code, n) && Delay(code, n, jitter) == Backoff(code, n, jitter)
  {
    DoubledIsCapped(n - 1);
  }

  lemma CodexFails(s: Db, k: Ticket, code: FailureCode, now: int, seed: nat)
    requires HoldsLease(s, k, true) && s.provider[k.attempt].outcome.None? && !(code.Pausing? && s.paused.Some?)
    ensures CodexFailed(s, FailCodex(s, k, code, now, seed).0, k, code, now, Jitter(seed))
  {
    var n := FailuresWith(s, k.job);
    if !code.Pausing? && n < Patience(code) { DelaysDouble(code, n, Jitter(seed)); }
    var u := FailCodex(s, k, code, now, seed).0;
    assert u.retry.Keys == s.retry.Keys + {k.job};
  }

  // ---------------------------------------------------------------- operators

  /** An operator's pause is in force if and only if none was, and the operator saw the present version. */
  lemma PauseExactly(s: Db, expected: nat, reason: PauseReason)
    ensures var u := PauseProvider(s, expected, reason);
            if s.version == expected && s.paused.None?
            then PausedNow(s, u, reason) && u.(paused := s.paused, version := s.version, events := s.events) == s
            else u == s
  {
  }

  /** A resume is granted if and only if it names the remedy of the pause in force, and its version. */
  lemma ResumeGrantedExactly(s: Db, expected: nat, resume: ResumeReason, now: int)
    ensures var u := ResumeProvider(s, expected, resume, now);
            if s.version == expected && s.paused.Some? && Remedies(resume, s.paused.value)
            then u.paused.None? && u.version == s.version + 1 && u.events == s.events + [ControlEvent(false, s.version, s.version + 1)]
            else u == s
  {
  }

  predicate Remedies(resume: ResumeReason, pause: PauseReason) {
    match resume
    case AuthRestored => pause == AuthUnavailable
    case AttestationPassed => pause == RunnerAttestation
    case SecurityReviewed => pause == SecurityHold
    case MaintenanceComplete => pause == Maintenance
    case ConfigRepaired => pause in {RunnerConfig, Supervisor, UnknownExit, OuterTimeout}
  }

  /** A live job of Codex that has failed before. */
  ghost predicate Controllable(s: Db, job: nat) {
    && job < |s.jobs| && s.jobs[job].bound && s.jobs[job].status in {Queued, Running, FailedRecoverable} && job in s.retry
  }

  /** Only the retry state of this job is another now. */
  ghost predicate OnlyRetry(s: Db, u: Db, job: nat, held: bool, failures: nat) {
    && u.(jobs := s.jobs, retry := s.retry) == s && u.retry.Keys == s.retry.Keys && job in s.retry
    && u.retry[job] == s.retry[job].(held := held, failures := failures, version := s.retry[job].version + 1)
    && forall j | j in s.retry && j != job :: u.retry[j] == s.retry[j]
  }

  /** A hold takes what is not held; its release starts the count anew and, with no pause in force, has a failed job due. */
  lemma HoldsAndReleasesExactly(s: Db, job: nat, now: int)
    ensures if Controllable(s, job) && !s.retry[job].held
            then OnlyRetry(s, HoldJob(s, job), job, true, s.retry[job].failures) && HoldJob(s, job).jobs == s.jobs
            else HoldJob(s, job) == s
    ensures if Controllable(s, job) && s.retry[job].held
            then && OnlyRetry(s, ReleaseJob(s, job, now), job, false, 0)
                 && (if s.jobs[job].status == FailedRecoverable && s.paused.None?
                     then OnlyJob(s, ReleaseJob(s, job, now), job, s.jobs[job].(retryAt := Some(now)))
                     else ReleaseJob(s, job, now).jobs == s.jobs)
            else ReleaseJob(s, job, now) == s
  {
  }
}
