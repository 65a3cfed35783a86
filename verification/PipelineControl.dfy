/** Provider pauses, retry delays, holds, and when a failed job is left without anything to wake it. */
module PipelineControl {
  import opened Common
  import opened PipelineModel
  import opened PipelineInvariant
  import opened PipelineSteps

  // ---------------------------------------------------------------- pauses

  /**
    After every run: versions count up without a gap, pauses and resumes alternate, every blocked live job
    carries the version and reason of the pause in force, and while active no live job is blocked.
   */
  lemma {:induction false} ControlChain(calls: seq<Call>)
    ensures var s := Run(EmptyDb(), calls);
            && s.version == FIRST_VERSION + |s.events| && (s.paused.Some? <==> |s.events| % 2 == 1)
            && (forall i | 0 <= i < |s.events| ::
                  s.events[i].pause == (i % 2 == 0) && s.events[i].previous == FIRST_VERSION + i
                  && s.events[i].resulting == FIRST_VERSION + i + 1)
            && (forall job | job in s.retry && job < |s.jobs| && Live(s.jobs[job].status) && s.retry[job].blocked.Some? ::
                  s.paused.Some? && s.retry[job].blocked.value == Block(s.version, s.paused.value))
  {
    var s := Run(EmptyDb(), calls);
    InitInv();
    RunKeeps(EmptyDb(), calls);
    forall job | job in s.retry && job < |s.jobs| && Live(s.jobs[job].status) && s.retry[job].blocked.Some?
      ensures s.paused.Some? && s.retry[job].blocked.value == Block(s.version, s.paused.value)
    {
      assert BlockOk(s, job);
    }
  }

  ghost predicate Blocked(s: Db, job: nat) {
    job < |s.jobs| && Live(s.jobs[job].status) && job in s.retry && s.retry[job].blocked.Some?
  }

  /** A resume makes due exactly the live jobs that its pause blocked, and leaves none blocked. */
  lemma ResumeFreesExactlyTheBlocked(s: Db, expected: nat, resume: ResumeReason, now: int, job: nat)
    requires Inv(s) && ResumeProvider(s, expected, resume, now) != s && job < |s.jobs|
    ensures var t := ResumeProvider(s, expected, resume, now);
            && t.paused.None? && t.version == s.version + 1 && |t.jobs| == |s.jobs| && !Blocked(t, job)
            && (if Blocked(s, job)
                then t.jobs[job] == s.jobs[job].(retryAt := Some(now)) && s.jobs[job].retryAt.None?
                else t.jobs[job] == s.jobs[job])
  {
    var t := ResumeProvider(s, expected, resume, now);
    if job in s.retry { assert BlockOk(s, job); }
    if job in s.retry && Live(s.jobs[job].status) { FreedAreTheBlocked(s, job); }
    ResumeProviderKeeps(s, expected, resume, now);
    if job in t.retry && Live(t.jobs[job].status) { ActiveMeansUnblocked(t, job); }
  }

  // ---------------------------------------------------------------- delays

  /** A scheduled retry is 30 to 930 seconds away; the 1800 second delay and the 3600 second cap never apply. */
  lemma RetryDelayBounds(code: FailureCode, failures: nat, jitter: nat)
    requires failures >= 1 && jitter < 31 && !code.Pausing? && !Holds(code, failures)
    ensures failures <= 9 && 30 <= Delay(code, failures, jitter) <= 930
    ensures Deterministic(code) ==> Delay(code, failures, jitter) == 300
    ensures code in {Timeout, Nonzero} ==> Delay(code, failures, jitter) == 60 * Pow2(failures - 1) + jitter < 600
  {
    if code != Busy {
      assert Pow2(0) == 1 && Pow2(1) == 2 && Pow2(2) == 4 && Pow2(3) == 8;
    } else {
      Pow2Positive(failures - 1);
    }
  }

  lemma {:induction false} Pow2Positive(n: nat)
    ensures Pow2(n) >= 1
  {
    if n > 0 { Pow2Positive(n - 1); }
  }

  /** What a settlement of the current leaseholder does: a block, a hold, or a retry 30 to 930 seconds ahead. */
  lemma SettlementSchedules(s: Db, k: Ticket, code: FailureCode, now: int, seed: nat)
    requires FailCodex(s, k, code, now, seed).1
    ensures var t := FailCodex(s, k, code, now, seed).0;
            && k.job in t.retry && k.job < |t.jobs| && t.jobs[k.job].status == FailedRecoverable
            && t.retry[k.job].failures == RetryOf(s, k.job).failures + 1
            && (code.Pausing? <==> t.paused != s.paused)
            && (t.jobs[k.job].retryAt.None? <==> code.Pausing? || Holds(code, t.retry[k.job].failures))
            && (code.Pausing? ==> t.retry[k.job].blocked.Some?)
            && (!code.Pausing? && Holds(code, t.retry[k.job].failures) ==> t.retry[k.job].held)
            && (t.jobs[k.job].retryAt.Some? ==>
                  && t.retry[k.job].failures <= 9
                  && now + 30 * SECOND_US <= t.jobs[k.job].retryAt.value <= now + 930 * SECOND_US)
  {
    var failures := RetryOf(s, k.job).failures + 1;
    if !code.Pausing? && !Holds(code, failures) { RetryDelayBounds(code, failures, Jitter(seed)); }
  }

  // ---------------------------------------------------------------- stranding

  /** A failed job that no clock, no operator hold and no provider resume will bring back. */
  ghost predicate Stranded(s: Db, job: nat) {
    && job < |s.jobs| && s.jobs[job].status == FailedRecoverable && s.jobs[job].retryAt.None?
    && !RetryOf(s, job).held && RetryOf(s, job).blocked.None?
  }

  ghost predicate NoneStranded(s: Db) { forall job: nat :: !Stranded(s, job) }

  /** The one call that strands: releasing a held, unblocked, failed job without a due time while the provider is paused. */
  ghost predicate StrandsByRelease(s: Db, c: Call) {
    && c.Operator? && c.operator.CallRelease? && RetryControllable(s, c.operator.job)
    && s.retry[c.operator.job].held && s.retry[c.operator.job].blocked.None? && s.paused.Some?
    && s.jobs[c.operator.job].status == FailedRecoverable && s.jobs[c.operator.job].retryAt.None?
  }

  /** Nobody strands while failed jobs and retry states are only carried over. */
  lemma CarriedOver(s: Db, t: Db)
    requires NoneStranded(s) && t.retry == s.retry
    requires forall i | 0 <= i < |t.jobs| && t.jobs[i].status == FailedRecoverable && t.jobs[i].retryAt.None? ::
               i < |s.jobs| && s.jobs[i] == t.jobs[i].(bound := s.jobs[i].bound)
    ensures NoneStranded(t)
  {
    forall job: nat ensures !Stranded(t, job) { assert !Stranded(s, job); }
  }

  lemma DeskStrandsNobody(s: Db, c: DeskCall)
    requires NoneStranded(s)
    ensures NoneStranded(DeskStep(s, c))
  {
    var t := DeskStep(s, c);
    if c.CallApply? { ApplyFailsNothing(s, c.t, c.e, c.now); }
    CarriedOver(s, t);
  }

  /** Desk calls touch no failed job, except to cancel it. */
  ghost predicate FailsNothing(s: Db, t: Db) {
    t.retry == s.retry
    && forall i | 0 <= i < |t.jobs| && t.jobs[i].status == FailedRecoverable :: i < |s.jobs| && s.jobs[i] == t.jobs[i]
  }

  lemma MakeFailsNothing(s: Db, k: CallbackToken, now: int)
    requires k.candidate < |s.candidates| && k.digest < |s.digests|
    ensures FailsNothing(s, MakeSelection(s, k, now)) && FailsNothing(s, Rework(s, k, now))
  {
  }

  lemma ApplyFailsNothing(s: Db, t: nat, e: Circumstances, now: int)
    ensures FailsNothing(s, Apply(s, t, e, now))
  {
    if t < |s.tokens| && TokenFits(s, s.tokens[t], e) {
      ConsumeEvolves(s, t);
      assert TokenEvolves(s.tokens[t], Consume(s, t).tokens[t]);
      MakeFailsNothing(Consume(s, t), Consume(s, t).tokens[t], now);
    }
  }

  lemma StartsStrandNobody(s: Db, candidate: nat, job: nat, now: int, token: nat, sourcesBound: bool)
    requires NoneStranded(s)
    ensures NoneStranded(StartSelected(s, candidate, now, token, sourcesBound).0)
    ensures NoneStranded(StartCodex(s, job, now, token, sourcesBound).0)
  {
    CarriedOver(s, StartSelected(s, candidate, now, token, sourcesBound).0);
    CarriedOver(s, StartCodex(s, job, now, token, sourcesBound).0);
  }

  lemma SelectedStrandNobody(s: Db, k: Ticket, content: nat, now: int)
    requires NoneStranded(s)
    ensures NoneStranded(FailSelected(s, k, now)) && NoneStranded(CommitSelected(s, k, content))
  {
    CarriedOver(s, FailSelected(s, k, now));
    CarriedOver(s, CommitSelected(s, k, content));
  }

  lemma CodexStrandsNobody(s: Db, k: Ticket, code: FailureCode, content: nat, now: int, seed: nat)
    requires NoneStranded(s)
    ensures NoneStranded(FailCodex(s, k, code, now, seed).0) && NoneStranded(CommitCodex(s, k, content))
  {
    var t, u := FailCodex(s, k, code, now, seed).0, CommitCodex(s, k, content);
    if FailCodex(s, k, code, now, seed).1 {
      SettlementSchedules(s, k, code, now, seed);
      forall job: nat ensures !Stranded(t, job) { assert !Stranded(s, job); }
    }
    forall job: nat ensures !Stranded(u, job) { assert !Stranded(s, job); }
  }

  lemma WorkerStrandsNobody(s: Db, c: WorkerCall)
    requires NoneStranded(s)
    ensures NoneStranded(WorkerStep(s, c))
  {
    match c
    case CallStartSelected(candidate, now, token, bound) => StartsStrandNobody(s, candidate, 0, now, token, bound);
    case CallFailSelected(k, now) => SelectedStrandNobody(s, k, 0, now);
    case CallCommitSelected(k, content) => SelectedStrandNobody(s, k, content, 0);
    case CallSelectCodex(now) => CarriedOver(s, SelectCodex(s, now).0);
    case CallStartCodex(job, now, token, bound) => StartsStrandNobody(s, 0, job, now, token, bound);
    case CallFailCodex(k, code, now, seed) => CodexStrandsNobody(s, k, code, 0, now, seed);
    case CallCommitCodex(k, content) => CodexStrandsNobody(s, k, Busy, content, 0, 0);
  }

  lemma OperatorStrands(s: Db, c: OperatorCall)
    requires NoneStranded(s) && BlocksOk(s)
    ensures NoneStranded(OperatorStep(s, c)) <==> !StrandsByRelease(s, Operator(c))
  {
    var t := OperatorStep(s, c);
    if StrandsByRelease(s, Operator(c)) {
      assert Stranded(t, c.job);
    } else {
      forall job: nat ensures !Stranded(t, job) {
        assert !Stranded(s, job);
        assert job in s.retry ==> BlockOk(s, job);
      }
    }
  }

  /** From any reachable state, a call strands a failed job if and only if it is that release during a pause. */
  lemma StrandedOnlyByReleaseDuringPause(s: Db, c: Call)
    requires Inv(s) && NoneStranded(s)
    ensures NoneStranded(Step(s, c)) <==> !StrandsByRelease(s, c)
  {
    match c
    case Desk(d) => DeskStrandsNobody(s, d);
    case Worker(w) => WorkerStrandsNobody(s, w);
    case Operator(o) => OperatorStrands(s, o);
  }

  /** No call of the run is a release during a pause. */
  ghost predicate NoPausedRelease(s: Db, calls: seq<Call>) {
    forall n | 0 <= n < |calls| :: !StrandsByRelease(Run(s, calls[..n]), calls[n])
  }

  /** Such a run leaves every failed job with a due time, a hold or a block. */
  lemma {:induction false} NeverStranded(calls: seq<Call>)
    requires NoPausedRelease(EmptyDb(), calls)
    ensures NoneStranded(Run(EmptyDb(), calls))
    decreases |calls|
  {
    if calls != [] {
      var front := calls[..|calls| - 1];
      forall n | 0 <= n < |front| ensures !StrandsByRelease(Run(EmptyDb(), front[..n]), front[n]) {
        assert front[..n] == calls[..n];
        assert !StrandsByRelease(Run(EmptyDb(), calls[..n]), calls[n]);
      }
      NeverStranded(front);
      InitInv();
      RunKeeps(EmptyDb(), front);
      StrandedOnlyByReleaseDuringPause(Run(EmptyDb(), front), calls[|calls| - 1]);
    }
  }

  // ---------------------------------------------------------------- failure counts

  /** More than nine consecutive failures with neither a hold nor a block. */
  ghost predicate Overdrawn(s: Db, job: nat) {
    job < |s.jobs| && Live(s.jobs[job].status) && job in s.retry
    && s.retry[job].failures > 9 && !s.retry[job].held && s.retry[job].blocked.None?
  }

  ghost predicate NoneOverdrawn(s: Db) { forall job: nat :: !Overdrawn(s, job) }

  /** A resume that frees an unheld job whose pause came as its tenth or later failure. */
  ghost predicate OverdrawsByResume(s: Db, c: Call) {
    && c.Operator? && c.operator.CallResumeProvider?
    && s.version == c.operator.expected && s.paused.Some? && ResumeReasonFor(s.paused.value) == c.operator.resume
    && exists job: nat :: job in s.retry && FreedBy(s, job, s.version, s.paused.value)
                          && s.retry[job].failures > 9 && !s.retry[job].held
  }

  lemma SameRetries(s: Db, t: Db)
    requires NoneOverdrawn(s) && t.retry == s.retry && Evolves(s, t) && BlocksOk(s)
    ensures NoneOverdrawn(t)
  {
    forall job: nat ensures !Overdrawn(t, job) {
      assert !Overdrawn(s, job);
      assert job in s.retry ==> BlockOk(s, job);
      if job < |s.jobs| { assert JobEvolves(s.jobs[job], t.jobs[job]); }
    }
  }

  lemma CodexOverdrawsNobody(s: Db, k: Ticket, code: FailureCode, content: nat, now: int, seed: nat)
    requires NoneOverdrawn(s)
    ensures NoneOverdrawn(FailCodex(s, k, code, now, seed).0) && NoneOverdrawn(CommitCodex(s, k, content))
  {
    var t, u := FailCodex(s, k, code, now, seed).0, CommitCodex(s, k, content);
    if FailCodex(s, k, code, now, seed).1 {
      SettlementSchedules(s, k, code, now, seed);
      forall job: nat ensures !Overdrawn(t, job) { assert !Overdrawn(s, job); }
    }
    forall job: nat ensures !Overdrawn(u, job) { assert !Overdrawn(s, job); }
  }

  lemma WorkerOverdrawsNobody(s: Db, c: WorkerCall)
    requires NoneOverdrawn(s) && BlocksOk(s)
    ensures NoneOverdrawn(WorkerStep(s, c))
  {
    match c
    case CallFailCodex(k, code, now, seed) => CodexOverdrawsNobody(s, k, code, 0, now, seed);
    case CallCommitCodex(k, content) => CodexOverdrawsNobody(s, k, Busy, content, 0, 0);
    case _ =>
      WorkerStepEvolves(s, c);
      SameRetries(s, WorkerStep(s, c));
  }

  lemma DeskOverdrawsNobody(s: Db, c: DeskCall)
    requires NoneOverdrawn(s) && BlocksOk(s)
    ensures NoneOverdrawn(DeskStep(s, c))
  {
    DeskStepEvolves(s, c);
    assert DeskStep(s, c).retry == s.retry by { if c.CallApply? { ApplyFailsNothing(s, c.t, c.e, c.now); } }
    SameRetries(s, DeskStep(s, c));
  }

  lemma OperatorOverdraws(s: Db, c: OperatorCall)
    requires NoneOverdrawn(s) && BlocksOk(s)
    ensures NoneOverdrawn(OperatorStep(s, c)) <==> !OverdrawsByResume(s, Operator(c))
  {
    var t := OperatorStep(s, c);
    if OverdrawsByResume(s, Operator(c)) {
      var job: nat :| job in s.retry && FreedBy(s, job, s.version, s.paused.value) && s.retry[job].failures > 9 && !s.retry[job].held;
      assert Overdrawn(t, job);
    } else {
      forall job: nat ensures !Overdrawn(t, job) {
        assert !Overdrawn(s, job);
      }
    }
  }

  /** A call takes a job past nine failures without a hold or block if and only if it is such a resume. */
  lemma OverdrawnOnlyByResume(s: Db, c: Call)
    requires Inv(s) && NoneOverdrawn(s)
    ensures NoneOverdrawn(Step(s, c)) <==> !OverdrawsByResume(s, c)
  {
    match c
    case Desk(d) => DeskOverdrawsNobody(s, d);
    case Worker(w) => WorkerOverdrawsNobody(s, w);
    case Operator(o) => OperatorOverdraws(s, o);
  }

  /** No call of the run is such a resume. */
  ghost predicate NoOverdrawingResume(s: Db, calls: seq<Call>) {
    forall n | 0 <= n < |calls| :: !OverdrawsByResume(Run(s, calls[..n]), calls[n])
  }

  /** Such a run takes no job past nine failures without a hold or a block. */
  lemma {:induction false} NeverOverdrawn(calls: seq<Call>)
    requires NoOverdrawingResume(EmptyDb(), calls)
    ensures NoneOverdrawn(Run(EmptyDb(), calls))
    decreases |calls|
  {
    if calls != [] {
      var front := calls[..|calls| - 1];
      forall n | 0 <= n < |front| ensures !OverdrawsByResume(Run(EmptyDb(), front[..n]), front[n]) {
        assert front[..n] == calls[..n];
        assert !OverdrawsByResume(Run(EmptyDb(), calls[..n]), calls[n]);
      }
      NeverOverdrawn(front);
      InitInv();
      RunKeeps(EmptyDb(), front);
      OverdrawnOnlyByResume(Run(EmptyDb(), front), calls[|calls| - 1]);
    }
  }

  // ---------------------------------------------------------------- a run that overdraws

  const ROUND_US: nat := 1_000_000_000

  function MakeToken(): CallbackToken { CallbackToken(Selection, Make, 0, 1, 0, 1, 0, 0, 0, false, false) }

  /** A digest offers one candidate. */
  function Offer(): seq<Call> {
    [] + [Desk(CallAddCandidate(0, true))] + [Desk(CallCreateDigest(0, {}, false))] + [Desk(CallIssue(MakeToken()))]
  }

  function Choose(): Call { Desk(CallApply(0, Circumstances(true, true, true, true, true, true), 0)) }

  /** The candidate is chosen and its job bound to Codex. */
  function Setup(): seq<Call> { Offer() + [Choose()] + [Worker(CallSelectCodex(0))] }

  function StartRound(n: nat): Call { Worker(CallStartCodex(0, n * ROUND_US, n, true)) }

  function FailRound(n: nat, code: FailureCode): Call
    requires n > 0
  {
    Worker(CallFailCodex(Ticket(0, n, n - 1), code, n * ROUND_US, 0))
  }

  /** Then n attempts fail as busy, one every thousand seconds. */
  function BusyRounds(n: nat): seq<Call> {
    if n == 0 then Setup() else BusyRounds(n - 1) + [StartRound(n)] + [FailRound(n, Busy)]
  }

  /** Nine busy failures, a tenth that pauses the provider, and a resume. */
  function OverdrawingRun(): seq<Call> {
    BusyRounds(9) + [StartRound(10)] + [FailRound(10, Pausing(AuthUnavailable))]
    + [Operator(CallResumeProvider(FIRST_VERSION + 1, AuthRestored, 11 * ROUND_US))]
  }

  lemma Extend(s: Db, calls: seq<Call>, c: Call)
    ensures Run(s, calls + [c]) == Step(Run(s, calls), c)
  {
    assert (calls + [c])[..|calls|] == calls;
  }

  /** One bound job that has failed n times and is due for its next round. */
  ghost predicate OneBusyJob(s: Db, n: nat) {
    && |s.candidates| == 1 && s.candidates[0].status == GenerationPending && s.selections == [SelectionRow(0, 0)]
    && |s.jobs| == 1 && s.jobs[0].selection == 0 && s.jobs[0].bound && s.jobs[0].token.None?
    && (if n == 0 then s.jobs[0].status == Queued
        else s.jobs[0].status == FailedRecoverable && s.jobs[0].retryAt.Some? && s.jobs[0].retryAt.value <= (n + 1) * ROUND_US)
    && s.retry == (if n == 0 then map[] else map[0 := RetryState(n, false, None, n + 1)])
    && |s.provider| == n && s.paused.None? && s.version == FIRST_VERSION && !s.cutover
    && (forall token | token in s.issued :: token <= n)
  }

  lemma ChosenByToken(s: Db)
    requires s.candidates == [Candidate(0, PendingSelection, 1, Selection, 0)] && s.digests == [Digest(0, ActiveDigest, 1)]
    requires s.selections == [] && s.jobs == [] && s.tokens == [MakeToken()] && !s.cutover
    ensures var t := Apply(s, 0, Circumstances(true, true, true, true, true, true), 0);
            && t.jobs == [NewJob(s, 0, true, 0)] && t.selections == [SelectionRow(0, 0)]
            && t == s.(candidates := [Candidate(0, GenerationPending, 1, Selection, 0)], digests := t.digests,
                       selections := t.selections, jobs := t.jobs, tokens := t.tokens)
  {
    var s1 := Consume(s, 0);
    assert !HasInitialJob(s1, 0);
    assert ChosenFrom(s1, 0, 0).None?;
  }

  lemma BoundToCodex(s: Db)
    requires s.jobs == [NewJob(s, 0, true, 0)] && s.selections == [SelectionRow(0, 0)] && s.paused.None? && !s.cutover
    requires |s.candidates| == 1 && s.candidates[0].status == GenerationPending
    ensures SelectCodex(s, 0).0 == s.(jobs := [NewJob(s, 0, true, 0).(bound := true)])
  {
    assert MostUrgent(s, 0, 0).None? && MostUrgent(s, 0, 1).None?;
    assert OldestUnbound(s, 0).None? && OldestUnbound(s, 1) == Some(0);
  }

  function Offered(): Db {
    EmptyDb().(candidates := [Candidate(0, PendingSelection, 1, Selection, 0)], digests := [Digest(0, ActiveDigest, 1)],
               tokens := [MakeToken()])
  }

  lemma OfferRows()
    ensures Issue(CreateDigest(AddCandidate(EmptyDb(), 0, true), 0, {}, false), MakeToken()) == Offered()
  {
    var s1 := AddCandidate(EmptyDb(), 0, true);
    assert CreateDigest(s1, 0, {}, false).candidates == s1.candidates;
  }

  lemma OfferGives()
    ensures Run(EmptyDb(), Offer()) == Offered()
  {
    var a, b, c := Desk(CallAddCandidate(0, true)), Desk(CallCreateDigest(0, {}, false)), Desk(CallIssue(MakeToken()));
    Extend(EmptyDb(), [], a);
    Extend(EmptyDb(), [] + [a], b);
    Extend(EmptyDb(), [] + [a] + [b], c);
    OfferRows();
  }

  lemma SetupGives()
    ensures OneBusyJob(Run(EmptyDb(), Setup()), 0)
  {
    OfferGives();
    Extend(EmptyDb(), Offer(), Choose());
    Extend(EmptyDb(), Offer() + [Choose()], Worker(CallSelectCodex(0)));
    ChosenByToken(Run(EmptyDb(), Offer()));
    BoundToCodex(Run(EmptyDb(), Offer() + [Choose()]));
  }

  /** The next round leases the job under token n + 1. */
  lemma RoundStarts(s: Db, n: nat)
    requires OneBusyJob(s, n)
    ensures var t := Step(s, StartRound(n + 1));
            && t == s.(jobs := t.jobs, provider := t.provider, issued := s.issued + {n + 1}) && |t.jobs| == 1 && |t.provider| == n + 1
            && t.jobs[0].bound && t.jobs[0].selection == 0 && Leased(t, 0, n + 1)
            && t.provider[n].job == 0 && t.provider[n].token == n + 1 && t.provider[n].outcome.None?
  {
    var now := (n + 1) * ROUND_US;
    assert CodexEligible(s, 0, now);
    assert MostUrgent(s, now, 0).None?;
    assert MostUrgent(s, now, 1) == Some(0);
  }

  lemma RoundFails(s: Db, t: Db, n: nat)
    requires n < 9 && OneBusyJob(s, n) && t == Step(s, StartRound(n + 1))
    ensures OneBusyJob(Step(t, FailRound(n + 1, Busy)), n + 1)
  {
    RoundStarts(s, n);
    RetryDelayBounds(Busy, n + 1, 0);
    assert RetryOf(t, 0).failures == n;
  }

  lemma {:induction false} BusyRoundsGive(n: nat)
    requires n <= 9
    ensures OneBusyJob(Run(EmptyDb(), BusyRounds(n)), n)
  {
    if n == 0 {
      SetupGives();
    } else {
      BusyRoundsGive(n - 1);
      Extend(EmptyDb(), BusyRounds(n - 1), StartRound(n));
      Extend(EmptyDb(), BusyRounds(n - 1) + [StartRound(n)], FailRound(n, Busy));
      RoundFails(Run(EmptyDb(), BusyRounds(n - 1)), Run(EmptyDb(), BusyRounds(n - 1) + [StartRound(n)]), n - 1);
    }
  }

  lemma PauseThenResume(s: Db, t: Db)
    requires OneBusyJob(s, 9) && t == Step(s, StartRound(10))
    ensures var u := Step(Step(t, FailRound(10, Pausing(AuthUnavailable))),
                          Operator(CallResumeProvider(FIRST_VERSION + 1, AuthRestored, 11 * ROUND_US)));
            Overdrawn(u, 0) && u.retry[0].failures == 10 && u.jobs[0].retryAt == Some(11 * ROUND_US)
  {
    RoundStarts(s, 9);
    var p := Step(t, FailRound(10, Pausing(AuthUnavailable)));
    assert FreedBy(p, 0, FIRST_VERSION + 1, AuthUnavailable);
  }

  /** So "no job passes nine failures without a hold or block" is false of this run: its job is due with ten. */
  lemma OverdrawingRunExists()
    ensures var s := Run(EmptyDb(), OverdrawingRun());
            Overdrawn(s, 0) && s.retry[0].failures == 10 && s.jobs[0].retryAt == Some(11 * ROUND_US)
  {
    var c := BusyRounds(9);
    BusyRoundsGive(9);
    Extend(EmptyDb(), c, StartRound(10));
    Extend(EmptyDb(), c + [StartRound(10)], FailRound(10, Pausing(AuthUnavailable)));
    Extend(EmptyDb(), c + [StartRound(10)] + [FailRound(10, Pausing(AuthUnavailable))],
           Operator(CallResumeProvider(FIRST_VERSION + 1, AuthRestored, 11 * ROUND_US)));
    PauseThenResume(Run(EmptyDb(), c), Run(EmptyDb(), c + [StartRound(10)]));
  }

  /** Ten busy failures hold the job, the operator pauses the provider, and then releases the job. */
  function StrandingRun(): seq<Call> {
    BusyRounds(9) + [StartRound(10)] + [FailRound(10, Busy)] + [Operator(CallPause(FIRST_VERSION, Maintenance))]
    + [Operator(CallRelease(0, 0))]
  }

  lemma HeldThenReleased(s: Db, t: Db)
    requires OneBusyJob(s, 9) && t == Step(s, StartRound(10))
    ensures Stranded(Step(Step(Step(t, FailRound(10, Busy)), Operator(CallPause(FIRST_VERSION, Maintenance))), Operator(CallRelease(0, 0))), 0)
  {
    RoundStarts(s, 9);
    assert RetryOf(t, 0).failures == 9;
  }

  /** The stranding release is reachable. */
  lemma StrandingRunExists()
    ensures Stranded(Run(EmptyDb(), StrandingRun()), 0)
  {
    var c := BusyRounds(9);
    BusyRoundsGive(9);
    Extend(EmptyDb(), c, StartRound(10));
    Extend(EmptyDb(), c + [StartRound(10)], FailRound(10, Busy));
    Extend(EmptyDb(), c + [StartRound(10)] + [FailRound(10, Busy)], Operator(CallPause(FIRST_VERSION, Maintenance)));
    Extend(EmptyDb(), c + [StartRound(10)] + [FailRound(10, Busy)] + [Operator(CallPause(FIRST_VERSION, Maintenance))],
           Operator(CallRelease(0, 0)));
    HeldThenReleased(Run(EmptyDb(), c), Run(EmptyDb(), c + [StartRound(10)]));
  }
}
