/** What every reachable database of candidates, jobs and provider control satisfies. */
module PipelineInvariant {
  import opened Common
  import opened PipelineModel

  // ---------------------------------------------------------------- how rows may change over time

  ghost predicate JobEvolves(j: Job, n: Job) {
    && n.selection == j.selection && n.initial == j.initial
    && (j.bound ==> n.bound)
    && (!Live(j.status) ==> n == j)
  }

  ghost predicate GenerationEvolves(g: Generation, n: Generation) {
    && n.job == g.job && n.attempt == g.attempt && n.content == g.content
    && (n.current ==> g.current)
  }

  ghost predicate TokenEvolves(k: CallbackToken, n: CallbackToken) {
    && n == k.(consumed := n.consumed, revoked := n.revoked)
    && (k.consumed ==> n.consumed) && (k.revoked ==> n.revoked)
  }

  /** Rows are never removed; approved candidates, finished jobs, spent tokens and generation contents never change. */
  ghost predicate Evolves(s: Db, t: Db) {
    && |s.candidates| <= |t.candidates| && |s.digests| <= |t.digests|
    && (forall c | 0 <= c < |s.candidates| && s.candidates[c].status == Approved :: t.candidates[c] == s.candidates[c])
    && s.selections <= t.selections && s.handoffs <= t.handoffs && s.events <= t.events && s.issued <= t.issued
    && |s.jobs| <= |t.jobs|
    && (forall i | 0 <= i < |s.jobs| :: JobEvolves(s.jobs[i], t.jobs[i]))
    && |s.generations| <= |t.generations|
    && (forall g | 0 <= g < |s.generations| :: GenerationEvolves(s.generations[g], t.generations[g]))
    && |s.tokens| <= |t.tokens|
    && (forall k | 0 <= k < |s.tokens| :: TokenEvolves(s.tokens[k], t.tokens[k]))
    && AttemptsEvolve(s, t)
  }

  ghost predicate AttemptsEvolve(s: Db, t: Db) {
    && |s.provider| <= |t.provider|
    && (forall a | 0 <= a < |s.provider| :: s.provider[a].job == t.provider[a].job && s.provider[a].token == t.provider[a].token
                                            && s.provider[a].attempt == t.provider[a].attempt)
  }

  lemma EvolvesTransitive(s: Db, t: Db, u: Db)
    requires Evolves(s, t) && Evolves(t, u)
    ensures Evolves(s, u)
  {
    forall i | 0 <= i < |s.jobs| ensures JobEvolves(s.jobs[i], u.jobs[i]) {
      assert JobEvolves(s.jobs[i], t.jobs[i]) && JobEvolves(t.jobs[i], u.jobs[i]);
    }
    forall g | 0 <= g < |s.generations| ensures GenerationEvolves(s.generations[g], u.generations[g]) {
      assert GenerationEvolves(s.generations[g], t.generations[g]) && GenerationEvolves(t.generations[g], u.generations[g]);
    }
    forall k | 0 <= k < |s.tokens| ensures TokenEvolves(s.tokens[k], u.tokens[k]) {
      assert TokenEvolves(s.tokens[k], t.tokens[k]) && TokenEvolves(t.tokens[k], u.tokens[k]);
    }
  }

  lemma ConsumeEvolves(s: Db, t: nat)
    requires t < |s.tokens|
    ensures Evolves(s, Consume(s, t))
    ensures Consume(s, t).(tokens := s.tokens) == s && |Consume(s, t).tokens| == |s.tokens|
    ensures Consume(s, t).tokens[t].consumed
  {
  }

  lemma ActEvolves(s: Db, t: nat, now: int)
    requires t < |s.tokens| && s.tokens[t].candidate < |s.candidates| && s.tokens[t].digest < |s.digests|
    requires s.candidates[s.tokens[t].candidate].status != Approved
    ensures Evolves(s, Act(s, t, now))
  {
    var k := s.tokens[t];
    match k.action
    case Refresh =>
    case Defer(hours) => DecideEvolves(s, k, now, hours);
    case RejectAction => DecideEvolves(s, k, now, 0);
    case Make => MakeEvolves(s, k, now);
    case ApproveHandoff => ApproveEvolves(s, t);
    case Regenerate => ReworkEvolves(s, k, now);
    case PageChange => ReworkEvolves(s, k, now);
  }

  lemma DecideEvolves(s: Db, k: CallbackToken, now: int, hours: int)
    requires k.candidate < |s.candidates| && s.candidates[k.candidate].status != Approved
    ensures Evolves(s, DeferCandidate(s, k, now, hours)) && Evolves(s, SetCandidate(s, k.candidate, Rejected))
  {
  }

  lemma ApproveEvolves(s: Db, t: nat)
    requires t < |s.tokens| && s.tokens[t].candidate < |s.candidates| && s.tokens[t].digest < |s.digests|
    requires s.candidates[s.tokens[t].candidate].status != Approved
    ensures Evolves(s, Approve(s, t))
  {
  }

  lemma MakeEvolves(s: Db, k: CallbackToken, now: int)
    requires k.candidate < |s.candidates| && k.digest < |s.digests| && s.candidates[k.candidate].status != Approved
    ensures Evolves(s, MakeSelection(s, k, now))
  {
  }

  lemma ReworkEvolves(s: Db, k: CallbackToken, now: int)
    requires k.candidate < |s.candidates| && s.candidates[k.candidate].status != Approved
    ensures Evolves(s, Rework(s, k, now))
  {
  }

  lemma ApplyEvolves(s: Db, t: nat, e: Circumstances, now: int)
    ensures Evolves(s, Apply(s, t, e, now))
  {
    if t < |s.tokens| && TokenFits(s, s.tokens[t], e) {
      ConsumeEvolves(s, t);
      ActEvolves(Consume(s, t), t, now);
      EvolvesTransitive(s, Consume(s, t), Apply(s, t, e, now));
    }
  }

  lemma ResumeSetEvolves(s: Db, due: set<nat>, stale: set<nat>)
    requires forall c | c in due :: c < |s.candidates| && s.candidates[c].status == Deferred
    ensures Evolves(s, ResumeSet(s, due, stale))
  {
  }

  lemma InvalidateEvolves(s: Db, stale: set<nat>)
    ensures Evolves(s, Invalidate(s, stale))
  {
  }

  lemma CreateDigestEvolves(s: Db, run: nat, stale: set<nat>, reused: bool)
    ensures Evolves(s, CreateDigest(s, run, stale, reused))
  {
  }

  lemma LeaseJobEvolves(s: Db, job: nat, now: int, token: nat, provider: seq<ProviderAttempt>)
    requires job < |s.jobs| && Live(s.jobs[job].status) && AttemptsEvolve(s, s.(provider := provider))
    ensures Evolves(s, LeaseJob(s, job, now, token, provider).0)
  {
  }

  lemma StartSelectedEvolves(s: Db, candidate: nat, now: int, token: nat, sourcesBound: bool)
    ensures Evolves(s, StartSelected(s, candidate, now, token, sourcesBound).0)
  {
    var job := JobFor(s, candidate, now);
    if job.Some? { LeaseJobEvolves(s, job.value, now, token, CloseAttempts(s.provider, job.value, Abandoned)); }
  }

  lemma StartCodexEvolves(s: Db, job: nat, now: int, token: nat, sourcesBound: bool)
    ensures Evolves(s, StartCodex(s, job, now, token, sourcesBound).0)
  {
    if MostUrgent(s, now, |s.jobs|) == Some(job) {
      LeaseJobEvolves(s, job, now, token,
                      if s.jobs[job].status == Running then CloseAttempts(s.provider, job, Abandoned) else s.provider);
    }
  }

  lemma CompleteEvolves(s: Db, k: Ticket, attempt: nat, content: nat, reuse: bool)
    requires Leased(s, k.job, k.token)
    ensures Evolves(s, Complete(s, k, attempt, content, reuse))
  {
  }

  lemma FailJobEvolves(s: Db, k: Ticket, retryAt: Option<int>)
    requires Leased(s, k.job, k.token)
    ensures Evolves(s, FailJob(s, k, retryAt))
  {
  }

  /** The control columns are no part of what evolves. */
  lemma ControlEvolves(s: Db, m: Db, t: Db)
    requires Evolves(s, m) && m.events <= t.events
    requires t == m.(retry := t.retry, paused := t.paused, version := t.version, events := t.events)
    ensures Evolves(s, t)
  {
  }

  lemma FailCodexEvolves(s: Db, k: Ticket, code: FailureCode, now: int, seed: nat)
    ensures Evolves(s, FailCodex(s, k, code, now, seed).0)
  {
    var t := FailCodex(s, k, code, now, seed).0;
    if t != s {
      var m := FailJob(s, k, t.jobs[k.job].retryAt);
      FailJobEvolves(s, k, t.jobs[k.job].retryAt);
      ControlEvolves(s, m, t);
    }
  }

  lemma CommitCodexEvolves(s: Db, k: Ticket, content: nat)
    ensures Evolves(s, CommitCodex(s, k, content))
  {
    if GenuineFor(s, k, true) && Leased(s, k.job, k.token) {
      var m := Complete(s, k, s.provider[k.attempt].attempt, content, false);
      assert CommitCodex(s, k, content) == m.(retry := CommitCodex(s, k, content).retry);
      CompleteEvolves(s, k, s.provider[k.attempt].attempt, content, false);
      ControlEvolves(s, m, CommitCodex(s, k, content));
    }
  }

  lemma SettleSelectedEvolves(s: Db, k: Ticket, content: nat, now: int)
    ensures Evolves(s, FailSelected(s, k, now)) && Evolves(s, CommitSelected(s, k, content))
  {
    if GenuineFor(s, k, false) && Leased(s, k.job, k.token) {
      FailJobEvolves(s, k, Some(now));
      CompleteEvolves(s, k, s.jobs[k.job].attempts, content, HasCurrent(s, k.job));
    }
  }

  lemma FreeJobsEvolves(s: Db, version: nat, reason: PauseReason, now: int)
    ensures Evolves(s, FreeJobs(s, version, reason, now))
  {
  }

  lemma ResumeProviderEvolves(s: Db, expected: nat, resume: ResumeReason, now: int)
    ensures Evolves(s, ResumeProvider(s, expected, resume, now))
  {
    if s.paused.Some? {
      FreeJobsEvolves(s, s.version, s.paused.value, now);
      var t := ResumeProvider(s, expected, resume, now);
      if t != s { ControlEvolves(s, FreeJobs(s, s.version, s.paused.value, now), t); }
    }
  }

  lemma ReleaseEvolves(s: Db, job: nat, now: int)
    ensures Evolves(s, ReleaseJob(s, job, now))
  {
  }

  lemma SelectCodexEvolves(s: Db, now: int)
    ensures Evolves(s, SelectCodex(s, now).0)
  {
  }

  lemma HoldEvolves(s: Db, job: nat)
    ensures Evolves(s, HoldJob(s, job))
  {
  }

  lemma PauseEvolves(s: Db, expected: nat, reason: PauseReason)
    ensures Evolves(s, PauseProvider(s, expected, reason))
  {
  }

  lemma InsertEvolves(s: Db, run: nat, immediate: bool, k: CallbackToken)
    ensures Evolves(s, AddCandidate(s, run, immediate)) && Evolves(s, Issue(s, k)) && Evolves(s, s.(cutover := true))
  {
  }

  lemma ResumeEvolves(s: Db, now: int, stale: set<nat>)
    ensures Evolves(s, Resume(s, now, stale)) && Evolves(s, ResumeAuthorized(s, now, stale))
  {
    ResumeSetEvolves(s, (set i | 0 <= i < |s.candidates| && ResumeDue(s.candidates[i], now)), stale);
    ResumeSetEvolves(s, (set i | i in stale && i < |s.candidates| && ResumeDue(s.candidates[i], now)), {});
  }

  lemma DeskStepEvolves(s: Db, c: DeskCall)
    ensures Evolves(s, DeskStep(s, c))
  {
    match c
    case CallAddCandidate(run, immediate) => InsertEvolves(s, run, immediate, AnyToken());
    case CallCreateDigest(run, stale, reused) => CreateDigestEvolves(s, run, stale, reused);
    case CallIssue(k) => InsertEvolves(s, 0, true, k);
    case CallApply(t, e, now) => ApplyEvolves(s, t, e, now);
    case CallResume(now, stale) => ResumeEvolves(s, now, stale);
    case CallResumeAuthorized(now, recorded) => ResumeEvolves(s, now, recorded);
    case CallCutover => InsertEvolves(s, 0, true, AnyToken());
    case CallInvalidate(stale) => InvalidateEvolves(s, stale);
  }

  lemma WorkerStepEvolves(s: Db, c: WorkerCall)
    ensures Evolves(s, WorkerStep(s, c))
  {
    match c
    case CallStartSelected(candidate, now, token, bound) => StartSelectedEvolves(s, candidate, now, token, bound);
    case CallFailSelected(k, now) => SettleSelectedEvolves(s, k, 0, now);
    case CallCommitSelected(k, content) => SettleSelectedEvolves(s, k, content, 0);
    case CallSelectCodex(now) => SelectCodexEvolves(s, now);
    case CallStartCodex(job, now, token, bound) => StartCodexEvolves(s, job, now, token, bound);
    case CallFailCodex(k, code, now, seed) => FailCodexEvolves(s, k, code, now, seed);
    case CallCommitCodex(k, content) => CommitCodexEvolves(s, k, content);
  }

  lemma OperatorStepEvolves(s: Db, c: OperatorCall)
    ensures Evolves(s, OperatorStep(s, c))
  {
    match c
    case CallPause(expected, reason) => PauseEvolves(s, expected, reason);
    case CallResumeProvider(expected, resume, now) => ResumeProviderEvolves(s, expected, resume, now);
    case CallHold(job) => HoldEvolves(s, job);
    case CallRelease(job, now) => ReleaseEvolves(s, job, now);
  }

  lemma StepEvolves(s: Db, c: Call)
    ensures Evolves(s, Step(s, c))
  {
    match c
    case Desk(d) => DeskStepEvolves(s, d);
    case Worker(w) => WorkerStepEvolves(s, w);
    case Operator(o) => OperatorStepEvolves(s, o);
  }

  function AnyToken(): CallbackToken { CallbackToken(Selection, Refresh, 0, 0, 0, 0, 0, 0, 0, true, true) }

  // ---------------------------------------------------------------- the invariant

  ghost predicate JobOk(s: Db, j: Job) {
    && (j.token.Some? ==> j.token.value in s.issued && j.status in {Running, JobSuperseded})
    && (j.status == Running ==> j.token.Some?)
    && (j.status == FailedRecoverable && !j.bound ==> j.retryAt.Some?)
  }

  /** A provider attempt is open exactly while its job still carries its token. */
  ghost predicate AttemptOk(s: Db, p: ProviderAttempt) {
    && p.job < |s.jobs| && p.token in s.issued
    && (p.outcome.None? <==> s.jobs[p.job].token == Some(p.token))
  }

  ghost predicate LeasesOk(s: Db) {
    && (forall i | 0 <= i < |s.jobs| :: JobOk(s, s.jobs[i]))
    && (forall a | 0 <= a < |s.provider| :: AttemptOk(s, s.provider[a]))
    && (forall a, b | 0 <= a < b < |s.provider| :: s.provider[a].token != s.provider[b].token)
  }

  predicate Unselected(c: Candidate) { c.status == PendingSelection || (c.status == Deferred && c.stage == Selection) }

  ghost predicate SelectionOk(s: Db, row: SelectionRow) {
    && row.candidate < |s.candidates| && !Unselected(s.candidates[row.candidate])
    && row.digest < |s.digests| && s.digests[row.digest].status != ActiveDigest
  }

  ghost predicate SelectionsOk(s: Db) {
    && (forall i | 0 <= i < |s.selections| :: SelectionOk(s, s.selections[i]))
    && (forall i, j | 0 <= i < j < |s.selections| ::
          s.selections[i].candidate != s.selections[j].candidate && s.selections[i].digest != s.selections[j].digest)
  }

  /** A live job belongs to a candidate that awaits it. */
  ghost predicate LiveJobOk(s: Db, j: Job) {
    && j.selection < |s.selections|
    && s.selections[j.selection].candidate < |s.candidates|
    && (Live(j.status) ==> s.candidates[s.selections[j.selection].candidate].status == GenerationPending)
  }

  ghost predicate JobsOk(s: Db) {
    && (forall i | 0 <= i < |s.jobs| :: LiveJobOk(s, s.jobs[i]))
    && (forall i, j | 0 <= i < j < |s.jobs| && Live(s.jobs[i].status) && Live(s.jobs[j].status) ::
          s.jobs[i].selection != s.jobs[j].selection)
  }

  ghost predicate GenerationsOk(s: Db) {
    && (forall g | 0 <= g < |s.generations| ::
          s.generations[g].job < |s.jobs| && s.jobs[s.generations[g].job].status in {Succeeded})
    && (forall g, h | 0 <= g < h < |s.generations| :: s.generations[g].job != s.generations[h].job)
    && (forall g, h | 0 <= g < h < |s.generations| && s.generations[g].current && s.generations[h].current ::
          s.jobs[s.generations[g].job].selection != s.jobs[s.generations[h].job].selection)
    && (forall g, j | 0 <= g < |s.generations| && s.generations[g].current && 0 <= j < |s.jobs| && Live(s.jobs[j].status) ::
          s.jobs[s.generations[g].job].selection != s.jobs[j].selection)
  }

  /** The candidate that a generation is for. */
  ghost predicate GeneratedFor(s: Db, g: nat, candidate: nat) {
    && g < |s.generations| && s.generations[g].job < |s.jobs|
    && s.jobs[s.generations[g].job].selection < |s.selections|
    && s.selections[s.jobs[s.generations[g].job].selection].candidate == candidate
  }

  /** A handoff was approved by a spent token, and carries the generation whose content that token names. */
  ghost predicate HandoffOk(s: Db, h: Handoff) {
    && h.approval < |s.tokens|
    && var k := s.tokens[h.approval];
    && k.stage == Review && k.action == ApproveHandoff && k.consumed
    && k.generation == h.generation && GeneratedFor(s, h.generation, k.candidate)
    && s.generations[h.generation].content == k.content
    && k.candidate < |s.candidates| && s.candidates[k.candidate].status == Approved
  }

  ghost predicate HandedOff(s: Db, candidate: nat) {
    exists h | 0 <= h < |s.handoffs| :: s.handoffs[h].approval < |s.tokens| && s.tokens[s.handoffs[h].approval].candidate == candidate
  }

  ghost predicate HandoffsOk(s: Db) {
    && (forall h | 0 <= h < |s.handoffs| :: HandoffOk(s, s.handoffs[h]))
    && (forall h, i | 0 <= h < i < |s.handoffs| ::
          s.tokens[s.handoffs[h].approval].candidate != s.tokens[s.handoffs[i].approval].candidate)
    && (forall c | 0 <= c < |s.candidates| && s.candidates[c].status == Approved :: HandedOff(s, c))
  }

  /** Versions count up from the first without a gap, and pauses and resumes alternate. */
  ghost predicate ChainOk(s: Db) {
    && s.version == FIRST_VERSION + |s.events|
    && (s.paused.Some? <==> |s.events| % 2 == 1)
    && (forall i | 0 <= i < |s.events| ::
          s.events[i] == ControlEvent(i % 2 == 0, FIRST_VERSION + i, FIRST_VERSION + i + 1))
  }

  /** A blocked live job waits, without a due time, for exactly the pause that is in force. */
  ghost predicate BlockOk(s: Db, job: nat) {
    && job < |s.jobs| && s.jobs[job].bound
    && (job in s.retry && s.retry[job].blocked.Some? && Live(s.jobs[job].status) ==>
          && s.jobs[job].status == FailedRecoverable && s.jobs[job].retryAt.None?
          && s.paused.Some? && s.retry[job].blocked.value == Block(s.version, s.paused.value))
  }

  ghost predicate BlocksOk(s: Db) {
    forall job | job in s.retry :: BlockOk(s, job)
  }

  ghost predicate Inv(s: Db) {
    && LeasesOk(s) && SelectionsOk(s) && JobsOk(s) && GenerationsOk(s) && HandoffsOk(s) && ChainOk(s) && BlocksOk(s)
  }

  lemma InitInv()
    ensures Inv(EmptyDb())
  {
  }

  // ---------------------------------------------------------------- frames

  /** Selections stay in order while their candidates and digests never fall back to unselected. */
  lemma SelectionsFrame(s: Db, t: Db)
    requires SelectionsOk(s) && t.selections == s.selections
    requires |s.candidates| <= |t.candidates| && |s.digests| <= |t.digests|
    requires forall c | 0 <= c < |s.candidates| && Unselected(t.candidates[c]) :: Unselected(s.candidates[c])
    requires forall d | 0 <= d < |s.digests| && t.digests[d].status == ActiveDigest :: s.digests[d].status == ActiveDigest
    ensures SelectionsOk(t)
  {
    forall i | 0 <= i < |t.selections| ensures SelectionOk(t, t.selections[i]) { assert SelectionOk(s, s.selections[i]); }
  }

  /** Jobs stay in order while none is added or revived and every live one keeps its waiting candidate. */
  lemma JobsFrame(s: Db, t: Db)
    requires JobsOk(s) && t.selections == s.selections && |t.jobs| == |s.jobs| && |s.candidates| <= |t.candidates|
    requires forall i | 0 <= i < |s.jobs| ::
               t.jobs[i].selection == s.jobs[i].selection && (Live(t.jobs[i].status) ==> Live(s.jobs[i].status))
    requires forall i | 0 <= i < |s.jobs| && Live(t.jobs[i].status) && LiveJobOk(s, s.jobs[i]) ::
               t.candidates[s.selections[s.jobs[i].selection].candidate].status == GenerationPending
    ensures JobsOk(t)
  {
    forall i | 0 <= i < |t.jobs| ensures LiveJobOk(t, t.jobs[i]) { assert LiveJobOk(s, s.jobs[i]); }
  }

  /** Generations stay in order while jobs only die and generations only age. */
  lemma GenerationsFrame(s: Db, t: Db)
    requires GenerationsOk(s) && |t.generations| == |s.generations| && |t.jobs| == |s.jobs|
    requires forall g | 0 <= g < |s.generations| :: GenerationEvolves(s.generations[g], t.generations[g])
    requires forall i | 0 <= i < |s.jobs| ::
               && t.jobs[i].selection == s.jobs[i].selection && (Live(t.jobs[i].status) ==> Live(s.jobs[i].status))
               && (s.jobs[i].status == Succeeded ==> t.jobs[i].status == Succeeded)
    ensures GenerationsOk(t)
  {
    forall g | 0 <= g < |t.generations|
      ensures t.generations[g].job == s.generations[g].job && (t.generations[g].current ==> s.generations[g].current)
    {
      assert GenerationEvolves(s.generations[g], t.generations[g]);
    }
  }

  /** Handoffs stay in order while nobody else is approved. */
  lemma HandoffsFrame(s: Db, t: Db)
    requires HandoffsOk(s) && Evolves(s, t) && t.handoffs == s.handoffs
    requires forall c | 0 <= c < |t.candidates| && t.candidates[c].status == Approved :: c < |s.candidates| && s.candidates[c].status == Approved
    ensures HandoffsOk(t)
  {
    forall h | 0 <= h < |t.handoffs| ensures HandoffOk(t, t.handoffs[h]) { HandoffStays(s, t, s.handoffs[h]); }
    forall c | 0 <= c < |t.candidates| && t.candidates[c].status == Approved ensures HandedOff(t, c) {
      assert HandedOff(s, c);
      var h :| 0 <= h < |s.handoffs| && s.handoffs[h].approval < |s.tokens| && s.tokens[s.handoffs[h].approval].candidate == c;
      assert TokenEvolves(s.tokens[s.handoffs[h].approval], t.tokens[s.handoffs[h].approval]);
      assert t.handoffs[h].approval < |t.tokens| && t.tokens[t.handoffs[h].approval].candidate == c;
    }
    forall h, i | 0 <= h < i < |t.handoffs|
      ensures t.tokens[t.handoffs[h].approval].candidate != t.tokens[t.handoffs[i].approval].candidate
    {
      assert HandoffOk(s, s.handoffs[h]) && HandoffOk(s, s.handoffs[i]);
      assert TokenEvolves(s.tokens[s.handoffs[h].approval], t.tokens[s.handoffs[h].approval]);
      assert TokenEvolves(s.tokens[s.handoffs[i].approval], t.tokens[s.handoffs[i].approval]);
    }
  }

  lemma HandoffStays(s: Db, t: Db, h: Handoff)
    requires HandoffOk(s, h) && Evolves(s, t)
    ensures HandoffOk(t, h)
  {
    assert TokenEvolves(s.tokens[h.approval], t.tokens[h.approval]);
    assert GenerationEvolves(s.generations[h.generation], t.generations[h.generation]);
    assert JobEvolves(s.jobs[s.generations[h.generation].job], t.jobs[s.generations[h.generation].job]);
  }

  /** Blocks stay in order while control is untouched and blocked jobs are not woken. */
  lemma BlocksFrame(s: Db, t: Db)
    requires BlocksOk(s) && t.retry == s.retry && t.paused == s.paused && t.version == s.version && |s.jobs| <= |t.jobs|
    requires forall i | 0 <= i < |s.jobs| && s.jobs[i].bound && i in s.retry ::
               && t.jobs[i].bound
               && (s.retry[i].blocked.Some? && Live(t.jobs[i].status) ==>
                     t.jobs[i].status == s.jobs[i].status && t.jobs[i].retryAt == s.jobs[i].retryAt)
    ensures BlocksOk(t)
  {
    forall job | job in t.retry ensures BlockOk(t, job) { assert BlockOk(s, job); }
  }

  /** Leases stay in order while jobs and attempts keep their tokens and outcomes; new jobs carry none. */
  lemma LeasesFrame(s: Db, t: Db)
    requires LeasesOk(s) && t.provider == s.provider && t.issued == s.issued && |s.jobs| <= |t.jobs|
    requires forall i | 0 <= i < |s.jobs| :: t.jobs[i].token == s.jobs[i].token && JobOk(t, t.jobs[i])
    requires forall i | |s.jobs| <= i < |t.jobs| :: t.jobs[i].token.None? && JobOk(t, t.jobs[i])
    ensures LeasesOk(t)
  {
    forall a | 0 <= a < |t.provider| ensures AttemptOk(t, t.provider[a]) { assert AttemptOk(s, s.provider[a]); }
  }
}
