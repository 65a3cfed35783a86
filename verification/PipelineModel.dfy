/**
  Candidate lineage, generation jobs and the Codex provider control: the database that
  each transaction of CandidateApprovalService, NewsPipeline and the operator commands
  leaves behind.  Row ids are positions in append-only tables, contents and lease tokens
  are opaque numbers, times are integer microseconds.
 */
module PipelineModel {
  import opened Common

  datatype Stage = Selection | Review
  datatype Action = Make | Defer(hours: int) | RejectAction | Refresh | ApproveHandoff | Regenerate | PageChange

  datatype CandidateStatus =
    | PendingSelection | GenerationPending | PendingReview | Deferred | Rejected | Approved | CandidateSuperseded

  datatype DigestStatus = ActiveDigest | SelectedDigest | ApprovedDigest | DigestSuperseded
  datatype JobStatus = Queued | Running | FailedRecoverable | Succeeded | JobSuperseded
  datatype AttemptOutcome = Abandoned | Failed | Completed

  datatype Candidate = Candidate(run: nat, status: CandidateStatus, revision: nat, stage: Stage, dueAt: int)
  datatype Digest = Digest(run: nat, status: DigestStatus, revision: nat)
  datatype SelectionRow = SelectionRow(digest: nat, candidate: nat)
  datatype Job = Job(
    selection: nat, initial: bool, status: JobStatus, attempts: nat, token: Option<nat>, leaseExpires: int,
    retryAt: Option<int>, requestedAt: int, bound: bool, authorized: bool)
  datatype ProviderAttempt = ProviderAttempt(job: nat, attempt: nat, token: nat, outcome: Option<AttemptOutcome>)
  datatype Generation = Generation(job: nat, attempt: nat, content: nat, current: bool)
  datatype CallbackToken = CallbackToken(
    stage: Stage, action: Action, candidate: nat, candidateRevision: nat, digest: nat, digestRevision: nat,
    generation: nat, generationRevision: nat, content: nat, consumed: bool, revoked: bool)
  datatype Handoff = Handoff(generation: nat, approval: nat)

  datatype PauseReason =
    | AuthUnavailable | RunnerConfig | Supervisor | UnknownExit | OuterTimeout | RunnerAttestation
    | SecurityHold | Maintenance
  datatype ResumeReason = AuthRestored | ConfigRepaired | AttestationPassed | SecurityReviewed | MaintenanceComplete

  datatype FailureCode =
    | Busy | Timeout | Nonzero | InputLimit | OutputLimit | InvalidDraft | Pausing(reason: PauseReason)

  datatype Block = Block(version: nat, reason: PauseReason)
  datatype RetryState = RetryState(failures: nat, held: bool, blocked: Option<Block>, version: nat)
  datatype ControlEvent = ControlEvent(pause: bool, previous: nat, resulting: nat)

  datatype Db = Db(
    candidates: seq<Candidate>, digests: seq<Digest>, selections: seq<SelectionRow>, jobs: seq<Job>,
    provider: seq<ProviderAttempt>, generations: seq<Generation>, tokens: seq<CallbackToken>, handoffs: seq<Handoff>,
    retry: map<nat, RetryState>, paused: Option<PauseReason>, version: nat, events: seq<ControlEvent>,
    issued: set<nat>, cutover: bool)

  /** What a worker keeps between leasing a job and settling it. */
  datatype Ticket = Ticket(job: nat, token: nat, attempt: nat)

  const FIRST_VERSION: nat := 1
  const LEASE_US: int := 300_000_000
  const SECOND_US: int := 1_000_000

  // ---------------------------------------------------------------- queries

  predicate Live(st: JobStatus) { st in {Queued, Running, FailedRecoverable} }

  function CandidateOf(s: Db, job: nat): (c: Option<nat>)
    ensures c.Some? ==> job < |s.jobs| && s.jobs[job].selection < |s.selections|
                        && c.value == s.selections[s.jobs[job].selection].candidate && c.value < |s.candidates|
  {
    if job < |s.jobs| && s.jobs[job].selection < |s.selections|
       && s.selections[s.jobs[job].selection].candidate < |s.candidates|
    then Some(s.selections[s.jobs[job].selection].candidate) else None
  }

  function RetryOf(s: Db, job: nat): RetryState {
    if job in s.retry then s.retry[job] else RetryState(0, false, None, 1)
  }

  predicate Leased(s: Db, job: nat, token: nat) {
    job < |s.jobs| && s.jobs[job].status == Running && s.jobs[job].token == Some(token)
  }

  /** The ticket was handed out by a lease of this job. */
  predicate Genuine(s: Db, k: Ticket) {
    k.attempt < |s.provider| && s.provider[k.attempt].job == k.job && s.provider[k.attempt].token == k.token
  }

  /** It was handed out by a lease of the named path: only Codex leases bound jobs, and a leased job is never bound. */
  predicate GenuineFor(s: Db, k: Ticket, codex: bool) {
    Genuine(s, k) && k.job < |s.jobs| && s.jobs[k.job].bound == codex
  }

  predicate AwaitsGeneration(s: Db, job: nat) {
    var c := CandidateOf(s, job);
    c.Some? && s.candidates[c.value].status in {GenerationPending, PendingReview}
  }

  predicate Admitted(s: Db, job: nat)
    requires job < |s.jobs|
  {
    s.cutover ==> s.jobs[job].authorized
  }

  predicate LeaseLapsed(j: Job, now: int) { j.status == Running && j.leaseExpires < now }

  predicate RetryDue(j: Job, now: int) { j.status == FailedRecoverable && j.retryAt.Some? && j.retryAt.value <= now }

  predicate Due(j: Job, now: int) { j.status == Queued || LeaseLapsed(j, now) || RetryDue(j, now) }

  predicate CodexEligible(s: Db, job: nat, now: int) {
    && job < |s.jobs| && s.jobs[job].bound && AwaitsGeneration(s, job)
    && !RetryOf(s, job).held && RetryOf(s, job).blocked.None?
    && Admitted(s, job) && Due(s.jobs[job], now)
  }

  /** Lapsed leases first, then due retries, then queued jobs. */
  function Urgency(j: Job, now: int): int {
    if LeaseLapsed(j, now) then 0 else if RetryDue(j, now) then 1 else 2
  }

  function Since(j: Job): int {
    if j.status == Running then j.leaseExpires
    else if j.status == FailedRecoverable && j.retryAt.Some? then j.retryAt.value
    else j.requestedAt
  }

  /** The ORDER BY of _selected_codex_job_id. */
  predicate Before(s: Db, i: nat, j: nat, now: int)
    requires i < |s.jobs| && j < |s.jobs|
  {
    var a, b := s.jobs[i], s.jobs[j];
    || Urgency(a, now) < Urgency(b, now)
    || (Urgency(a, now) == Urgency(b, now)
        && (Since(a) < Since(b)
            || (Since(a) == Since(b) && (a.attempts < b.attempts || (a.attempts == b.attempts && i < j)))))
  }

  /** The most urgent eligible job among the first n. */
  function MostUrgent(s: Db, now: int, n: nat): (r: Option<nat>)
    requires n <= |s.jobs|
    ensures r.Some? ==> r.value < n && CodexEligible(s, r.value, now)
    ensures r.Some? ==> forall i | 0 <= i < n && i != r.value && CodexEligible(s, i, now) :: Before(s, r.value, i, now)
    ensures r.None? ==> forall i | 0 <= i < n :: !CodexEligible(s, i, now)
  {
    if n == 0 then None
    else
      var rest := MostUrgent(s, now, n - 1);
      if !CodexEligible(s, n - 1, now) then rest
      else if rest.None? || Before(s, n - 1, rest.value, now) then Some(n - 1)
      else rest
  }

  predicate Bindable(s: Db, job: nat) {
    job < |s.jobs| && !s.jobs[job].bound && s.jobs[job].status == Queued && AwaitsGeneration(s, job) && Admitted(s, job)
  }

  /** ORDER BY requested_at, id among the unbound queued jobs. */
  function OldestUnbound(s: Db, n: nat): (r: Option<nat>)
    requires n <= |s.jobs|
    ensures r.Some? ==> r.value < n && Bindable(s, r.value)
    ensures r.Some? ==> forall i | 0 <= i < n && Bindable(s, i) ::
                          || s.jobs[r.value].requestedAt < s.jobs[i].requestedAt
                          || (s.jobs[r.value].requestedAt == s.jobs[i].requestedAt && r.value <= i)
    ensures r.None? ==> forall i | 0 <= i < n :: !Bindable(s, i)
  {
    if n == 0 then None
    else
      var rest := OldestUnbound(s, n - 1);
      if !Bindable(s, n - 1) then rest
      else if rest.None? || s.jobs[n - 1].requestedAt < s.jobs[rest.value].requestedAt then Some(n - 1)
      else rest
  }

  predicate HasCurrent(s: Db, job: nat) {
    exists g | 0 <= g < |s.generations| :: s.generations[g].job == job && s.generations[g].current
  }

  function SelectionOf(s: Db, candidate: nat, n: nat): (r: Option<nat>)
    requires n <= |s.selections|
    ensures r.Some? ==> r.value < n && s.selections[r.value].candidate == candidate
    ensures r.None? ==> forall i | 0 <= i < n :: s.selections[i].candidate != candidate
  {
    if n == 0 then None
    else if s.selections[n - 1].candidate == candidate then Some(n - 1)
    else SelectionOf(s, candidate, n - 1)
  }

  function ChosenFrom(s: Db, digest: nat, n: nat): (r: Option<nat>)
    requires n <= |s.selections|
    ensures r.Some? ==> r.value < n && s.selections[r.value].digest == digest
    ensures r.None? ==> forall i | 0 <= i < n :: s.selections[i].digest != digest
  {
    if n == 0 then None
    else if s.selections[n - 1].digest == digest then Some(n - 1)
    else ChosenFrom(s, digest, n - 1)
  }

  predicate HasInitialJob(s: Db, selection: nat) {
    exists i | 0 <= i < |s.jobs| :: s.jobs[i].selection == selection && s.jobs[i].initial
  }

  // ---------------------------------------------------------------- row updates

  function SetCandidate(s: Db, c: nat, st: CandidateStatus): Db
    requires c < |s.candidates|
  {
    s.(candidates := s.candidates[c := s.candidates[c].(status := st)])
  }

  /** Candidates in the set become superseded with a new revision, unless already final. */
  function SupersedeCandidates(cs: seq<Candidate>, which: set<nat>): (r: seq<Candidate>)
    ensures |r| == |cs|
  {
    seq(|cs|, i requires 0 <= i < |cs| =>
      if i in which then cs[i].(status := CandidateSuperseded, revision := cs[i].revision + 1) else cs[i])
  }

  function SupersedeDigests(ds: seq<Digest>, runs: set<nat>, from: set<DigestStatus>): (r: seq<Digest>)
    ensures |r| == |ds|
  {
    seq(|ds|, i requires 0 <= i < |ds| =>
      if ds[i].run in runs && ds[i].status in from
      then ds[i].(status := DigestSuperseded, revision := ds[i].revision + 1) else ds[i])
  }

  /** Live jobs of these selections become superseded. */
  function SupersedeJobs(jobs: seq<Job>, sels: set<nat>): (r: seq<Job>)
    ensures |r| == |jobs|
  {
    seq(|jobs|, i requires 0 <= i < |jobs| =>
      if jobs[i].selection in sels && Live(jobs[i].status) then jobs[i].(status := JobSuperseded) else jobs[i])
  }

  function SupersedeGenerations(s: Db, sels: set<nat>): (r: seq<Generation>)
    ensures |r| == |s.generations|
  {
    seq(|s.generations|, i requires 0 <= i < |s.generations| =>
      if s.generations[i].job < |s.jobs| && s.jobs[s.generations[i].job].selection in sels
      then s.generations[i].(current := false) else s.generations[i])
  }

  /** Close a job's open provider attempts. */
  function CloseAttempts(provider: seq<ProviderAttempt>, job: nat, outcome: AttemptOutcome): (r: seq<ProviderAttempt>)
    ensures |r| == |provider|
  {
    seq(|provider|, i requires 0 <= i < |provider| =>
      if provider[i].job == job && provider[i].outcome.None? then provider[i].(outcome := Some(outcome)) else provider[i])
  }

  function CloseAttempt(provider: seq<ProviderAttempt>, a: nat, outcome: AttemptOutcome): (r: seq<ProviderAttempt>)
    ensures |r| == |provider|
  {
    if a < |provider| && provider[a].outcome.None? then provider[a := provider[a].(outcome := Some(outcome))] else provider
  }

  /** UPDATE callback_tokens SET revoked_at for every open token of the candidate. */
  function RevokeTokens(tokens: seq<CallbackToken>, candidate: nat, evenConsumed: bool): (r: seq<CallbackToken>)
    ensures |r| == |tokens|
  {
    seq(|tokens|, i requires 0 <= i < |tokens| =>
      if tokens[i].candidate == candidate && (evenConsumed || !tokens[i].consumed)
      then tokens[i].(revoked := true) else tokens[i])
  }

  // ---------------------------------------------------------------- approvals

  /** What the world contributes to one callback: authorization, admission, freshness of sources, validity of content. */
  datatype Circumstances = Circumstances(authorized: bool, admitted: bool, sourcesCurrent: bool, warningsMatch: bool,
                                         contentValid: bool, pageCountValid: bool)

  predicate TokenFits(s: Db, k: CallbackToken, e: Circumstances) {
    && e.authorized && e.admitted && !k.revoked && !k.consumed
    && k.candidate < |s.candidates|
    && s.candidates[k.candidate].status == (if k.stage == Selection then PendingSelection else PendingReview)
    && e.sourcesCurrent
    && k.candidateRevision == s.candidates[k.candidate].revision
    && k.digest < |s.digests|
    && s.digests[k.digest].status == (if k.stage == Selection then ActiveDigest else SelectedDigest)
    && k.digestRevision == s.digests[k.digest].revision
    && (k.stage == Review ==> GenerationFits(s, k, e))
  }

  predicate GenerationFits(s: Db, k: CallbackToken, e: Circumstances) {
    && k.generation < |s.generations|
    && var g := s.generations[k.generation];
    && g.current && g.job < |s.jobs| && s.jobs[g.job].selection < |s.selections|
    && s.selections[s.jobs[g.job].selection] == SelectionRow(k.digest, k.candidate)
    && k.generationRevision == g.attempt && k.content == g.content
    && e.warningsMatch
    && (k.action == ApproveHandoff ==> e.contentValid)
    && (k.action == PageChange ==> e.pageCountValid)
  }

  /** The token is consumed; every other action than refresh revokes the candidate's open tokens. */
  function Consume(s: Db, t: nat): Db
    requires t < |s.tokens|
  {
    var tokens := s.tokens[t := s.tokens[t].(consumed := true)];
    s.(tokens := if s.tokens[t].action == Refresh then tokens else RevokeTokens(tokens, s.tokens[t].candidate, false))
  }

  function NewJob(s: Db, selection: nat, initial: bool, now: int): Job {
    Job(selection, initial, Queued, 0, None, 0, None, now, false, s.cutover)
  }

  function MakeSelection(s: Db, k: CallbackToken, now: int): Db
    requires k.candidate < |s.candidates| && k.digest < |s.digests|
  {
    var chosen := ChosenFrom(s, k.digest, |s.selections|);
    if chosen.Some? && s.selections[chosen.value].candidate != k.candidate then s
    else
      var sel := if chosen.Some? then chosen.value else |s.selections|;
      s.(selections := if chosen.Some? then s.selections else s.selections + [SelectionRow(k.digest, k.candidate)],
         jobs := if HasInitialJob(s, sel) then s.jobs else s.jobs + [NewJob(s, sel, true, now)],
         candidates := s.candidates[k.candidate := s.candidates[k.candidate].(status := GenerationPending)],
         digests := s.digests[k.digest := s.digests[k.digest].(status := SelectedDigest)])
  }

  function Rework(s: Db, k: CallbackToken, now: int): Db
    requires k.candidate < |s.candidates|
  {
    var sel := SelectionOf(s, k.candidate, |s.selections|);
    if sel.None? then s
    else
      s.(generations := SupersedeGenerations(s, {sel.value}),
         jobs := SupersedeJobs(s.jobs, {sel.value}) + [NewJob(s, sel.value, false, now)],
         candidates := s.candidates[k.candidate := s.candidates[k.candidate].(status := GenerationPending)])
  }

  function Approve(s: Db, t: nat): Db
    requires t < |s.tokens| && s.tokens[t].candidate < |s.candidates| && s.tokens[t].digest < |s.digests|
  {
    var k := s.tokens[t];
    s.(handoffs := s.handoffs + [Handoff(k.generation, t)],
       candidates := s.candidates[k.candidate := s.candidates[k.candidate].(status := Approved)],
       digests := s.digests[k.digest := s.digests[k.digest].(status := ApprovedDigest)])
  }

  function DeferCandidate(s: Db, k: CallbackToken, now: int, hours: int): Db
    requires k.candidate < |s.candidates|
  {
    s.(candidates := s.candidates[k.candidate :=
         s.candidates[k.candidate].(status := Deferred, stage := k.stage, dueAt := now + hours * 3_600_000_000)])
  }

  /** What a fitting token does once it is consumed. */
  function Act(s: Db, t: nat, now: int): Db
    requires t < |s.tokens| && s.tokens[t].candidate < |s.candidates| && s.tokens[t].digest < |s.digests|
  {
    var k := s.tokens[t];
    match k.action
    case Refresh => s
    case Defer(hours) => DeferCandidate(s, k, now, hours)
    case RejectAction => SetCandidate(s, k.candidate, Rejected)
    case Make => if k.stage == Selection then MakeSelection(s, k, now) else s
    case ApproveHandoff => if k.stage == Review then Approve(s, t) else s
    case _ => if k.stage == Review then Rework(s, k, now) else s
  }

  function Apply(s: Db, t: nat, e: Circumstances, now: int): Db {
    if t >= |s.tokens| || !TokenFits(s, s.tokens[t], e) then s else Act(Consume(s, t), t, now)
  }

  // ---------------------------------------------------------------- digests, resumption, invalidation

  function AddCandidate(s: Db, run: nat, immediate: bool): Db {
    s.(candidates := s.candidates + [Candidate(run, if immediate then PendingSelection else Rejected, 1, Selection, 0)])
  }

  /** create_digest: stale candidates are superseded; the digest row is reused or created. */
  function CreateDigest(s: Db, run: nat, stale: set<nat>, reused: bool): Db {
    var gone := set c | c in stale && c < |s.candidates| && s.candidates[c].run == run && s.candidates[c].status == PendingSelection;
    s.(candidates := SupersedeCandidates(s.candidates, gone),
       digests := if reused then s.digests else s.digests + [Digest(run, ActiveDigest, 1)])
  }

  /** Any button may be issued; a token acts only through what it names. */
  function Issue(s: Db, k: CallbackToken): Db {
    s.(tokens := s.tokens + [k.(consumed := false, revoked := false)])
  }

  predicate ResumeDue(c: Candidate, now: int) { c.status == Deferred && c.dueAt <= now }

  /** The candidate a due deferral resumes to, or a superseded one when its sources moved on. */
  function Resumed(c: Candidate, stale: bool): Candidate {
    if stale then c.(status := CandidateSuperseded, revision := c.revision + 1)
    else c.(status := if c.stage == Selection then PendingSelection else PendingReview)
  }

  /** resume_due: the manual path, closed by the cutover. */
  function Resume(s: Db, now: int, stale: set<nat>): Db {
    if s.cutover then s
    else ResumeSet(s, (set c | 0 <= c < |s.candidates| && ResumeDue(s.candidates[c], now)), stale)
  }

  /** resume_due_and_enqueue: only the deferrals recorded with an authority row, and only after the cutover. */
  function ResumeAuthorized(s: Db, now: int, recorded: set<nat>): Db {
    if !s.cutover then s
    else ResumeSet(s, (set c | c in recorded && c < |s.candidates| && ResumeDue(s.candidates[c], now)), {})
  }

  function ResumeSet(s: Db, due: set<nat>, stale: set<nat>): Db
    requires forall c | c in due :: c < |s.candidates|
  {
    var runs := set c | c in due && c in stale :: s.candidates[c].run;
    s.(candidates := seq(|s.candidates|, i requires 0 <= i < |s.candidates| =>
                       if i in due then Resumed(s.candidates[i], i in stale) else s.candidates[i]),
       digests := SupersedeDigests(s.digests, runs, {ActiveDigest, SelectedDigest}),
       tokens := seq(|s.tokens|, i requires 0 <= i < |s.tokens| =>
                   if s.tokens[i].candidate in due && s.tokens[i].candidate !in stale
                   then s.tokens[i].(revoked := true) else s.tokens[i]))
  }

  /** _invalidate_revised_candidates: everything below a stale candidate goes with it. */
  function Invalidate(s: Db, stale: set<nat>): Db {
    var gone := set c | c in stale && c < |s.candidates| && !(s.candidates[c].status in {CandidateSuperseded, Approved});
    var runs := set c | c in gone :: s.candidates[c].run;
    var sels := set i | 0 <= i < |s.selections| && s.selections[i].candidate in gone;
    s.(candidates := SupersedeCandidates(s.candidates, gone),
       digests := SupersedeDigests(s.digests, runs, {ActiveDigest}),
       jobs := SupersedeJobs(s.jobs, sels),
       generations := SupersedeGenerations(s, sels))
  }

  // ---------------------------------------------------------------- generation

  /** Lease a job: a new provider attempt under a token that was never issued before. */
  function LeaseJob(s: Db, job: nat, now: int, token: nat, provider: seq<ProviderAttempt>): (Db, Ticket)
    requires job < |s.jobs|
  {
    var j := s.jobs[job];
    (s.(jobs := s.jobs[job := j.(status := Running, attempts := j.attempts + 1, token := Some(token),
                                 leaseExpires := now + LEASE_US, retryAt := None)],
        provider := provider + [ProviderAttempt(job, j.attempts + 1, token, None)],
        issued := s.issued + {token}),
     Ticket(job, token, |provider|))
  }

  predicate StartableFor(s: Db, job: nat, candidate: nat, now: int) {
    && job < |s.jobs| && CandidateOf(s, job) == Some(candidate)
    && (s.jobs[job].status in {Queued, FailedRecoverable} || LeaseLapsed(s.jobs[job], now))
  }

  /** The initial job first, then the oldest. */
  function FirstStartable(s: Db, candidate: nat, now: int, initial: bool, from: nat): (r: Option<nat>)
    requires from <= |s.jobs|
    ensures r.Some? ==> StartableFor(s, r.value, candidate, now) && s.jobs[r.value].initial == initial
    ensures r.None? ==> forall i | from <= i < |s.jobs| :: !(StartableFor(s, i, candidate, now) && s.jobs[i].initial == initial)
    decreases |s.jobs| - from
  {
    if from == |s.jobs| then None
    else if StartableFor(s, from, candidate, now) && s.jobs[from].initial == initial then Some(from)
    else FirstStartable(s, candidate, now, initial, from + 1)
  }

  function JobFor(s: Db, candidate: nat, now: int): Option<nat> {
    var first := FirstStartable(s, candidate, now, true, 0);
    if first.Some? then first else FirstStartable(s, candidate, now, false, 0)
  }

  /** First transaction of generate_selected. */
  function StartSelected(s: Db, candidate: nat, now: int, token: nat, sourcesBound: bool): (Db, Option<Ticket>) {
    if token in s.issued || candidate >= |s.candidates|
       || !(s.candidates[candidate].status in {GenerationPending, PendingReview}) then (s, None)
    else
      match JobFor(s, candidate, now)
      case None => (s, None)
      case Some(job) =>
        if s.jobs[job].bound || !sourcesBound then (s, None)
        else
          var (s1, k) := LeaseJob(s, job, now, token, CloseAttempts(s.provider, job, Abandoned));
          (SetCandidate(s1, candidate, GenerationPending), Some(k))
  }

  /** The failed end of a leased job. */
  function FailJob(s: Db, k: Ticket, retryAt: Option<int>): Db
    requires k.job < |s.jobs|
  {
    s.(provider := CloseAttempt(s.provider, k.attempt, Failed),
       jobs := s.jobs[k.job := s.jobs[k.job].(status := FailedRecoverable, retryAt := retryAt, token := None)])
  }

  /** Its failure transaction: only the leaseholder's job and attempt move. */
  function FailSelected(s: Db, k: Ticket, now: int): Db {
    if !GenuineFor(s, k, false) || !Leased(s, k.job, k.token) then s else FailJob(s, k, Some(now))
  }

  /** The successful end of a leased job, unless it already has a current generation. */
  function Complete(s: Db, k: Ticket, attempt: nat, content: nat, reuse: bool): Db
    requires k.job < |s.jobs|
  {
    var c := CandidateOf(s, k.job);
    s.(generations := if reuse then s.generations else s.generations + [Generation(k.job, attempt, content, true)],
       provider := CloseAttempt(s.provider, k.attempt, Completed),
       jobs := s.jobs[k.job := s.jobs[k.job].(status := Succeeded, token := None)],
       candidates := if c.Some? && s.candidates[c.value].status == GenerationPending
                     then s.candidates[c.value := s.candidates[c.value].(status := PendingReview)] else s.candidates)
  }

  /** Its commit transaction. */
  function CommitSelected(s: Db, k: Ticket, content: nat): Db {
    if !GenuineFor(s, k, false) || !Leased(s, k.job, k.token) then s
    else Complete(s, k, s.jobs[k.job].attempts, content, HasCurrent(s, k.job))
  }

  // ---------------------------------------------------------------- Codex

  function SelectCodex(s: Db, now: int): (Db, Option<nat>) {
    if s.paused.Some? then (s, None)
    else
      var best := MostUrgent(s, now, |s.jobs|);
      if best.Some? then (s, best)
      else
        match OldestUnbound(s, |s.jobs|)
        case None => (s, None)
        case Some(job) => (s.(jobs := s.jobs[job := s.jobs[job].(bound := true)]), Some(job))
  }

  function StartCodex(s: Db, job: nat, now: int, token: nat, sourcesBound: bool): (Db, Option<Ticket>) {
    if token in s.issued || s.paused.Some? || MostUrgent(s, now, |s.jobs|) != Some(job) || !sourcesBound then (s, None)
    else
      var provider := if s.jobs[job].status == Running then CloseAttempts(s.provider, job, Abandoned) else s.provider;
      var (s1, k) := LeaseJob(s, job, now, token, provider);
      (s1, Some(k))
  }

  function Held(r: RetryState): RetryState { r.(held := true, version := r.version + 1) }

  function Released(r: RetryState): RetryState { r.(held := false, failures := 0, version := r.version + 1) }

  function SetRetry(s: Db, job: nat, r: RetryState): Db { s.(retry := s.retry[job := r]) }

  /** A success ends the failure count and any hold. */
  function ForgetFailures(s: Db, job: nat): Db {
    if job !in s.retry || (s.retry[job].failures == 0 && !s.retry[job].held) then s
    else SetRetry(s, job, Released(s.retry[job]))
  }

  function CommitCodex(s: Db, k: Ticket, content: nat): Db {
    if !GenuineFor(s, k, true) || !Leased(s, k.job, k.token) then s
    else
      ForgetFailures(Complete(s, k, s.provider[k.attempt].attempt, content, false), k.job)
  }

  predicate Deterministic(code: FailureCode) { code in {InputLimit, OutputLimit, InvalidDraft} }

  predicate Holds(code: FailureCode, failures: nat) {
    || (code == Busy && failures >= 10)
    || (code in {Timeout, Nonzero} && failures >= 5)
    || (Deterministic(code) && failures >= 2)
  }

  function Pow2(n: nat): nat { if n == 0 then 1 else 2 * Pow2(n - 1) }

  /** The retry delay in seconds after this many consecutive failures; jitter is below 31. */
  function Delay(code: FailureCode, failures: nat, jitter: nat): int
    requires failures >= 1
  {
    if code == Busy then Min(900, 30 * Pow2(failures - 1)) + jitter
    else if Deterministic(code) then (if failures == 1 then 300 else 1800)
    else Min(3600, 60 * Pow2(failures - 1)) + jitter
  }

  function Jitter(seed: nat): (j: nat)
    ensures j < 31
  {
    seed % 31
  }

  /** The job's retry state after one more failure under this code; a pausing code also pauses the provider. */
  function CountFailure(s: Db, job: nat, code: FailureCode): Db {
    var r := RetryOf(s, job);
    var r1 := r.(failures := r.failures + 1, version := r.version + 1);
    if code.Pausing? then
      s.(paused := Some(code.reason), version := s.version + 1,
         events := s.events + [ControlEvent(true, s.version, s.version + 1)],
         retry := s.retry[job := r1.(blocked := Some(Block(s.version + 1, code.reason)))])
    else
      s.(retry := s.retry[job := if Holds(code, r1.failures) then r1.(held := true) else r1])
  }

  /** When the failed job is due again; `seed` stands for the two hash bytes that the jitter comes from. */
  function RetryTime(s: Db, job: nat, code: FailureCode, now: int, seed: nat): Option<int> {
    var failures := RetryOf(s, job).failures + 1;
    if code.Pausing? || Holds(code, failures) then None
    else Some(now + Delay(code, failures, Jitter(seed)) * SECOND_US)
  }

  /** _settle_codex_failure; a false answer is its raised error, which rolls everything back. */
  function FailCodex(s: Db, k: Ticket, code: FailureCode, now: int, seed: nat): (Db, bool) {
    if !GenuineFor(s, k, true) || !Leased(s, k.job, k.token) || s.provider[k.attempt].outcome.Some? then (s, false)
    else if code.Pausing? && s.paused.Some? then (s, false)
    else (FailJob(CountFailure(s, k.job, code), k, RetryTime(s, k.job, code, now, seed)), true)
  }

  // ---------------------------------------------------------------- operator commands

  function ResumeReasonFor(p: PauseReason): ResumeReason {
    match p
    case AuthUnavailable => AuthRestored
    case RunnerAttestation => AttestationPassed
    case SecurityHold => SecurityReviewed
    case Maintenance => MaintenanceComplete
    case _ => ConfigRepaired
  }

  function PauseProvider(s: Db, expected: nat, reason: PauseReason): Db {
    if s.version != expected || s.paused.Some? then s
    else s.(paused := Some(reason), version := s.version + 1,
            events := s.events + [ControlEvent(true, s.version, s.version + 1)])
  }

  /** The jobs that a resume at this version frees. */
  predicate FreedBy(s: Db, job: nat, version: nat, reason: PauseReason) {
    && job < |s.jobs| && s.jobs[job].bound && job in s.retry
    && s.jobs[job].status == FailedRecoverable && s.jobs[job].retryAt.None?
    && s.retry[job].blocked == Some(Block(version, reason))
  }

  function FreeJobs(s: Db, version: nat, reason: PauseReason, now: int): Db {
    s.(jobs := seq(|s.jobs|, i requires 0 <= i < |s.jobs| =>
                 if FreedBy(s, i, version, reason) then s.jobs[i].(retryAt := Some(now)) else s.jobs[i]),
       retry := map i | i in s.retry :: if FreedBy(s, i, version, reason)
                  then s.retry[i].(blocked := None, version := s.retry[i].version + 1) else s.retry[i])
  }

  function ResumeProvider(s: Db, expected: nat, reason: ResumeReason, now: int): Db {
    if s.version != expected || s.paused.None? || ResumeReasonFor(s.paused.value) != reason then s
    else
      FreeJobs(s, s.version, s.paused.value, now).(
        paused := None, version := s.version + 1,
        events := s.events + [ControlEvent(false, s.version, s.version + 1)])
  }

  predicate RetryControllable(s: Db, job: nat) {
    job < |s.jobs| && s.jobs[job].bound && job in s.retry && Live(s.jobs[job].status)
  }

  function HoldJob(s: Db, job: nat): Db {
    if !RetryControllable(s, job) || s.retry[job].held then s
    else SetRetry(s, job, Held(s.retry[job]))
  }

  /** A released job is due at once, unless the provider is paused. */
  function Wake(s: Db, job: nat, now: int): Db
    requires job < |s.jobs|
  {
    if s.jobs[job].status == FailedRecoverable && s.paused.None?
    then s.(jobs := s.jobs[job := s.jobs[job].(retryAt := Some(now))]) else s
  }

  function ReleaseJob(s: Db, job: nat, now: int): Db {
    if !RetryControllable(s, job) || !s.retry[job].held then s
    else Wake(SetRetry(s, job, Released(s.retry[job])), job, now)
  }

  // ---------------------------------------------------------------- runs

  datatype DeskCall =
    | CallAddCandidate(run: nat, immediate: bool)
    | CallCreateDigest(run: nat, stale: set<nat>, reused: bool)
    | CallIssue(k: CallbackToken)
    | CallApply(t: nat, e: Circumstances, now: int)
    | CallResume(now: int, stale: set<nat>)
    | CallResumeAuthorized(now: int, recorded: set<nat>)
    | CallCutover
    | CallInvalidate(stale: set<nat>)

  datatype WorkerCall =
    | CallStartSelected(candidate: nat, now: int, token: nat, sourcesBound: bool)
    | CallFailSelected(ticket: Ticket, now: int)
    | CallCommitSelected(ticket: Ticket, content: nat)
    | CallSelectCodex(now: int)
    | CallStartCodex(job: nat, now: int, token: nat, sourcesBound: bool)
    | CallFailCodex(ticket: Ticket, code: FailureCode, now: int, seed: nat)
    | CallCommitCodex(ticket: Ticket, content: nat)

  datatype OperatorCall =
    | CallPause(expected: nat, reason: PauseReason)
    | CallResumeProvider(expected: nat, resume: ResumeReason, now: int)
    | CallHold(job: nat)
    | CallRelease(job: nat, now: int)

  datatype Call = Desk(desk: DeskCall) | Worker(worker: WorkerCall) | Operator(operator: OperatorCall)

  function DeskStep(s: Db, c: DeskCall): Db {
    match c
    case CallAddCandidate(run, immediate) => AddCandidate(s, run, immediate)
    case CallCreateDigest(run, stale, reused) => CreateDigest(s, run, stale, reused)
    case CallIssue(k) => Issue(s, k)
    case CallApply(t, e, now) => Apply(s, t, e, now)
    case CallResume(now, stale) => Resume(s, now, stale)
    case CallResumeAuthorized(now, recorded) => ResumeAuthorized(s, now, recorded)
    case CallCutover => s.(cutover := true)
    case CallInvalidate(stale) => Invalidate(s, stale)
  }

  function WorkerStep(s: Db, c: WorkerCall): Db {
    match c
    case CallStartSelected(candidate, now, token, bound) => StartSelected(s, candidate, now, token, bound).0
    case CallFailSelected(k, now) => FailSelected(s, k, now)
    case CallCommitSelected(k, content) => CommitSelected(s, k, content)
    case CallSelectCodex(now) => SelectCodex(s, now).0
    case CallStartCodex(job, now, token, bound) => StartCodex(s, job, now, token, bound).0
    case CallFailCodex(k, code, now, seed) => FailCodex(s, k, code, now, seed).0
    case CallCommitCodex(k, content) => CommitCodex(s, k, content)
  }

  function OperatorStep(s: Db, c: OperatorCall): Db {
    match c
    case CallPause(expected, reason) => PauseProvider(s, expected, reason)
    case CallResumeProvider(expected, resume, now) => ResumeProvider(s, expected, resume, now)
    case CallHold(job) => HoldJob(s, job)
    case CallRelease(job, now) => ReleaseJob(s, job, now)
  }

  function Step(s: Db, c: Call): Db {
    match c
    case Desk(d) => DeskStep(s, d)
    case Worker(w) => WorkerStep(s, w)
    case Operator(o) => OperatorStep(s, o)
  }

  function Run(s: Db, calls: seq<Call>): Db
    decreases |calls|
  {
    if calls == [] then s else Step(Run(s, calls[..|calls| - 1]), calls[|calls| - 1])
  }

  function EmptyDb(): Db {
    Db([], [], [], [], [], [], [], [], map[], None, FIRST_VERSION, [], {}, false)
  }
}
