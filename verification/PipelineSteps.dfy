/** Every transaction keeps the invariant. */
module PipelineSteps {
  import opened Common
  import opened PipelineModel
  import opened PipelineInvariant

  // ---------------------------------------------------------------- intake, digests, deferrals

  lemma AddCandidateKeeps(s: Db, run: nat, immediate: bool)
    requires Inv(s)
    ensures Inv(AddCandidate(s, run, immediate))
  {
    InsertEvolves(s, run, immediate, AnyToken());
    KeepsLineage(s, AddCandidate(s, run, immediate));
  }

  lemma IssueKeeps(s: Db, k: CallbackToken)
    requires Inv(s)
    ensures Inv(Issue(s, k))
  {
    InsertEvolves(s, 0, true, k);
    KeepsLineage(s, Issue(s, k));
  }

  lemma CutoverKeeps(s: Db)
    requires Inv(s)
    ensures Inv(s.(cutover := true))
  {
    InsertEvolves(s, 0, true, AnyToken());
    KeepsLineage(s, s.(cutover := true));
  }

  /** A step that touches only candidates, digests and tokens, and moves no candidate out of a state others rely on. */
  lemma KeepsLineage(s: Db, t: Db)
    requires Inv(s) && Evolves(s, t)
    requires t == s.(candidates := t.candidates, digests := t.digests, tokens := t.tokens, cutover := t.cutover)
    requires forall c | 0 <= c < |s.candidates| && Unselected(t.candidates[c]) :: Unselected(s.candidates[c])
    requires forall c | 0 <= c < |s.candidates| && s.candidates[c].status == GenerationPending :: t.candidates[c].status == GenerationPending
    requires forall c | 0 <= c < |t.candidates| && t.candidates[c].status == Approved :: c < |s.candidates| && s.candidates[c].status == Approved
    requires forall d | 0 <= d < |s.digests| && t.digests[d].status == ActiveDigest :: s.digests[d].status == ActiveDigest
    ensures Inv(t)
  {
    SelectionsFrame(s, t);
    JobsFrame(s, t);
    GenerationsFrame(s, t);
    HandoffsFrame(s, t);
    BlocksFrame(s, t);
    LeasesFrame(s, t);
  }

  lemma CreateDigestKeeps(s: Db, run: nat, stale: set<nat>, reused: bool)
    requires Inv(s)
    ensures Inv(CreateDigest(s, run, stale, reused))
  {
    CreateDigestEvolves(s, run, stale, reused);
    KeepsLineage(s, CreateDigest(s, run, stale, reused));
  }

  lemma ResumeSetKeeps(s: Db, due: set<nat>, stale: set<nat>)
    requires Inv(s) && forall c | c in due :: c < |s.candidates| && s.candidates[c].status == Deferred
    ensures Inv(ResumeSet(s, due, stale))
  {
    ResumeSetEvolves(s, due, stale);
    KeepsLineage(s, ResumeSet(s, due, stale));
  }

  lemma ResumeKeeps(s: Db, now: int, stale: set<nat>)
    requires Inv(s)
    ensures Inv(Resume(s, now, stale))
  {
    ResumeSetKeeps(s, (set i | 0 <= i < |s.candidates| && ResumeDue(s.candidates[i], now)), stale);
  }

  lemma ResumeAuthorizedKeeps(s: Db, now: int, recorded: set<nat>)
    requires Inv(s)
    ensures Inv(ResumeAuthorized(s, now, recorded))
  {
    ResumeSetKeeps(s, (set i | i in recorded && i < |s.candidates| && ResumeDue(s.candidates[i], now)), {});
  }

  lemma InvalidateKeeps(s: Db, stale: set<nat>)
    requires Inv(s)
    ensures Inv(Invalidate(s, stale))
  {
    var t := Invalidate(s, stale);
    InvalidateEvolves(s, stale);
    InvalidateJobs(s, stale);
    GenerationsFrame(s, t);
    HandoffsFrame(s, t);
    InvalidateLeases(s, stale);
  }

  lemma InvalidateJobs(s: Db, stale: set<nat>)
    requires JobsOk(s) && SelectionsOk(s)
    ensures JobsOk(Invalidate(s, stale)) && SelectionsOk(Invalidate(s, stale))
  {
    SelectionsFrame(s, Invalidate(s, stale));
    JobsFrame(s, Invalidate(s, stale));
  }

  lemma InvalidateLeases(s: Db, stale: set<nat>)
    requires LeasesOk(s) && BlocksOk(s)
    ensures LeasesOk(Invalidate(s, stale)) && BlocksOk(Invalidate(s, stale))
  {
    BlocksFrame(s, Invalidate(s, stale));
    LeasesFrame(s, Invalidate(s, stale));
  }

  // ---------------------------------------------------------------- callbacks

  lemma ConsumeKeeps(s: Db, t: nat)
    requires Inv(s) && t < |s.tokens|
    ensures Inv(Consume(s, t))
  {
    ConsumeEvolves(s, t);
    KeepsLineage(s, Consume(s, t));
  }

  /** A candidate under decision: not yet approved, and not awaiting a generation. */
  ghost predicate Undecided(s: Db, c: nat) {
    c < |s.candidates| && s.candidates[c].status in {PendingSelection, PendingReview}
  }

  lemma DeferOrRejectKeeps(s: Db, k: CallbackToken, now: int, hours: int)
    requires Inv(s) && Undecided(s, k.candidate)
    requires k.stage == Selection <==> s.candidates[k.candidate].status == PendingSelection
    ensures Inv(DeferCandidate(s, k, now, hours)) && Inv(SetCandidate(s, k.candidate, Rejected))
  {
    KeepsLineage(s, DeferCandidate(s, k, now, hours));
    KeepsLineage(s, SetCandidate(s, k.candidate, Rejected));
  }

  /** A fitting selection token meets an unchosen digest and a new selection, so the reuse branches never run. */
  lemma MakeIsFresh(s: Db, k: CallbackToken)
    requires SelectionsOk(s) && JobsOk(s)
    requires k.digest < |s.digests| && s.digests[k.digest].status == ActiveDigest
    ensures ChosenFrom(s, k.digest, |s.selections|).None? && !HasInitialJob(s, |s.selections|)
  {
    forall i | 0 <= i < |s.selections| ensures s.selections[i].digest != k.digest { assert SelectionOk(s, s.selections[i]); }
    forall i | 0 <= i < |s.jobs| ensures s.jobs[i].selection != |s.selections| { assert LiveJobOk(s, s.jobs[i]); }
  }

  lemma MakeKeeps(s: Db, k: CallbackToken, now: int)
    requires Inv(s) && k.candidate < |s.candidates| && s.candidates[k.candidate].status == PendingSelection
    requires k.digest < |s.digests| && s.digests[k.digest].status == ActiveDigest
    ensures Inv(MakeSelection(s, k, now))
  {
    var t := MakeSelection(s, k, now);
    MakeIsFresh(s, k);
    MakeSelections(s, k, now);
    MakeJobs(s, k, now);
    MakeGenerations(s, k, now);
    MakeEvolves(s, k, now);
    HandoffsFrame(s, t);
    MakeLeases(s, k, now);
  }

  lemma MakeLeases(s: Db, k: CallbackToken, now: int)
    requires LeasesOk(s) && BlocksOk(s) && k.candidate < |s.candidates| && k.digest < |s.digests|
    ensures LeasesOk(MakeSelection(s, k, now)) && BlocksOk(MakeSelection(s, k, now))
  {
    BlocksFrame(s, MakeSelection(s, k, now));
    LeasesFrame(s, MakeSelection(s, k, now));
  }

  lemma MakeSelections(s: Db, k: CallbackToken, now: int)
    requires SelectionsOk(s) && JobsOk(s) && k.candidate < |s.candidates| && s.candidates[k.candidate].status == PendingSelection
    requires k.digest < |s.digests| && s.digests[k.digest].status == ActiveDigest
    ensures SelectionsOk(MakeSelection(s, k, now))
  {
    var t := MakeSelection(s, k, now);
    MakeIsFresh(s, k);
    forall i | 0 <= i < |s.selections|
      ensures SelectionOk(t, t.selections[i])
      ensures s.selections[i].candidate != k.candidate && s.selections[i].digest != k.digest
    {
      assert SelectionOk(s, s.selections[i]);
    }
    assert SelectionOk(t, t.selections[|s.selections|]);
  }

  lemma MakeJobs(s: Db, k: CallbackToken, now: int)
    requires SelectionsOk(s) && JobsOk(s)
    requires k.candidate < |s.candidates| && s.candidates[k.candidate].status == PendingSelection
    requires k.digest < |s.digests| && s.digests[k.digest].status == ActiveDigest
    ensures JobsOk(MakeSelection(s, k, now))
  {
    var t := MakeSelection(s, k, now);
    MakeIsFresh(s, k);
    forall i | 0 <= i < |s.jobs|
      ensures LiveJobOk(t, t.jobs[i]) && t.jobs[i] == s.jobs[i] && s.jobs[i].selection < |s.selections|
    {
      assert LiveJobOk(s, s.jobs[i]);
    }
    assert LiveJobOk(t, t.jobs[|s.jobs|]);
  }

  lemma MakeGenerations(s: Db, k: CallbackToken, now: int)
    requires SelectionsOk(s) && JobsOk(s) && GenerationsOk(s) && k.candidate < |s.candidates|
    requires k.digest < |s.digests| && s.digests[k.digest].status == ActiveDigest
    ensures GenerationsOk(MakeSelection(s, k, now))
  {
    var t := MakeSelection(s, k, now);
    MakeIsFresh(s, k);
    assert t.jobs == s.jobs + [NewJob(s, |s.selections|, true, now)];
    forall g | 0 <= g < |s.generations| ensures s.jobs[s.generations[g].job].selection < |s.selections| {
      assert LiveJobOk(s, s.jobs[s.generations[g].job]);
    }
  }

  lemma ReworkKeeps(s: Db, k: CallbackToken, now: int)
    requires Inv(s) && k.candidate < |s.candidates| && s.candidates[k.candidate].status == PendingReview
    ensures Inv(Rework(s, k, now))
  {
    if SelectionOf(s, k.candidate, |s.selections|).Some? {
      ReworkJobs(s, k, now);
      ReworkGenerations(s, k, now);
      ReworkHandoffs(s, k, now);
      ReworkLeases(s, k, now);
    }
  }

  lemma ReworkHandoffs(s: Db, k: CallbackToken, now: int)
    requires HandoffsOk(s) && SelectionsOk(s) && k.candidate < |s.candidates| && s.candidates[k.candidate].status == PendingReview
    ensures HandoffsOk(Rework(s, k, now)) && SelectionsOk(Rework(s, k, now))
  {
    var t := Rework(s, k, now);
    ReworkEvolves(s, k, now);
    SelectionsFrame(s, t);
    HandoffsFrame(s, t);
  }

  lemma ReworkLeases(s: Db, k: CallbackToken, now: int)
    requires LeasesOk(s) && BlocksOk(s) && k.candidate < |s.candidates|
    ensures LeasesOk(Rework(s, k, now)) && BlocksOk(Rework(s, k, now))
  {
    BlocksFrame(s, Rework(s, k, now));
    LeasesFrame(s, Rework(s, k, now));
  }

  lemma ReworkJobs(s: Db, k: CallbackToken, now: int)
    requires JobsOk(s) && k.candidate < |s.candidates| && SelectionOf(s, k.candidate, |s.selections|).Some?
    ensures JobsOk(Rework(s, k, now))
  {
    var t := Rework(s, k, now);
    var sel := SelectionOf(s, k.candidate, |s.selections|).value;
    forall i | 0 <= i < |s.jobs|
      ensures LiveJobOk(t, t.jobs[i])
      ensures Live(t.jobs[i].status) ==> t.jobs[i] == s.jobs[i] && t.jobs[i].selection != sel
    {
      assert LiveJobOk(s, s.jobs[i]);
    }
    assert LiveJobOk(t, t.jobs[|s.jobs|]);
  }

  lemma ReworkGenerations(s: Db, k: CallbackToken, now: int)
    requires GenerationsOk(s) && k.candidate < |s.candidates| && SelectionOf(s, k.candidate, |s.selections|).Some?
    ensures GenerationsOk(Rework(s, k, now))
  {
    var t := Rework(s, k, now);
    var sel := SelectionOf(s, k.candidate, |s.selections|).value;
    forall g | 0 <= g < |t.generations|
      ensures t.generations[g].job == s.generations[g].job && t.jobs[t.generations[g].job] == s.jobs[s.generations[g].job]
      ensures t.generations[g].current ==> s.generations[g].current && t.jobs[t.generations[g].job].selection != sel
    {
    }
  }

  lemma ApproveKeeps(s: Db, t: nat)
    requires Inv(s) && t < |s.tokens|
    requires s.tokens[t].candidate < |s.candidates| && s.candidates[s.tokens[t].candidate].status == PendingReview
    requires s.tokens[t].digest < |s.digests| && s.tokens[t].stage == Review && s.tokens[t].action == ApproveHandoff
    requires s.tokens[t].consumed && GeneratedFor(s, s.tokens[t].generation, s.tokens[t].candidate)
    requires s.generations[s.tokens[t].generation].content == s.tokens[t].content
    ensures Inv(Approve(s, t))
  {
    var u := Approve(s, t);
    SelectionsFrame(s, u);
    JobsFrame(s, u);
    GenerationsFrame(s, u);
    BlocksFrame(s, u);
    LeasesFrame(s, u);
    ApproveHandoffs(s, t);
  }

  lemma ApproveHandoffs(s: Db, t: nat)
    requires HandoffsOk(s) && t < |s.tokens|
    requires s.tokens[t].candidate < |s.candidates| && s.candidates[s.tokens[t].candidate].status == PendingReview
    requires s.tokens[t].digest < |s.digests| && s.tokens[t].stage == Review && s.tokens[t].action == ApproveHandoff
    requires s.tokens[t].consumed && GeneratedFor(s, s.tokens[t].generation, s.tokens[t].candidate)
    requires s.generations[s.tokens[t].generation].content == s.tokens[t].content
    ensures HandoffsOk(Approve(s, t))
  {
    var u := Approve(s, t);
    var c := s.tokens[t].candidate;
    forall h | 0 <= h < |s.handoffs|
      ensures HandoffOk(u, u.handoffs[h]) && s.tokens[s.handoffs[h].approval].candidate != c
    {
      assert HandoffOk(s, s.handoffs[h]);
    }
    assert HandoffOk(u, u.handoffs[|s.handoffs|]);
    forall d | 0 <= d < |u.candidates| && u.candidates[d].status == Approved ensures HandedOff(u, d) {
      if d == c { assert u.tokens[u.handoffs[|s.handoffs|].approval].candidate == d; }
      else {
        assert HandedOff(s, d);
        var h :| 0 <= h < |s.handoffs| && s.handoffs[h].approval < |s.tokens| && s.tokens[s.handoffs[h].approval].candidate == d;
        assert u.handoffs[h] == s.handoffs[h];
      }
    }
  }

  lemma ApplyKeeps(s: Db, t: nat, e: Circumstances, now: int)
    requires Inv(s)
    ensures Inv(Apply(s, t, e, now))
  {
    if t < |s.tokens| && TokenFits(s, s.tokens[t], e) {
      var s1 := Consume(s, t);
      var k := s1.tokens[t];
      ConsumeKeeps(s, t);
      ConsumeEvolves(s, t);
      assert TokenEvolves(s.tokens[t], k);
      match k.action
      case Refresh =>
      case Defer(hours) => DeferOrRejectKeeps(s1, k, now, hours);
      case RejectAction => DeferOrRejectKeeps(s1, k, now, 0);
      case Make => if k.stage == Selection { MakeKeeps(s1, k, now); }
      case ApproveHandoff => if k.stage == Review { ApproveKeeps(s1, t); }
      case Regenerate => if k.stage == Review { ReworkKeeps(s1, k, now); }
      case PageChange => if k.stage == Review { ReworkKeeps(s1, k, now); }
    }
  }

  // ---------------------------------------------------------------- leases

  /** The attempts after a takeover: those of the job are closed, the others untouched. */
  ghost predicate TakenOver(s: Db, job: nat, provider: seq<ProviderAttempt>) {
    && |provider| == |s.provider|
    && (forall a | 0 <= a < |provider| ::
          && provider[a].job == s.provider[a].job && provider[a].token == s.provider[a].token
          && provider[a].attempt == s.provider[a].attempt
          && (if provider[a].job == job then provider[a].outcome.Some? else provider[a] == s.provider[a]))
  }

  lemma LeaseLeases(s: Db, job: nat, now: int, token: nat, provider: seq<ProviderAttempt>)
    requires LeasesOk(s) && job < |s.jobs| && token !in s.issued && TakenOver(s, job, provider)
    ensures LeasesOk(LeaseJob(s, job, now, token, provider).0)
  {
    var t := LeaseJob(s, job, now, token, provider).0;
    forall i | 0 <= i < |t.jobs| ensures JobOk(t, t.jobs[i]) { assert JobOk(s, s.jobs[i]); }
    forall a | 0 <= a < |s.provider| ensures AttemptOk(t, t.provider[a]) && t.provider[a].token != token {
      assert AttemptOk(s, s.provider[a]);
    }
    assert AttemptOk(t, t.provider[|s.provider|]);
  }

  lemma LeaseKeeps(s: Db, job: nat, now: int, token: nat, provider: seq<ProviderAttempt>)
    requires Inv(s) && job < |s.jobs| && Live(s.jobs[job].status) && token !in s.issued && TakenOver(s, job, provider)
    requires job in s.retry ==> s.retry[job].blocked.None?
    ensures Inv(LeaseJob(s, job, now, token, provider).0)
  {
    var t := LeaseJob(s, job, now, token, provider).0;
    LeaseJobEvolves(s, job, now, token, provider);
    LeaseLeases(s, job, now, token, provider);
    SelectionsFrame(s, t);
    JobsFrame(s, t);
    GenerationsFrame(s, t);
    HandoffsFrame(s, t);
    BlocksFrame(s, t);
  }

  lemma UnboundHasNoRetry(s: Db, job: nat)
    requires BlocksOk(s) && job < |s.jobs| && !s.jobs[job].bound
    ensures job !in s.retry
  {
    assert job in s.retry ==> BlockOk(s, job);
  }

  lemma StartSelectedKeeps(s: Db, candidate: nat, now: int, token: nat, sourcesBound: bool)
    requires Inv(s)
    ensures Inv(StartSelected(s, candidate, now, token, sourcesBound).0)
  {
    var t := StartSelected(s, candidate, now, token, sourcesBound).0;
    if StartSelected(s, candidate, now, token, sourcesBound).1.Some? {
      var job := JobFor(s, candidate, now).value;
      var provider := CloseAttempts(s.provider, job, Abandoned);
      UnboundHasNoRetry(s, job);
      LeaseKeeps(s, job, now, token, provider);
      var s1 := LeaseJob(s, job, now, token, provider).0;
      assert LiveJobOk(s, s.jobs[job]);
      PendingStays(s1, candidate);
      assert t == SetCandidate(s1, candidate, GenerationPending);
    } else {
      assert t == s;
    }
  }

  /** The candidate of a live job already awaits it. */
  lemma PendingStays(s: Db, candidate: nat)
    requires candidate < |s.candidates| && s.candidates[candidate].status == GenerationPending
    ensures SetCandidate(s, candidate, GenerationPending) == s
  {
  }

  lemma StartCodexKeeps(s: Db, job: nat, now: int, token: nat, sourcesBound: bool)
    requires Inv(s)
    ensures Inv(StartCodex(s, job, now, token, sourcesBound).0)
  {
    if token !in s.issued && MostUrgent(s, now, |s.jobs|) == Some(job) {
      var provider := if s.jobs[job].status == Running then CloseAttempts(s.provider, job, Abandoned) else s.provider;
      forall a | 0 <= a < |provider| && provider[a].job == job ensures provider[a].outcome.Some? {
        assert AttemptOk(s, s.provider[a]) && JobOk(s, s.jobs[job]);
      }
      LeaseKeeps(s, job, now, token, provider);
    }
  }

  /** Binding a queued job to Codex. */
  function Bind(s: Db, job: nat): Db
    requires job < |s.jobs|
  {
    s.(jobs := s.jobs[job := s.jobs[job].(bound := true)])
  }

  lemma BindKeepsLeases(s: Db, job: nat)
    requires LeasesOk(s) && BlocksOk(s) && Bindable(s, job)
    ensures LeasesOk(Bind(s, job)) && BlocksOk(Bind(s, job))
  {
    forall i | 0 <= i < |s.jobs| ensures JobOk(Bind(s, job), Bind(s, job).jobs[i]) { assert JobOk(s, s.jobs[i]); }
    LeasesFrame(s, Bind(s, job));
    BlocksFrame(s, Bind(s, job));
  }

  lemma BindKeeps(s: Db, job: nat)
    requires Inv(s) && Bindable(s, job)
    ensures Inv(Bind(s, job))
  {
    var t := Bind(s, job);
    BindKeepsLeases(s, job);
    SelectionsFrame(s, t);
    JobsFrame(s, t);
    GenerationsFrame(s, t);
    HandoffsFrame(s, t);
  }

  lemma SelectCodexKeeps(s: Db, now: int)
    requires Inv(s)
    ensures Inv(SelectCodex(s, now).0)
  {
    var job := OldestUnbound(s, |s.jobs|);
    if job.Some? { BindKeeps(s, job.value); }
  }

  // ---------------------------------------------------------------- settlements

  /** A leased ticket's attempt is still open, and it is the job's only open one. */
  lemma LeasedAttemptIsOpen(s: Db, k: Ticket)
    requires LeasesOk(s) && Genuine(s, k) && Leased(s, k.job, k.token)
    ensures s.provider[k.attempt].outcome.None?
    ensures forall a | 0 <= a < |s.provider| && a != k.attempt && s.provider[a].job == k.job :: s.provider[a].outcome.Some?
  {
    assert AttemptOk(s, s.provider[k.attempt]);
    forall a | 0 <= a < |s.provider| && a != k.attempt && s.provider[a].job == k.job ensures s.provider[a].outcome.Some? {
      assert AttemptOk(s, s.provider[a]);
      assert a < k.attempt || k.attempt < a;
    }
  }

  /** Closing the attempt together with dropping the job's token. */
  lemma SettledLeases(s: Db, k: Ticket, t: Db)
    requires LeasesOk(s) && Genuine(s, k) && Leased(s, k.job, k.token)
    requires t.issued == s.issued && |t.jobs| == |s.jobs| && t.jobs == s.jobs[k.job := t.jobs[k.job]]
    requires t.jobs[k.job].token.None? && JobOk(t, t.jobs[k.job])
    requires exists o :: t.provider == CloseAttempt(s.provider, k.attempt, o)
    ensures LeasesOk(t)
  {
    LeasedAttemptIsOpen(s, k);
    forall i | 0 <= i < |t.jobs| ensures JobOk(t, t.jobs[i]) { assert JobOk(s, s.jobs[i]); }
    forall a | 0 <= a < |t.provider| ensures AttemptOk(t, t.provider[a]) { assert AttemptOk(s, s.provider[a]); }
  }

  lemma FailJobKeeps(s: Db, k: Ticket, retryAt: Option<int>)
    requires Inv(s) && Genuine(s, k) && Leased(s, k.job, k.token) && (retryAt.Some? || s.jobs[k.job].bound)
    ensures Inv(FailJob(s, k, retryAt))
    ensures k.job in s.retry ==> s.retry[k.job].blocked.None?
  {
    var t := FailJob(s, k, retryAt);
    FailJobEvolves(s, k, retryAt);
    FailJobLineage(s, k, retryAt);
    HandoffsFrame(s, t);
    FailJobLeases(s, k, retryAt);
  }

  lemma FailJobLeases(s: Db, k: Ticket, retryAt: Option<int>)
    requires LeasesOk(s) && BlocksOk(s) && Genuine(s, k) && Leased(s, k.job, k.token) && (retryAt.Some? || s.jobs[k.job].bound)
    ensures LeasesOk(FailJob(s, k, retryAt)) && BlocksOk(FailJob(s, k, retryAt))
    ensures k.job in s.retry ==> s.retry[k.job].blocked.None?
  {
    SettledLeases(s, k, FailJob(s, k, retryAt));
    assert k.job in s.retry ==> BlockOk(s, k.job);
    BlocksFrame(s, FailJob(s, k, retryAt));
  }

  lemma FailJobLineage(s: Db, k: Ticket, retryAt: Option<int>)
    requires SelectionsOk(s) && JobsOk(s) && GenerationsOk(s) && Leased(s, k.job, k.token)
    ensures SelectionsOk(FailJob(s, k, retryAt)) && JobsOk(FailJob(s, k, retryAt)) && GenerationsOk(FailJob(s, k, retryAt))
  {
    var t := FailJob(s, k, retryAt);
    SelectionsFrame(s, t);
    JobsFrame(s, t);
    GenerationsFrame(s, t);
  }

  /** A leased job has no generation yet, so the reuse branch of the commit never runs. */
  lemma LeasedHasNoGeneration(s: Db, job: nat)
    requires GenerationsOk(s) && job < |s.jobs| && s.jobs[job].status == Running
    ensures !HasCurrent(s, job) && forall g | 0 <= g < |s.generations| :: s.generations[g].job != job
  {
  }

  lemma CompleteJobs(s: Db, k: Ticket, attempt: nat, content: nat)
    requires JobsOk(s) && SelectionsOk(s) && Leased(s, k.job, k.token)
    ensures JobsOk(Complete(s, k, attempt, content, false)) && SelectionsOk(Complete(s, k, attempt, content, false))
  {
    var t := Complete(s, k, attempt, content, false);
    assert LiveJobOk(s, s.jobs[k.job]);
    forall i | 0 <= i < |s.jobs| && Live(t.jobs[i].status) && LiveJobOk(s, s.jobs[i])
      ensures t.candidates[s.selections[s.jobs[i].selection].candidate].status == GenerationPending
    {
      assert s.jobs[i].selection < s.jobs[k.job].selection || s.jobs[k.job].selection < s.jobs[i].selection;
    }
    JobsFrame(s, t);
    SelectionsFrame(s, t);
  }

  lemma CompleteGenerations(s: Db, k: Ticket, attempt: nat, content: nat)
    requires GenerationsOk(s) && JobsOk(s) && Leased(s, k.job, k.token)
    ensures GenerationsOk(Complete(s, k, attempt, content, false))
  {
    var t := Complete(s, k, attempt, content, false);
    LeasedHasNoGeneration(s, k.job);
    forall g | 0 <= g < |s.generations|
      ensures t.generations[g] == s.generations[g] && t.jobs[s.generations[g].job] == s.jobs[s.generations[g].job]
    {
    }
  }

  lemma CompleteKeeps(s: Db, k: Ticket, attempt: nat, content: nat)
    requires Inv(s) && Genuine(s, k) && Leased(s, k.job, k.token)
    ensures Inv(Complete(s, k, attempt, content, false))
  {
    var t := Complete(s, k, attempt, content, false);
    CompleteEvolves(s, k, attempt, content, false);
    CompleteJobs(s, k, attempt, content);
    CompleteGenerations(s, k, attempt, content);
    SettledLeases(s, k, t);
    HandoffsFrame(s, t);
    BlocksFrame(s, t);
  }

  lemma FailSelectedKeeps(s: Db, k: Ticket, now: int)
    requires Inv(s)
    ensures Inv(FailSelected(s, k, now))
  {
    if GenuineFor(s, k, false) && Leased(s, k.job, k.token) { FailJobKeeps(s, k, Some(now)); }
  }

  lemma CommitSelectedKeeps(s: Db, k: Ticket, content: nat)
    requires Inv(s)
    ensures Inv(CommitSelected(s, k, content))
  {
    if GenuineFor(s, k, false) && Leased(s, k.job, k.token) {
      LeasedHasNoGeneration(s, k.job);
      CompleteKeeps(s, k, s.jobs[k.job].attempts, content);
    }
  }

  // ---------------------------------------------------------------- provider control

  /** Only the control columns differ, so only the chain and the blocks need a new look. */
  lemma ControlFrame(s: Db, t: Db)
    requires LeasesOk(s) && SelectionsOk(s) && JobsOk(s) && GenerationsOk(s) && HandoffsOk(s) && ChainOk(t) && BlocksOk(t)
    requires t == s.(retry := t.retry, paused := t.paused, version := t.version, events := t.events)
    ensures Inv(t)
  {
    forall i | 0 <= i < |t.jobs| ensures JobOk(t, t.jobs[i]) { assert JobOk(s, s.jobs[i]); }
    forall a | 0 <= a < |t.provider| ensures AttemptOk(t, t.provider[a]) { assert AttemptOk(s, s.provider[a]); }
    forall i | 0 <= i < |t.selections| ensures SelectionOk(t, t.selections[i]) { assert SelectionOk(s, s.selections[i]); }
    forall i | 0 <= i < |t.jobs| ensures LiveJobOk(t, t.jobs[i]) { assert LiveJobOk(s, s.jobs[i]); }
    HandoffsOkFrame(s, t);
  }

  lemma HandoffsOkFrame(s: Db, t: Db)
    requires HandoffsOk(s) && t == s.(retry := t.retry, paused := t.paused, version := t.version, events := t.events)
    ensures HandoffsOk(t)
  {
    forall h | 0 <= h < |t.handoffs| ensures HandoffOk(t, t.handoffs[h]) { assert HandoffOk(s, s.handoffs[h]); }
    forall c | 0 <= c < |t.candidates| && t.candidates[c].status == Approved ensures HandedOff(t, c) {
      assert HandedOff(s, c);
      var h :| 0 <= h < |s.handoffs| && s.handoffs[h].approval < |s.tokens| && s.tokens[s.handoffs[h].approval].candidate == c;
      assert t.tokens[t.handoffs[h].approval].candidate == c;
    }
  }

  /** A retry state that keeps its block. */
  lemma RetryKeeps(s: Db, job: nat, r: RetryState)
    requires Inv(s) && job in s.retry && r.blocked == s.retry[job].blocked
    ensures Inv(SetRetry(s, job, r))
  {
    var t := SetRetry(s, job, r);
    forall i | i in t.retry ensures BlockOk(t, i) { assert BlockOk(s, i); }
    ControlFrame(s, t);
  }

  lemma ForgetFailuresKeeps(s: Db, job: nat)
    requires Inv(s)
    ensures Inv(ForgetFailures(s, job))
  {
    if job in s.retry && (s.retry[job].failures > 0 || s.retry[job].held) {
      RetryKeeps(s, job, Released(s.retry[job]));
    } else {
      assert ForgetFailures(s, job) == s;
    }
  }

  lemma CommitCodexKeeps(s: Db, k: Ticket, content: nat)
    requires Inv(s)
    ensures Inv(CommitCodex(s, k, content))
  {
    if GenuineFor(s, k, true) && Leased(s, k.job, k.token) {
      CompleteKeeps(s, k, s.provider[k.attempt].attempt, content);
      ForgetFailuresKeeps(Complete(s, k, s.provider[k.attempt].attempt, content, false), k.job);
    }
  }

  /** While the provider is active, no live job is blocked. */
  lemma ActiveMeansUnblocked(s: Db, job: nat)
    requires BlocksOk(s) && s.paused.None? && job in s.retry && Live(s.jobs[job].status)
    ensures s.retry[job].blocked.None?
  {
    assert BlockOk(s, job);
  }

  lemma FailCodexKeeps(s: Db, k: Ticket, code: FailureCode, now: int, seed: nat)
    requires Inv(s)
    ensures Inv(FailCodex(s, k, code, now, seed).0)
  {
    var t := FailCodex(s, k, code, now, seed).0;
    if FailCodex(s, k, code, now, seed).1 {
      var m := FailJob(s, k, t.jobs[k.job].retryAt);
      FailJobKeeps(s, k, t.jobs[k.job].retryAt);
      FailCodexBlocks(s, m, k, code, now, seed);
      ControlFrame(m, t);
    }
  }

  lemma FailCodexBlocks(s: Db, m: Db, k: Ticket, code: FailureCode, now: int, seed: nat)
    requires FailCodex(s, k, code, now, seed).1
    requires m == FailJob(s, k, FailCodex(s, k, code, now, seed).0.jobs[k.job].retryAt) && BlocksOk(m) && ChainOk(m)
    ensures BlocksOk(FailCodex(s, k, code, now, seed).0) && ChainOk(FailCodex(s, k, code, now, seed).0)
  {
    var t := FailCodex(s, k, code, now, seed).0;
    forall job | job in t.retry ensures BlockOk(t, job) { assert job in m.retry ==> BlockOk(m, job); }
  }

  lemma PauseKeeps(s: Db, expected: nat, reason: PauseReason)
    requires Inv(s)
    ensures Inv(PauseProvider(s, expected, reason))
  {
    var t := PauseProvider(s, expected, reason);
    forall job | job in t.retry ensures BlockOk(t, job) { assert BlockOk(s, job); }
    ControlFrame(s, t);
  }

  /** Setting due times moves nothing but due times. */
  lemma DueTimesKeep(s: Db, t: Db)
    requires Inv(s) && Evolves(s, t) && t == s.(jobs := t.jobs) && |t.jobs| == |s.jobs|
    requires forall i | 0 <= i < |s.jobs| :: t.jobs[i] == s.jobs[i] || (t.jobs[i] == s.jobs[i].(retryAt := t.jobs[i].retryAt) && t.jobs[i].retryAt.Some?)
    ensures LeasesOk(t) && SelectionsOk(t) && JobsOk(t) && GenerationsOk(t) && HandoffsOk(t)
  {
    forall i | 0 <= i < |s.jobs| ensures JobOk(t, t.jobs[i]) { assert JobOk(s, s.jobs[i]); }
    LeasesFrame(s, t);
    SelectionsFrame(s, t);
    JobsFrame(s, t);
    GenerationsFrame(s, t);
    HandoffsFrame(s, t);
  }

  lemma ResumeProviderKeeps(s: Db, expected: nat, resume: ResumeReason, now: int)
    requires Inv(s)
    ensures Inv(ResumeProvider(s, expected, resume, now))
  {
    var t := ResumeProvider(s, expected, resume, now);
    if t != s {
      var jobs := FreeJobs(s, s.version, s.paused.value, now).jobs;
      var m := s.(jobs := jobs);
      FreeJobsEvolves(s, s.version, s.paused.value, now);
      ControlEvolves(s, FreeJobs(s, s.version, s.paused.value, now), m);
      DueTimesKeep(s, m);
      ResumeBlocks(s, expected, resume, now);
      ControlFrame(m, t);
    }
  }

  /** The blocked live jobs are exactly those the resume frees. */
  lemma FreedAreTheBlocked(s: Db, job: nat)
    requires BlocksOk(s) && s.paused.Some? && job in s.retry && Live(s.jobs[job].status)
    ensures FreedBy(s, job, s.version, s.paused.value) <==> s.retry[job].blocked.Some?
  {
    assert BlockOk(s, job);
  }

  lemma ResumeBlocks(s: Db, expected: nat, resume: ResumeReason, now: int)
    requires BlocksOk(s) && ChainOk(s) && ResumeProvider(s, expected, resume, now) != s
    ensures BlocksOk(ResumeProvider(s, expected, resume, now)) && ChainOk(ResumeProvider(s, expected, resume, now))
  {
    var t := ResumeProvider(s, expected, resume, now);
    forall job | job in t.retry ensures BlockOk(t, job) {
      assert BlockOk(s, job);
      if Live(s.jobs[job].status) { FreedAreTheBlocked(s, job); }
    }
  }

  lemma HoldKeeps(s: Db, job: nat)
    requires Inv(s)
    ensures Inv(HoldJob(s, job))
  {
    if RetryControllable(s, job) && !s.retry[job].held {
      RetryKeeps(s, job, Held(s.retry[job]));
    } else {
      assert HoldJob(s, job) == s;
    }
  }

  lemma ReleaseKeeps(s: Db, job: nat, now: int)
    requires Inv(s)
    ensures Inv(ReleaseJob(s, job, now))
  {
    if RetryControllable(s, job) && s.retry[job].held {
      RetryKeeps(s, job, Released(s.retry[job]));
      WakeKeeps(SetRetry(s, job, Released(s.retry[job])), job, now);
    } else {
      assert ReleaseJob(s, job, now) == s;
    }
  }

  lemma WakeKeeps(s: Db, job: nat, now: int)
    requires Inv(s) && job < |s.jobs|
    ensures Inv(Wake(s, job, now))
  {
    DueTimesKeep(s, Wake(s, job, now));
    WakeBlocks(s, job, now);
  }

  lemma WakeBlocks(s: Db, job: nat, now: int)
    requires BlocksOk(s) && job < |s.jobs|
    ensures BlocksOk(Wake(s, job, now))
  {
    var t := Wake(s, job, now);
    forall i | i in t.retry ensures BlockOk(t, i) { assert BlockOk(s, i); }
  }

  // ---------------------------------------------------------------- all of them

  lemma DeskStepKeeps(s: Db, c: DeskCall)
    requires Inv(s)
    ensures Inv(DeskStep(s, c))
  {
    match c
    case CallAddCandidate(run, immediate) => AddCandidateKeeps(s, run, immediate);
    case CallCreateDigest(run, stale, reused) => CreateDigestKeeps(s, run, stale, reused);
    case CallIssue(k) => IssueKeeps(s, k);
    case CallApply(t, e, now) => ApplyKeeps(s, t, e, now);
    case CallResume(now, stale) => ResumeKeeps(s, now, stale);
    case CallResumeAuthorized(now, recorded) => ResumeAuthorizedKeeps(s, now, recorded);
    case CallCutover => CutoverKeeps(s);
    case CallInvalidate(stale) => InvalidateKeeps(s, stale);
  }

  lemma WorkerStepKeeps(s: Db, c: WorkerCall)
    requires Inv(s)
    ensures Inv(WorkerStep(s, c))
  {
    match c
    case CallStartSelected(candidate, now, token, bound) => StartSelectedKeeps(s, candidate, now, token, bound);
    case CallFailSelected(k, now) => FailSelectedKeeps(s, k, now);
    case CallCommitSelected(k, content) => CommitSelectedKeeps(s, k, content);
    case CallSelectCodex(now) => SelectCodexKeeps(s, now);
    case CallStartCodex(job, now, token, bound) => StartCodexKeeps(s, job, now, token, bound);
    case CallFailCodex(k, code, now, seed) => FailCodexKeeps(s, k, code, now, seed);
    case CallCommitCodex(k, content) => CommitCodexKeeps(s, k, content);
  }

  lemma OperatorStepKeeps(s: Db, c: OperatorCall)
    requires Inv(s)
    ensures Inv(OperatorStep(s, c))
  {
    match c
    case CallPause(expected, reason) => PauseKeeps(s, expected, reason);
    case CallResumeProvider(expected, resume, now) => ResumeProviderKeeps(s, expected, resume, now);
    case CallHold(job) => HoldKeeps(s, job);
    case CallRelease(job, now) => ReleaseKeeps(s, job, now);
  }

  lemma StepKeeps(s: Db, c: Call)
    requires Inv(s)
    ensures Inv(Step(s, c))
  {
    match c
    case Desk(d) => DeskStepKeeps(s, d);
    case Worker(w) => WorkerStepKeeps(s, w);
    case Operator(o) => OperatorStepKeeps(s, o);
  }

  /** Every interleaving of calls, with a stop after any of them, keeps the invariant. */
  lemma {:induction false} RunKeeps(s: Db, calls: seq<Call>)
    requires Inv(s)
    ensures Inv(Run(s, calls)) && Evolves(s, Run(s, calls))
    decreases |calls|
  {
    if calls != [] {
      var before := Run(s, calls[..|calls| - 1]);
      RunKeeps(s, calls[..|calls| - 1]);
      StepKeeps(before, calls[|calls| - 1]);
      StepEvolves(before, calls[|calls| - 1]);
      EvolvesTransitive(s, before, Run(s, calls));
    } else {
      EvolvesReflexive(s);
    }
  }

  lemma EvolvesReflexive(s: Db)
    ensures Evolves(s, s)
  {
  }
}
