/** Nobody waits for work that nobody will do: every waiting candidate has a live job, and a commit brings it to review. */
module PipelineProgress {
  import opened Common
  import opened PipelineModel
  import opened PipelineInvariant
  import opened PipelineSteps

  // ---------------------------------------------------------------- waiting candidates

  /** Job i works for candidate c, and is not finished. */
  ghost predicate WorkFor(s: Db, c: nat, i: nat) {
    && i < |s.jobs| && s.jobs[i].status in {Queued, Running, FailedRecoverable}
    && s.jobs[i].selection < |s.selections| && s.selections[s.jobs[i].selection].candidate == c
  }

  ghost predicate NobodyForgotten(s: Db) {
    forall c: nat | c < |s.candidates| && s.candidates[c].status == GenerationPending :: exists i: nat :: WorkFor(s, c, i)
  }

  /** Candidates only begin to wait where noted, and jobs stay live where they are. */
  lemma StillRemembered(s: Db, t: Db, but: set<nat>)
    requires NobodyForgotten(s) && s.selections <= t.selections && |s.jobs| <= |t.jobs|
    requires forall c: nat | c < |t.candidates| && t.candidates[c].status == GenerationPending && c !in but ::
               c < |s.candidates| && s.candidates[c].status == GenerationPending
    requires forall i: nat, c: nat | WorkFor(s, c, i) && c !in but && c < |t.candidates| && t.candidates[c].status == GenerationPending ::
               WorkFor(t, c, i)
    requires forall c: nat | c in but && c < |t.candidates| && t.candidates[c].status == GenerationPending :: exists i: nat :: WorkFor(t, c, i)
    ensures NobodyForgotten(t)
  {
    forall c: nat | c < |t.candidates| && t.candidates[c].status == GenerationPending && c !in but ensures exists i: nat :: WorkFor(t, c, i) {
      var i: nat :| WorkFor(s, c, i);
      assert WorkFor(t, c, i);
    }
  }

  lemma MakeRemembers(s: Db, k: CallbackToken, now: int)
    requires Inv(s) && NobodyForgotten(s) && k.candidate < |s.candidates| && k.digest < |s.digests|
    requires ChosenFrom(s, k.digest, |s.selections|).None?
    ensures NobodyForgotten(MakeSelection(s, k, now))
  {
    var t := MakeSelection(s, k, now);
    var sel := |s.selections|;
    assert !HasInitialJob(s, sel) by {
      forall i | 0 <= i < |s.jobs| ensures s.jobs[i].selection != sel { assert LiveJobOk(s, s.jobs[i]); }
    }
    assert WorkFor(t, k.candidate, |s.jobs|);
    StillRemembered(s, t, {k.candidate});
  }

  lemma ReworkRemembers(s: Db, k: CallbackToken, now: int)
    requires Inv(s) && NobodyForgotten(s) && k.candidate < |s.candidates|
    ensures NobodyForgotten(Rework(s, k, now))
  {
    var sel := SelectionOf(s, k.candidate, |s.selections|);
    if sel.Some? {
      var t := Rework(s, k, now);
      assert WorkFor(t, k.candidate, |s.jobs|);
      forall i: nat, c: nat | WorkFor(s, c, i) && c != k.candidate ensures WorkFor(t, c, i) {
        assert s.jobs[i].selection != sel.value && t.jobs[i] == s.jobs[i];
      }
      StillRemembered(s, t, {k.candidate});
    }
  }

  lemma ApplyRemembers(s: Db, t: nat, e: Circumstances, now: int)
    requires Inv(s) && NobodyForgotten(s)
    ensures NobodyForgotten(Apply(s, t, e, now))
  {
    if t < |s.tokens| && TokenFits(s, s.tokens[t], e) {
      var m := Consume(s, t);
      ConsumeKeeps(s, t);
      ConsumeEvolves(s, t);
      assert TokenEvolves(s.tokens[t], m.tokens[t]);
      assert NobodyForgotten(m) by { StillRemembered(s, m, {}); }
      ActRemembers(m, t, now);
    }
  }

  lemma ActRemembers(s: Db, t: nat, now: int)
    requires Inv(s) && NobodyForgotten(s) && t < |s.tokens| && s.tokens[t].candidate < |s.candidates| && s.tokens[t].digest < |s.digests|
    requires s.tokens[t].stage == Selection ==> s.digests[s.tokens[t].digest].status == ActiveDigest
    ensures NobodyForgotten(Act(s, t, now))
  {
    var k := s.tokens[t];
    match k.action
    case Make => if k.stage == Selection { MakeIsFresh(s, k); MakeRemembers(s, k, now); }
    case Regenerate => ReworkRemembers(s, k, now);
    case PageChange => ReworkRemembers(s, k, now);
    case _ => StillRemembered(s, Act(s, t, now), {});
  }

  lemma DeskRemembers(s: Db, c: DeskCall)
    requires Inv(s) && NobodyForgotten(s)
    ensures NobodyForgotten(DeskStep(s, c))
  {
    if c.CallApply? { ApplyRemembers(s, c.t, c.e, c.now); }
    else if c.CallInvalidate? { InvalidateRemembers(s, c.stale); }
    else { StillRemembered(s, DeskStep(s, c), {}); }
  }

  /** What an invalidation takes with it belongs to the candidates that go. */
  lemma InvalidateRemembers(s: Db, stale: set<nat>)
    requires NobodyForgotten(s)
    ensures NobodyForgotten(Invalidate(s, stale))
  {
    StillRemembered(s, Invalidate(s, stale), {});
  }

  lemma StartRemembers(s: Db, candidate: nat, job: nat, now: int, token: nat, sourcesBound: bool)
    requires NobodyForgotten(s)
    ensures NobodyForgotten(StartSelected(s, candidate, now, token, sourcesBound).0)
    ensures NobodyForgotten(StartCodex(s, job, now, token, sourcesBound).0)
  {
    var t, got := StartSelected(s, candidate, now, token, sourcesBound).0, StartSelected(s, candidate, now, token, sourcesBound).1;
    if got.Some? {
      assert WorkFor(t, candidate, got.value.job);
      StillRemembered(s, t, {candidate});
    }
    StillRemembered(s, StartCodex(s, job, now, token, sourcesBound).0, {});
  }

  lemma FailJobRemembers(s: Db, k: Ticket, retryAt: Option<int>)
    requires NobodyForgotten(s) && k.job < |s.jobs|
    ensures NobodyForgotten(FailJob(s, k, retryAt))
  {
    StillRemembered(s, FailJob(s, k, retryAt), {});
  }

  lemma FailRemembers(s: Db, k: Ticket, code: FailureCode, now: int, seed: nat)
    requires NobodyForgotten(s)
    ensures NobodyForgotten(FailSelected(s, k, now)) && NobodyForgotten(FailCodex(s, k, code, now, seed).0)
  {
    if k.job < |s.jobs| && Leased(s, k.job, k.token) {
      FailJobRemembers(s, k, Some(now));
      var m := CountFailure(s, k.job, code);
      assert NobodyForgotten(m) by { StillRemembered(s, m, {}); }
      FailJobRemembers(m, k, RetryTime(s, k.job, code, now, seed));
    }
  }

  /** The candidate of a finished job is out of waiting, so nobody is left waiting for it. */
  lemma CompleteRemembers(s: Db, k: Ticket, attempt: nat, content: nat, reuse: bool)
    requires NobodyForgotten(s) && k.job < |s.jobs|
    ensures NobodyForgotten(Complete(s, k, attempt, content, reuse))
  {
    var t := Complete(s, k, attempt, content, reuse);
    forall c: nat, i: nat | WorkFor(s, c, i) && c < |t.candidates| && t.candidates[c].status == GenerationPending ensures WorkFor(t, c, i) {
      if i == k.job { assert false; }
    }
    StillRemembered(s, t, {});
  }

  lemma WorkerRemembers(s: Db, c: WorkerCall)
    requires NobodyForgotten(s)
    ensures NobodyForgotten(WorkerStep(s, c))
  {
    match c
    case CallStartSelected(candidate, now, token, bound) => StartRemembers(s, candidate, 0, now, token, bound);
    case CallStartCodex(job, now, token, bound) => StartRemembers(s, 0, job, now, token, bound);
    case CallFailSelected(k, now) => FailRemembers(s, k, Busy, now, 0);
    case CallFailCodex(k, code, now, seed) => FailRemembers(s, k, code, now, seed);
    case CallSelectCodex(now) => StillRemembered(s, SelectCodex(s, now).0, {});
    case CallCommitSelected(k, content) =>
      if k.job < |s.jobs| { CompleteRemembers(s, k, s.jobs[k.job].attempts, content, HasCurrent(s, k.job)); }
    case CallCommitCodex(k, content) => CommitCodexRemembers(s, k, content);
  }

  lemma CommitCodexRemembers(s: Db, k: Ticket, content: nat)
    requires NobodyForgotten(s)
    ensures NobodyForgotten(CommitCodex(s, k, content))
  {
    if GenuineFor(s, k, true) && Leased(s, k.job, k.token) {
      var m := Complete(s, k, s.provider[k.attempt].attempt, content, false);
      CompleteRemembers(s, k, s.provider[k.attempt].attempt, content, false);
      StillRemembered(m, ForgetFailures(m, k.job), {});
    }
  }

  lemma OperatorRemembers(s: Db, c: OperatorCall)
    requires NobodyForgotten(s)
    ensures NobodyForgotten(OperatorStep(s, c))
  {
    StillRemembered(s, OperatorStep(s, c), {});
  }

  /** Over every run: a candidate that waits for a generation has a live job, so none waits for what nobody will make. */
  lemma {:induction false} EveryWaiterHasWork(calls: seq<Call>)
    ensures Inv(Run(EmptyDb(), calls)) && NobodyForgotten(Run(EmptyDb(), calls))
    decreases |calls|
  {
    InitInv();
    RunKeeps(EmptyDb(), calls);
    if calls != [] {
      var s := Run(EmptyDb(), calls[..|calls| - 1]);
      EveryWaiterHasWork(calls[..|calls| - 1]);
      match calls[|calls| - 1]
      case Desk(d) => DeskRemembers(s, d);
      case Worker(w) => WorkerRemembers(s, w);
      case Operator(o) => OperatorRemembers(s, o);
    }
  }

  // ---------------------------------------------------------------- commits

  /** The ticket's attempt is on its job, which runs under its token; only Codex's jobs are bound. */
  ghost predicate HoldsLease(s: Db, k: Ticket, codex: bool) {
    && k.attempt < |s.provider| && s.provider[k.attempt].job == k.job && s.provider[k.attempt].token == k.token
    && k.job < |s.jobs| && s.jobs[k.job].status == Running && s.jobs[k.job].token == Some(k.token) && s.jobs[k.job].bound == codex
  }

  ghost predicate SameControl(s: Db, u: Db) {
    u.retry == s.retry && u.paused == s.paused && u.version == s.version && u.events == s.events && u.cutover == s.cutover
  }

  /** A generation was made: one new current row with this content for the job, whose candidate is up for review. */
  ghost predicate Generated(s: Db, t: Db, job: nat, content: nat)
    requires job < |s.jobs|
  {
    && |t.generations| == |s.generations| + 1 && t.generations[..|s.generations|] == s.generations
    && t.generations[|s.generations|].job == job && t.generations[|s.generations|].content == content
    && t.generations[|s.generations|].current
    && |t.jobs| == |s.jobs| && t.jobs[job] == s.jobs[job].(status := Succeeded, token := None)
    && (forall i | 0 <= i < |s.jobs| && i != job :: t.jobs[i] == s.jobs[i])
    && s.jobs[job].selection < |s.selections|
    && var c := s.selections[s.jobs[job].selection].candidate;
    && c < |s.candidates| && t.candidates == s.candidates[c := s.candidates[c].(status := PendingReview)]
    && t.selections == s.selections && t.digests == s.digests && t.tokens == s.tokens && t.handoffs == s.handoffs
    && t.issued == s.issued
  }

  /** The attempt of a ticket is completed; no other attempt changes. */
  ghost predicate AttemptEnds(s: Db, t: Db, a: nat, outcome: AttemptOutcome) {
    && a < |s.provider| && |t.provider| == |s.provider| && t.provider[a] == s.provider[a].(outcome := Some(outcome))
    && forall b | 0 <= b < |s.provider| && b != a :: t.provider[b] == s.provider[b]
  }

  lemma CompleteGenerates(s: Db, k: Ticket, attempt: nat, content: nat)
    requires Inv(s) && Genuine(s, k) && Leased(s, k.job, k.token)
    ensures var t := Complete(s, k, attempt, content, false);
            Generated(s, t, k.job, content) && AttemptEnds(s, t, k.attempt, Completed) && SameControl(s, t)
            && t.generations[|s.generations|].attempt == attempt
  {
    LeasedFacts(s, k);
  }

  /** The leaseholder's commit, on the first path: what it was given becomes the candidate's current generation. */
  lemma {:induction false} CommitBringsReview(s: Db, k: Ticket, content: nat)
    requires Inv(s)
    ensures var t := CommitSelected(s, k, content);
            if HoldsLease(s, k, false)
            then Generated(s, t, k.job, content) && AttemptEnds(s, t, k.attempt, Completed) && SameControl(s, t)
                 && t.generations[|s.generations|].attempt == s.jobs[k.job].attempts
            else t == s
  {
    if GenuineFor(s, k, false) && Leased(s, k.job, k.token) {
      LeasedFacts(s, k);
      CompleteGenerates(s, k, s.jobs[k.job].attempts, content);
    }
  }

  /** A job's failures and hold are forgotten; nothing else of the control moves. */
  ghost predicate Forgiven(s: Db, t: Db, job: nat) {
    && t.retry.Keys == s.retry.Keys && SameControl(s, t.(retry := s.retry))
    && (job in s.retry ==> t.retry[job].failures == 0 && !t.retry[job].held && t.retry[job].blocked == s.retry[job].blocked)
    && (forall j | j in s.retry && j != job :: t.retry[j] == s.retry[j])
  }

  lemma ForgetForgives(s: Db, job: nat)
    ensures Forgiven(s, ForgetFailures(s, job), job) && ForgetFailures(s, job) == s.(retry := ForgetFailures(s, job).retry)
  {
  }

  /** And on the Codex path, where a success also ends the count of failures and a hold. */
  lemma {:induction false} CodexCommitBringsReview(s: Db, k: Ticket, content: nat)
    requires Inv(s)
    ensures var t := CommitCodex(s, k, content);
            if HoldsLease(s, k, true)
            then && Generated(s, t, k.job, content) && AttemptEnds(s, t, k.attempt, Completed)
                 && t.generations[|s.generations|].attempt == s.provider[k.attempt].attempt
                 && Forgiven(s, t, k.job)
            else t == s
  {
    if GenuineFor(s, k, true) && Leased(s, k.job, k.token) {
      CompleteGenerates(s, k, s.provider[k.attempt].attempt, content);
      var m := Complete(s, k, s.provider[k.attempt].attempt, content, false);
      ForgetForgives(m, k.job);
    }
  }

  /** What holds of a leased job: its candidate waits, nothing was generated for it, and its attempt is open. */
  lemma LeasedFacts(s: Db, k: Ticket)
    requires Inv(s) && Genuine(s, k) && Leased(s, k.job, k.token)
    ensures s.jobs[k.job].selection < |s.selections|
    ensures var c := s.selections[s.jobs[k.job].selection].candidate;
            c < |s.candidates| && s.candidates[c].status == GenerationPending && CandidateOf(s, k.job) == Some(c)
    ensures !HasCurrent(s, k.job) && s.provider[k.attempt].outcome.None?
  {
    assert LiveJobOk(s, s.jobs[k.job]);
    LeasedHasNoGeneration(s, k.job);
    assert AttemptOk(s, s.provider[k.attempt]);
  }
}
