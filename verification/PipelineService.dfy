/**
  The approval service, the generation pipeline and the operator commands as they run: one
  transaction per method, rows updated in place in the order of the source.  Each method is
  proved to leave the database of its transition in PipelineModel.
 */
module PipelineService {
  import opened Common
  import opened PipelineModel

  class NewsDesk {
    var candidates: seq<Candidate>
    var digests: seq<Digest>
    var selections: seq<SelectionRow>
    var jobs: seq<Job>
    var provider: seq<ProviderAttempt>
    var generations: seq<Generation>
    var tokens: seq<CallbackToken>
    var handoffs: seq<Handoff>
    var retry: map<nat, RetryState>
    var paused: Option<PauseReason>
    var version: nat
    var events: seq<ControlEvent>
    var issued: set<nat>
    var cutover: bool

    constructor ()
      ensures Rows() == EmptyDb()
    {
      candidates, digests, selections, jobs, provider, generations := [], [], [], [], [], [];
      tokens, handoffs, retry, paused, version, events, issued, cutover := [], [], map[], None, FIRST_VERSION, [], {}, false;
    }

    function Rows(): Db
      reads this
    {
      Db(candidates, digests, selections, jobs, provider, generations, tokens, handoffs, retry, paused, version, events,
         issued, cutover)
    }

    // ---------------------------------------------------------------- CandidateApprovalService

    method ApplyCallback(t: nat, e: Circumstances, now: int)
      modifies this
      ensures Rows() == Apply(old(Rows()), t, e, now)
    {
      if t >= |tokens| { return; }
      var k := tokens[t];
      if !e.authorized || k.revoked || k.consumed || !e.admitted { return; }
      if k.candidate >= |candidates| { return; }
      var expected := if k.stage == Selection then PendingSelection else PendingReview;
      if candidates[k.candidate].status != expected || !e.sourcesCurrent { return; }
      if k.candidateRevision != candidates[k.candidate].revision || k.digest >= |digests| { return; }
      var expectedDigest := if k.stage == Selection then ActiveDigest else SelectedDigest;
      if digests[k.digest].status != expectedDigest || digests[k.digest].revision != k.digestRevision { return; }
      if k.stage == Review {
        if !GenerationFits(Rows(), k, e) { return; }
      }
      tokens := tokens[t := k.(consumed := true)];
      if k.action != Refresh { tokens := RevokeTokens(tokens, k.candidate, false); }
      assert Rows() == Consume(old(Rows()), t);
      Decide(t, now);
    }

    method Decide(t: nat, now: int)
      requires t < |tokens| && tokens[t].candidate < |candidates| && tokens[t].digest < |digests|
      modifies this`candidates, this`digests, this`selections, this`jobs, this`generations, this`handoffs
      ensures Rows() == Act(old(Rows()), t, now)
    {
      var k := tokens[t];
      match k.action {
        case Refresh =>
        case Defer(hours) =>
          candidates := candidates[k.candidate := candidates[k.candidate].(status := Deferred, stage := k.stage,
                                                                           dueAt := now + hours * 3_600_000_000)];
        case RejectAction => candidates := candidates[k.candidate := candidates[k.candidate].(status := Rejected)];
        case Make => if k.stage == Selection { SelectCandidate(k, now); }
        case ApproveHandoff =>
          if k.stage == Review {
            handoffs := handoffs + [Handoff(k.generation, t)];
            candidates := candidates[k.candidate := candidates[k.candidate].(status := Approved)];
            digests := digests[k.digest := digests[k.digest].(status := ApprovedDigest)];
          }
        case _ => if k.stage == Review { ReworkCandidate(k, now); }
      }
    }

    method SelectCandidate(k: CallbackToken, now: int)
      requires k.candidate < |candidates| && k.digest < |digests|
      modifies this`selections, this`jobs, this`candidates, this`digests
      ensures Rows() == MakeSelection(old(Rows()), k, now)
    {
      var chosen := ChosenFrom(Rows(), k.digest, |selections|);
      if chosen.Some? && selections[chosen.value].candidate != k.candidate { return; }
      var sel := if chosen.Some? then chosen.value else |selections|;
      if chosen.None? { selections := selections + [SelectionRow(k.digest, k.candidate)]; }
      if !HasInitialJob(Rows(), sel) { jobs := jobs + [Job(sel, true, Queued, 0, None, 0, None, now, false, cutover)]; }
      candidates := candidates[k.candidate := candidates[k.candidate].(status := GenerationPending)];
      digests := digests[k.digest := digests[k.digest].(status := SelectedDigest)];
    }

    method ReworkCandidate(k: CallbackToken, now: int)
      requires k.candidate < |candidates|
      modifies this`generations, this`jobs, this`candidates
      ensures Rows() == Rework(old(Rows()), k, now)
    {
      var sel := SelectionOf(Rows(), k.candidate, |selections|);
      if sel.None? { return; }
      generations := SupersedeGenerations(Rows(), {sel.value});
      jobs := SupersedeJobs(jobs, {sel.value});
      jobs := jobs + [Job(sel.value, false, Queued, 0, None, 0, None, now, false, cutover)];
      candidates := candidates[k.candidate := candidates[k.candidate].(status := GenerationPending)];
    }

    /** create_digest supersedes stale candidates one by one. */
    method CreateCandidateDigest(run: nat, stale: set<nat>, reused: bool)
      modifies this`candidates, this`digests
      ensures Rows() == CreateDigest(old(Rows()), run, stale, reused)
    {
      for c := 0 to |candidates|
        invariant |candidates| == |old(candidates)| && digests == old(digests)
        invariant forall i | 0 <= i < |candidates| ::
                    candidates[i] == if i < c && i in stale then Aged(old(candidates)[i], run) else old(candidates)[i]
      {
        if c in stale && candidates[c].run == run && candidates[c].status == PendingSelection {
          candidates := candidates[c := candidates[c].(status := CandidateSuperseded, revision := candidates[c].revision + 1)];
        }
      }
      AllAged(old(Rows()), candidates, run, stale, reused);
      if !reused { digests := digests + [Digest(run, ActiveDigest, 1)]; }
    }

    /** resume_due: the due deferrals one by one, each to its stage, or superseded with its run's digests. */
    method ResumeDeferred(now: int, stale: set<nat>)
      modifies this`candidates, this`digests, this`tokens
      ensures Rows() == Resume(old(Rows()), now, stale)
    {
      if cutover { return; }
      ghost var s := Rows();
      NobodyResumed(s, stale);
      for c := 0 to |candidates|
        invariant Rows() == ResumeSet(s, DueBelow(s, c, now), stale)
      {
        NextDue(s, c, now);
        if ResumeDue(candidates[c], now) {
          ResumeOneMore(s, DueBelow(s, c, now), c, stale);
          ResumeOne(c, c in stale);
        }
      }
      assert DueBelow(s, |s.candidates|, now) == (set c | 0 <= c < |s.candidates| && ResumeDue(s.candidates[c], now));
    }

    method ResumeOne(c: nat, isStale: bool)
      requires c < |candidates|
      modifies this`candidates, this`digests, this`tokens
      ensures Rows() == OneResumed(old(Rows()), c, isStale)
    {
      if isStale {
        candidates := candidates[c := candidates[c].(status := CandidateSuperseded, revision := candidates[c].revision + 1)];
        digests := SupersedeDigests(digests, {candidates[c].run}, {ActiveDigest, SelectedDigest});
      } else {
        var status := if candidates[c].stage == Selection then PendingSelection else PendingReview;
        candidates := candidates[c := candidates[c].(status := status)];
        tokens := RevokeTokens(tokens, c, true);
      }
    }

    // ---------------------------------------------------------------- NewsPipeline

    /** _invalidate_revised_candidates: candidates, then digests, then jobs, then generations. */
    method InvalidateRevised(stale: set<nat>)
      modifies this`candidates, this`digests, this`jobs, this`generations
      ensures Rows() == Invalidate(old(Rows()), stale)
    {
      var gone := set c | c in stale && c < |candidates| && !(candidates[c].status in {CandidateSuperseded, Approved});
      if gone == {} {
        NothingGone(Rows(), stale);
        return;
      }
      var runs := set c | c in gone :: candidates[c].run;
      var sels := set i | 0 <= i < |selections| && selections[i].candidate in gone;
      candidates := SupersedeCandidates(candidates, gone);
      digests := SupersedeDigests(digests, runs, {ActiveDigest});
      jobs := SupersedeJobs(jobs, sels);
      generations := SupersedeGenerations(Rows(), sels);
      assert generations == SupersedeGenerations(old(Rows()), sels);
    }

    /** First transaction of generate_selected. */
    method LeaseSelected(candidate: nat, now: int, token: nat, sourcesBound: bool) returns (k: Option<Ticket>)
      modifies this
      ensures (Rows(), k) == StartSelected(old(Rows()), candidate, now, token, sourcesBound)
    {
      k := None;
      if token in issued || candidate >= |candidates| { return; }
      if candidates[candidate].status !in {GenerationPending, PendingReview} { return; }
      var job := JobFor(Rows(), candidate, now);
      if job.None? || jobs[job.value].bound || !sourcesBound { return; }
      var id := job.value;
      provider := CloseAttempts(provider, id, Abandoned);
      var attempt := jobs[id].attempts + 1;
      jobs := jobs[id := jobs[id].(status := Running, attempts := attempt, token := Some(token),
                                   leaseExpires := now + LEASE_US, retryAt := None)];
      k := Some(Ticket(id, token, |provider|));
      provider := provider + [ProviderAttempt(id, attempt, token, None)];
      issued := issued + {token};
      candidates := candidates[candidate := candidates[candidate].(status := GenerationPending)];
    }

    method SettleSelectedFailure(k: Ticket, now: int)
      modifies this`provider, this`jobs
      ensures Rows() == FailSelected(old(Rows()), k, now)
    {
      if !GenuineFor(Rows(), k, false) { return; }
      if Leased(Rows(), k.job, k.token) {
        if provider[k.attempt].outcome.None? {
          provider := provider[k.attempt := provider[k.attempt].(outcome := Some(Failed))];
        }
        jobs := jobs[k.job := jobs[k.job].(status := FailedRecoverable, retryAt := Some(now), token := None)];
      }
    }

    method CommitSelectedDraft(k: Ticket, content: nat)
      modifies this`generations, this`provider, this`jobs, this`candidates
      ensures Rows() == CommitSelected(old(Rows()), k, content)
    {
      if !GenuineFor(Rows(), k, false) || !Leased(Rows(), k.job, k.token) { return; }
      CompleteInTwo(Rows(), k, jobs[k.job].attempts, content);
      if !HasCurrent(Rows(), k.job) {
        generations := generations + [Generation(k.job, jobs[k.job].attempts, content, true)];
      }
      FinishJob(k);
    }

    /** The updates that close the attempt, the job and the candidate's wait. */
    method FinishJob(k: Ticket)
      requires k.job < |jobs|
      modifies this`provider, this`jobs, this`candidates
      ensures Rows() == Complete(old(Rows()), k, 0, 0, true)
    {
      var c := CandidateOf(Rows(), k.job);
      if k.attempt < |provider| && provider[k.attempt].outcome.None? {
        provider := provider[k.attempt := provider[k.attempt].(outcome := Some(Completed))];
      }
      jobs := jobs[k.job := jobs[k.job].(status := Succeeded, token := None)];
      if c.Some? && candidates[c.value].status == GenerationPending {
        candidates := candidates[c.value := candidates[c.value].(status := PendingReview)];
      }
    }

    /** select_codex_job_id: the most urgent bound job, or else bind the oldest unbound one. */
    method SelectCodexJob(now: int) returns (job: Option<nat>)
      modifies this`jobs
      ensures (Rows(), job) == SelectCodex(old(Rows()), now)
    {
      if paused.Some? { return None; }
      job := MostUrgent(Rows(), now, |jobs|);
      if job.Some? { return; }
      job := OldestUnbound(Rows(), |jobs|);
      if job.Some? { jobs := jobs[job.value := jobs[job.value].(bound := true)]; }
    }

    method LeaseCodex(job: nat, now: int, token: nat, sourcesBound: bool) returns (k: Option<Ticket>)
      modifies this
      ensures (Rows(), k) == StartCodex(old(Rows()), job, now, token, sourcesBound)
    {
      k := None;
      if token in issued || paused.Some? { return; }
      if MostUrgent(Rows(), now, |jobs|) != Some(job) || !sourcesBound { return; }
      if jobs[job].status == Running { provider := CloseAttempts(provider, job, Abandoned); }
      var attempt := jobs[job].attempts + 1;
      jobs := jobs[job := jobs[job].(status := Running, attempts := attempt, token := Some(token),
                                     leaseExpires := now + LEASE_US, retryAt := None)];
      k := Some(Ticket(job, token, |provider|));
      provider := provider + [ProviderAttempt(job, attempt, token, None)];
      issued := issued + {token};
    }

    method CommitCodexDraft(k: Ticket, content: nat)
      modifies this`generations, this`provider, this`jobs, this`retry, this`candidates
      ensures Rows() == CommitCodex(old(Rows()), k, content)
    {
      if !GenuineFor(Rows(), k, true) || !Leased(Rows(), k.job, k.token) { return; }
      CompleteInTwo(Rows(), k, provider[k.attempt].attempt, content);
      generations := generations + [Generation(k.job, provider[k.attempt].attempt, content, true)];
      FinishJob(k);
      if k.job in retry && (retry[k.job].failures > 0 || retry[k.job].held) {
        retry := retry[k.job := retry[k.job].(failures := 0, held := false, version := retry[k.job].version + 1)];
      }
    }

    /** _settle_codex_failure; a false answer is its raised error, which rolls everything back. */
    method SettleCodexFailure(k: Ticket, code: FailureCode, now: int, seed: nat) returns (settled: bool)
      modifies this
      ensures (Rows(), settled) == FailCodex(old(Rows()), k, code, now, seed)
    {
      if !GenuineFor(Rows(), k, true) || !Leased(Rows(), k.job, k.token) { return false; }
      if provider[k.attempt].outcome.Some? { return false; }
      if code.Pausing? && paused.Some? { return false; }
      var retryAt := CountFailure(k.job, code, now, seed);
      provider := provider[k.attempt := provider[k.attempt].(outcome := Some(Failed))];
      jobs := jobs[k.job := jobs[k.job].(status := FailedRecoverable, retryAt := retryAt, token := None)];
      return true;
    }

    /** The retry state after one more failure, and the pause that some codes bring. */
    method CountFailure(job: nat, code: FailureCode, now: int, seed: nat) returns (retryAt: Option<int>)
      modifies this`retry, this`paused, this`version, this`events
      ensures Rows() == PipelineModel.CountFailure(old(Rows()), job, code)
      ensures retryAt == RetryTime(old(Rows()), job, code, now, seed)
    {
      var state := if job in retry then retry[job] else RetryState(0, false, None, 1);
      var failures := state.failures + 1;
      retryAt := None;
      state := state.(failures := failures, version := state.version + 1);
      if code.Pausing? {
        PauseBySystem(code.reason);
        state := state.(blocked := Some(Block(version, code.reason)));
      } else if Holds(code, failures) {
        state := state.(held := true);
      } else {
        retryAt := Some(now + Delay(code, failures, Jitter(seed)) * SECOND_US);
      }
      retry := retry[job := state];
    }

    method PauseBySystem(reason: PauseReason)
      modifies this`paused, this`version, this`events
      ensures paused == Some(reason) && version == old(version) + 1
      ensures events == old(events) + [ControlEvent(true, old(version), version)]
    {
      version := version + 1;
      paused := Some(reason);
      events := events + [ControlEvent(true, version - 1, version)];
    }

    // ---------------------------------------------------------------- operator commands

    method PauseCodex(expected: nat, reason: PauseReason)
      modifies this`paused, this`version, this`events
      ensures Rows() == PauseProvider(old(Rows()), expected, reason)
    {
      if version != expected || paused.Some? { return; }
      version := version + 1;
      paused := Some(reason);
      events := events + [ControlEvent(true, version - 1, version)];
    }

    /** The resume: the control row and its event first, then the jobs it frees. */
    method ResumeCodex(expected: nat, reason: ResumeReason, now: int)
      modifies this`paused, this`version, this`events, this`jobs, this`retry
      ensures Rows() == ResumeProvider(old(Rows()), expected, reason, now)
    {
      if version != expected || paused.None? || ResumeReasonFor(paused.value) != reason { return; }
      var pauseVersion, pauseReason := version, paused.value;
      version := version + 1;
      paused := None;
      events := events + [ControlEvent(false, pauseVersion, version)];
      FreeBlocked(pauseVersion, pauseReason, now);
    }

    /** In id order: the block goes and the job is due. */
    method FreeBlocked(pauseVersion: nat, pauseReason: PauseReason, now: int)
      modifies this`jobs, this`retry
      ensures jobs == FreeJobs(old(Rows()), pauseVersion, pauseReason, now).jobs
      ensures retry == FreeJobs(old(Rows()), pauseVersion, pauseReason, now).retry
    {
      ghost var s := Rows();
      for i := 0 to |jobs|
        invariant |jobs| == |s.jobs| && retry.Keys == s.retry.Keys
        invariant forall k | 0 <= k < |jobs| :: jobs[k] == if k < i then FreedJob(s, k, pauseVersion, pauseReason, now) else s.jobs[k]
        invariant forall k | k in s.retry :: retry[k] == if k < i then FreedRetry(s, k, pauseVersion, pauseReason) else s.retry[k]
      {
        FreeOne(s, i, pauseVersion, pauseReason, now);
      }
      FreedRows(s, pauseVersion, pauseReason, now, jobs, retry);
    }

    method FreeOne(ghost s: Db, i: nat, pauseVersion: nat, pauseReason: PauseReason, now: int)
      requires i < |jobs| && i < |s.jobs| && jobs[i] == s.jobs[i]
      requires i in retry <==> i in s.retry
      requires i in retry ==> retry[i] == s.retry[i]
      modifies this`jobs, this`retry
      ensures jobs == old(jobs)[i := FreedJob(s, i, pauseVersion, pauseReason, now)]
      ensures retry == if i in s.retry then old(retry)[i := FreedRetry(s, i, pauseVersion, pauseReason)] else old(retry)
    {
      if jobs[i].bound && i in retry && jobs[i].status == FailedRecoverable && jobs[i].retryAt.None?
         && retry[i].blocked == Some(Block(pauseVersion, pauseReason)) {
        retry := retry[i := retry[i].(blocked := None, version := retry[i].version + 1)];
        jobs := jobs[i := jobs[i].(retryAt := Some(now))];
      }
    }

    method HoldCodexJob(job: nat)
      modifies this`retry
      ensures Rows() == HoldJob(old(Rows()), job)
    {
      if !RetryControllable(Rows(), job) || retry[job].held { return; }
      retry := retry[job := retry[job].(held := true, version := retry[job].version + 1)];
    }

    method ReleaseCodexJob(job: nat, now: int)
      modifies this`retry, this`jobs
      ensures Rows() == ReleaseJob(old(Rows()), job, now)
    {
      if !RetryControllable(Rows(), job) || !retry[job].held { return; }
      retry := retry[job := retry[job].(held := false, failures := 0, version := retry[job].version + 1)];
      if jobs[job].status == FailedRecoverable && paused.None? {
        jobs := jobs[job := jobs[job].(retryAt := Some(now))];
      }
    }
  }

  ghost function Aged(c: Candidate, run: nat): Candidate {
    if c.run == run && c.status == PendingSelection then c.(status := CandidateSuperseded, revision := c.revision + 1) else c
  }

  lemma AllAged(s: Db, candidates: seq<Candidate>, run: nat, stale: set<nat>, reused: bool)
    requires |candidates| == |s.candidates|
    requires forall i | 0 <= i < |candidates| :: candidates[i] == if i in stale then Aged(s.candidates[i], run) else s.candidates[i]
    ensures CreateDigest(s, run, stale, reused).candidates == candidates
  {
    var aged := CreateDigest(s, run, stale, reused).candidates;
    forall i | 0 <= i < |aged| ensures aged[i] == candidates[i] {
      assert candidates[i] == if i in stale then Aged(s.candidates[i], run) else s.candidates[i];
    }
  }

  ghost function DueBelow(s: Db, n: nat, now: int): set<nat>
    requires n <= |s.candidates|
  {
    set c | 0 <= c < n && ResumeDue(s.candidates[c], now)
  }

  lemma NextDue(s: Db, c: nat, now: int)
    requires c < |s.candidates|
    ensures DueBelow(s, c + 1, now) == DueBelow(s, c, now) + (if ResumeDue(s.candidates[c], now) then {c} else {})
  {
  }

  lemma NobodyResumed(s: Db, stale: set<nat>)
    ensures ResumeSet(s, {}, stale) == s
  {
    var t := ResumeSet(s, {}, stale);
    assert t.candidates == s.candidates && t.digests == s.digests && t.tokens == s.tokens;
  }

  ghost function OneResumed(s: Db, c: nat, isStale: bool): Db
    requires c < |s.candidates|
  {
    if isStale then
      s.(candidates := s.candidates[c := Resumed(s.candidates[c], true)],
         digests := SupersedeDigests(s.digests, {s.candidates[c].run}, {ActiveDigest, SelectedDigest}))
    else s.(candidates := s.candidates[c := Resumed(s.candidates[c], false)], tokens := RevokeTokens(s.tokens, c, true))
  }

  /** One more due deferral, after those in the set. */
  lemma ResumeOneMore(s: Db, due: set<nat>, c: nat, stale: set<nat>)
    requires c < |s.candidates| && c !in due && forall d | d in due :: d < |s.candidates|
    ensures var m, t := ResumeSet(s, due, stale), ResumeSet(s, due + {c}, stale);
            m.candidates[c] == s.candidates[c] && t == OneResumed(m, c, c in stale)
  {
    var m, t := ResumeSet(s, due, stale), ResumeSet(s, due + {c}, stale);
    var runs := set d | d in due && d in stale :: s.candidates[d].run;
    var more := set d | d in due + {c} && d in stale :: s.candidates[d].run;
    if c in stale {
      assert more == runs + {s.candidates[c].run};
      assert t.digests == SupersedeDigests(m.digests, {s.candidates[c].run}, {ActiveDigest, SelectedDigest});
      assert t.tokens == m.tokens;
      assert t.candidates == m.candidates[c := Resumed(s.candidates[c], true)];
    } else {
      assert more == runs;
      assert t.tokens == RevokeTokens(m.tokens, c, true);
      assert t.candidates == m.candidates[c := Resumed(s.candidates[c], false)];
    }
  }

  ghost function FreedJob(s: Db, job: nat, version: nat, reason: PauseReason, now: int): Job
    requires job < |s.jobs|
  {
    if FreedBy(s, job, version, reason) then s.jobs[job].(retryAt := Some(now)) else s.jobs[job]
  }

  ghost function FreedRetry(s: Db, job: nat, version: nat, reason: PauseReason): RetryState
    requires job in s.retry
  {
    if FreedBy(s, job, version, reason)
    then s.retry[job].(blocked := None, version := s.retry[job].version + 1) else s.retry[job]
  }

  lemma FreedRows(s: Db, version: nat, reason: PauseReason, now: int, jobs: seq<Job>, retry: map<nat, RetryState>)
    requires |jobs| == |s.jobs| && retry.Keys == s.retry.Keys
    requires forall k | 0 <= k < |jobs| :: jobs[k] == FreedJob(s, k, version, reason, now)
    requires forall k | k in s.retry :: retry[k] == if k < |jobs| then FreedRetry(s, k, version, reason) else s.retry[k]
    ensures jobs == FreeJobs(s, version, reason, now).jobs && retry == FreeJobs(s, version, reason, now).retry
  {
  }

  /** Inserting the generation and then closing the job is one completion. */
  lemma CompleteInTwo(s: Db, k: Ticket, attempt: nat, content: nat)
    requires k.job < |s.jobs|
    ensures Complete(s, k, attempt, content, false)
            == Complete(s.(generations := s.generations + [Generation(k.job, attempt, content, true)]), k, 0, 0, true)
    ensures Complete(s, k, attempt, content, true) == Complete(s, k, 0, 0, true)
  {
    var m := s.(generations := s.generations + [Generation(k.job, attempt, content, true)]);
    assert CandidateOf(m, k.job) == CandidateOf(s, k.job);
  }

  lemma NothingGone(s: Db, stale: set<nat>)
    requires (set c | c in stale && c < |s.candidates| && !(s.candidates[c].status in {CandidateSuperseded, Approved})) == {}
    ensures Invalidate(s, stale) == s
  {
    var t := Invalidate(s, stale);
    assert t.candidates == s.candidates && t.digests == s.digests && t.jobs == s.jobs && t.generations == s.generations;
  }
}
