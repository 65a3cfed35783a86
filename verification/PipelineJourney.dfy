/** A running lease is safe until it ends, and an undisturbed candidate travels from its digest to its handoff. */
module PipelineJourney {
  import opened Common
  import opened PipelineModel
  import opened PipelineInvariant
  import opened PipelineSteps
  import opened PipelineProgress
  import opened PipelineDecisions
  import opened PipelineGrants

  // ---------------------------------------------------------------- leases in force

  /** The calls that may end a lease: its holder's settlement, a start after its time, and the end of its candidate. */
  ghost predicate Disturbs(s: Db, job: nat, c: Call)
    requires job < |s.jobs|
  {
    var j := s.jobs[job];
    match c
    case Desk(CallInvalidate(stale)) => j.selection < |s.selections| && s.selections[j.selection].candidate in stale
    case Worker(CallStartSelected(_, now, _, _)) => now > j.leaseExpires
    case Worker(CallStartCodex(_, now, _, _)) => now > j.leaseExpires
    case Worker(CallFailSelected(k, _)) => k.job == job && Some(k.token) == j.token
    case Worker(CallCommitSelected(k, _)) => k.job == job && Some(k.token) == j.token
    case Worker(CallFailCodex(k, _, _, _)) => k.job == job && Some(k.token) == j.token
    case Worker(CallCommitCodex(k, _)) => k.job == job && Some(k.token) == j.token
    case _ => false
  }

  ghost predicate Kept(s: Db, u: Db, job: nat) {
    job < |s.jobs| && job < |u.jobs| && u.jobs[job] == s.jobs[job]
  }

  lemma DeskKeepsRunning(s: Db, job: nat, c: DeskCall)
    requires Inv(s) && job < |s.jobs| && s.jobs[job].status == Running && !Disturbs(s, job, Desk(c))
    ensures Kept(s, DeskStep(s, c), job)
  {
    match c
    case CallApply(t, e, now) => ButtonKeepsRunning(s, job, t, e, now);
    case CallInvalidate(stale) => InvalidateTakesExactly(s, stale);
    case _ =>
  }

  /** A review button decides on another candidate: the running job's own still waits for its generation. */
  lemma ButtonKeepsRunning(s: Db, job: nat, t: nat, e: Circumstances, now: int)
    requires Inv(s) && job < |s.jobs| && s.jobs[job].status == Running
    ensures Kept(s, Apply(s, t, e, now), job)
  {
    if Apply(s, t, e, now) != s {
      var k, u := s.tokens[t], Apply(s, t, e, now);
      ButtonActsExactly(s, t, e, now);
      ButtonDoes(s, t, e, now);
      assert LiveJobOk(s, s.jobs[job]);
      if k.action in {Regenerate, PageChange} && k.stage == Review {
        var sel: nat :| StartedOver(s, u, k.candidate, sel, now);
        assert s.jobs[job].selection != sel;
      } else if k.action == Make && k.stage == Selection {
        assert Made(s, u, k.candidate, k.digest, now);
        assert u.jobs[..|s.jobs|][job] == s.jobs[job];
      } else {
        IdleActsKeepJobs(s, t, e, now);
      }
    }
  }

  lemma IdleActsKeepJobs(s: Db, t: nat, e: Circumstances, now: int)
    requires Apply(s, t, e, now) != s && t < |s.tokens|
    requires !(s.tokens[t].action in {Regenerate, PageChange} && s.tokens[t].stage == Review)
    requires !(s.tokens[t].action == Make && s.tokens[t].stage == Selection)
    ensures Apply(s, t, e, now).jobs == s.jobs
  {
    var m := Consume(s, t);
    ConsumeEvolves(s, t);
    assert TokenEvolves(s.tokens[t], m.tokens[t]);
    assert Act(m, t, now).jobs == m.jobs;
  }

  lemma StartsKeepRunning(s: Db, job: nat, candidate: nat, other: nat, now: int, token: nat, sourcesBound: bool)
    requires Inv(s) && job < |s.jobs| && s.jobs[job].status == Running && now <= s.jobs[job].leaseExpires
    ensures Kept(s, StartSelected(s, candidate, now, token, sourcesBound).0, job)
    ensures Kept(s, StartCodex(s, other, now, token, sourcesBound).0, job)
  {
    StartGrantedExactly(s, candidate, now, token, sourcesBound);
    CodexStartGrantedExactly(s, other, now, token, sourcesBound);
  }

  lemma SettlementsKeepRunning(s: Db, job: nat, k: Ticket, content: nat, code: FailureCode, now: int, seed: nat)
    requires Inv(s) && job < |s.jobs| && s.jobs[job].status == Running && !(k.job == job && Some(k.token) == s.jobs[job].token)
    ensures Kept(s, FailSelected(s, k, now), job) && Kept(s, CommitSelected(s, k, content), job)
    ensures Kept(s, FailCodex(s, k, code, now, seed).0, job) && Kept(s, CommitCodex(s, k, content), job)
  {
    FailureIsRetriedExactly(s, k, now);
    CodexFailureExactly(s, k, code, now, seed);
    CommitBringsReview(s, k, content);
    CodexCommitBringsReview(s, k, content);
  }

  lemma WorkerKeepsRunning(s: Db, job: nat, c: WorkerCall)
    requires Inv(s) && job < |s.jobs| && s.jobs[job].status == Running && !Disturbs(s, job, Worker(c))
    ensures Kept(s, WorkerStep(s, c), job)
  {
    match c
    case CallStartSelected(candidate, now, token, bound) => StartsKeepRunning(s, job, candidate, 0, now, token, bound);
    case CallStartCodex(other, now, token, bound) => StartsKeepRunning(s, job, 0, other, now, token, bound);
    case CallSelectCodex(now) => CodexIsGivenExactly(s, now);
    case CallFailSelected(k, now) => SettlementsKeepRunning(s, job, k, 0, Busy, now, 0);
    case CallCommitSelected(k, content) => SettlementsKeepRunning(s, job, k, content, Busy, 0, 0);
    case CallFailCodex(k, code, now, seed) => SettlementsKeepRunning(s, job, k, 0, code, now, seed);
    case CallCommitCodex(k, content) => SettlementsKeepRunning(s, job, k, content, Busy, 0, 0);
  }

  lemma OperatorKeepsRunning(s: Db, job: nat, c: OperatorCall)
    requires Inv(s) && job < |s.jobs| && s.jobs[job].status == Running
    ensures Kept(s, OperatorStep(s, c), job)
  {
    match c
    case CallPause(expected, reason) =>
    case CallResumeProvider(expected, resume, now) =>
    case CallHold(other) => HoldsAndReleasesExactly(s, other, 0);
    case CallRelease(other, now) => HoldsAndReleasesExactly(s, other, now);
  }

  /** Nothing disturbs the lease that the job has in s. */
  ghost predicate Undisturbed(s: Db, job: nat, calls: seq<Call>)
    requires job < |s.jobs|
  {
    forall n | 0 <= n < |calls| :: !Disturbs(s, job, calls[n])
  }

  /** Whatever desk, operators and other workers do in the meantime, a lease is its holder's until it ends. */
  lemma {:induction false} RunningJobStays(s: Db, job: nat, calls: seq<Call>)
    requires Inv(s) && job < |s.jobs| && s.jobs[job].status == Running && Undisturbed(s, job, calls)
    ensures Kept(s, Run(s, calls), job)
    decreases |calls|
  {
    if calls != [] {
      var m, c := Run(s, calls[..|calls| - 1]), calls[|calls| - 1];
      RunningJobStays(s, job, calls[..|calls| - 1]);
      RunKeeps(s, calls[..|calls| - 1]);
      assert LiveJobOk(s, s.jobs[job]);
      assert !Disturbs(s, job, c);
      assert !Disturbs(m, job, c);
      match c
      case Desk(d) => DeskKeepsRunning(m, job, d);
      case Worker(w) => WorkerKeepsRunning(m, job, w);
      case Operator(o) => OperatorKeepsRunning(m, job, o);
    }
  }

  /** So whoever leased a job by hand brings its candidate to review, whatever undisturbing calls came between. */
  lemma {:induction false} LeaseholderCommits(s: Db, k: Ticket, calls: seq<Call>, content: nat)
    requires Inv(s) && HoldsLease(s, k, false) && Undisturbed(s, k.job, calls)
    ensures var m := Run(s, calls); k.job < |m.jobs| && Generated(m, CommitSelected(m, k, content), k.job, content)
  {
    RunningJobStays(s, k.job, calls);
    RunKeeps(s, calls);
    CommitBringsReview(Run(s, calls), k, content);
  }

  /** And so does whoever leased it for Codex. */
  lemma {:induction false} CodexLeaseholderCommits(s: Db, k: Ticket, calls: seq<Call>, content: nat)
    requires Inv(s) && HoldsLease(s, k, true) && Undisturbed(s, k.job, calls)
    ensures var m := Run(s, calls); k.job < |m.jobs| && Generated(m, CommitCodex(m, k, content), k.job, content)
  {
    RunningJobStays(s, k.job, calls);
    RunKeeps(s, calls);
    CodexCommitBringsReview(Run(s, calls), k, content);
  }

  // ---------------------------------------------------------------- the whole way

  /** The button that chooses candidate c from digest d. */
  function ChooseButton(s: Db, c: nat, d: nat): CallbackToken
    requires c < |s.candidates| && d < |s.digests|
  {
    CallbackToken(Selection, Make, c, s.candidates[c].revision, d, s.digests[d].revision, 0, 0, 0, false, false)
  }

  /** The button that approves generation g of candidate c, chosen from digest d. */
  function ApproveButton(s: Db, c: nat, d: nat, g: nat): CallbackToken
    requires c < |s.candidates| && d < |s.digests| && g < |s.generations|
  {
    CallbackToken(Review, ApproveHandoff, c, s.candidates[c].revision, d, s.digests[d].revision,
                  g, s.generations[g].attempt, s.generations[g].content, false, false)
  }

  function AllWell(): Circumstances { Circumstances(true, true, true, true, true, true) }

  /** Issue a button and press it. */
  function Press(s: Db, k: CallbackToken, now: int): Db { Apply(Issue(s, k), |s.tokens|, AllWell(), now) }

  ghost predicate Offered(s: Db, c: nat, d: nat) {
    && c < |s.candidates| && s.candidates[c].status == PendingSelection
    && d < |s.digests| && s.digests[d].status == ActiveDigest
  }

  lemma ChooseStage(s: Db, c: nat, d: nat, now: int)
    requires Inv(s) && Offered(s, c, d)
    ensures var u := Press(s, ChooseButton(s, c, d), now);
            Inv(u) && Made(s, u, c, d, now)
  {
    var k := ChooseButton(s, c, d);
    var m := Issue(s, k);
    StepKeeps(s, Desk(CallIssue(k)));
    ApplyKeeps(m, |s.tokens|, AllWell(), now);
    ButtonActsExactly(m, |s.tokens|, AllWell(), now);
    ButtonDoes(m, |s.tokens|, AllWell(), now);
  }

  lemma LeaseStage(s: Db, s1: Db, c: nat, d: nat, now: int, at: int, token: nat)
    requires Inv(s1) && Made(s, s1, c, d, now) && token !in s.issued
    ensures var (u, got) := StartSelected(s1, c, at, token, true);
            Inv(u) && got == Some(Ticket(|s.jobs|, token, |s.provider|)) && Started(s1, u, got.value, at)
  {
    StartGrantedExactly(s1, c, at, token, true);
    assert Takeable(s1, c, |s.jobs|, at);
    StepKeeps(s1, Worker(CallStartSelected(c, at, token, true)));
    var job := StartSelected(s1, c, at, token, true).1.value.job;
    OneWorker(s1, c, |s.jobs|, job);
  }

  lemma CommitStage(s1: Db, s2: Db, k: Ticket, at: int, content: nat)
    requires Inv(s2) && Started(s1, s2, k, at) && !s1.jobs[k.job].bound
    ensures Inv(CommitSelected(s2, k, content)) && Generated(s2, CommitSelected(s2, k, content), k.job, content)
  {
    CommitBringsReview(s2, k, content);
    StepKeeps(s2, Worker(CallCommitSelected(k, content)));
  }

  lemma ApproveStage(s: Db, c: nat, d: nat, g: nat, now: int)
    requires Inv(s) && c < |s.candidates| && s.candidates[c].status == PendingReview
    requires d < |s.digests| && s.digests[d].status == SelectedDigest && g < |s.generations| && s.generations[g].current
    requires s.generations[g].job < |s.jobs| && s.jobs[s.generations[g].job].selection < |s.selections|
    requires s.selections[s.jobs[s.generations[g].job].selection] == SelectionRow(d, c)
    ensures var u := Press(s, ApproveButton(s, c, d, g), now);
            HandedOver(s, u, c, d, g, |s.tokens|)
  {
    var k := ApproveButton(s, c, d, g);
    var m := Issue(s, k);
    StepKeeps(s, Desk(CallIssue(k)));
    ButtonActsExactly(m, |s.tokens|, AllWell(), now);
    ButtonDoes(m, |s.tokens|, AllWell(), now);
  }

  /** From any reachable database: a candidate that its digest offers is chosen, generated and handed off, with what was generated. */
  lemma {:induction false} OfferedIsHandedOff(s: Db, c: nat, d: nat, token: nat, content: nat, now: int, at: int, later: int)
    requires Inv(s) && Offered(s, c, d) && token !in s.issued
    ensures var s1 := Press(s, ChooseButton(s, c, d), now);
            var (s2, got) := StartSelected(s1, c, at, token, true);
            && got.Some?
            && var s3 := CommitSelected(s2, got.value, content);
            && |s3.generations| == |s.generations| + 1 && c < |s3.candidates| && d < |s3.digests|
            && var u := Press(s3, ApproveButton(s3, c, d, |s.generations|), later);
            && c < |u.candidates| && u.candidates[c].status == Approved
            && u.generations == s3.generations && u.generations[|s.generations|].content == content
            && |u.handoffs| == |s.handoffs| + 1 && u.handoffs[|s.handoffs|].generation == |s.generations|
  {
    ChooseStage(s, c, d, now);
    var s1 := Press(s, ChooseButton(s, c, d), now);
    LeaseStage(s, s1, c, d, now, at, token);
    var (s2, got) := StartSelected(s1, c, at, token, true);
    CommitStage(s1, s2, got.value, at, content);
    ReviewStage(s, s1, s2, CommitSelected(s2, got.value, content), c, d, got.value, content, now, at);
    ApproveStage(CommitSelected(s2, got.value, content), c, d, |s.generations|, later);
  }

  lemma ReviewStage(s: Db, s1: Db, s2: Db, s3: Db, c: nat, d: nat, k: Ticket, content: nat, now: int, at: int)
    requires Made(s, s1, c, d, now) && Started(s1, s2, k, at) && k.job == |s.jobs| && Generated(s2, s3, k.job, content)
    ensures |s3.generations| == |s.generations| + 1 && s3.handoffs == s.handoffs
    ensures var g := s3.generations[|s.generations|];
            && g.current && g.content == content && g.job < |s3.jobs| && s3.jobs[g.job].selection < |s3.selections|
            && s3.selections[s3.jobs[g.job].selection] == SelectionRow(d, c)
    ensures c < |s3.candidates| && s3.candidates[c].status == PendingReview && d < |s3.digests| && s3.digests[d].status == SelectedDigest
  {
  }
}
