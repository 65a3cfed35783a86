/** What a button does, row by row, and that an undisturbed candidate travels from its digest to its handoff. */
module PipelineDecisions {
  import opened Common
  import opened PipelineModel
  import opened PipelineInvariant
  import opened PipelineSteps
  import opened PipelineProgress

  // ---------------------------------------------------------------- when a button acts

  /** Everything that an open button shows is still so. */
  ghost predicate StillTrue(s: Db, k: CallbackToken) {
    && !k.consumed && !k.revoked
    && k.candidate < |s.candidates| && k.candidateRevision == s.candidates[k.candidate].revision
    && k.digest < |s.digests| && k.digestRevision == s.digests[k.digest].revision
    && match k.stage
       case Selection => s.candidates[k.candidate].status == PendingSelection && s.digests[k.digest].status == ActiveDigest
       case Review =>
         && s.candidates[k.candidate].status == PendingReview && s.digests[k.digest].status == SelectedDigest
         && k.generation < |s.generations| && s.generations[k.generation].current
         && s.generations[k.generation].attempt == k.generationRevision && s.generations[k.generation].content == k.content
         && var job := s.generations[k.generation].job;
         && job < |s.jobs| && s.jobs[job].selection < |s.selections|
         && s.selections[s.jobs[job].selection].candidate == k.candidate && s.selections[s.jobs[job].selection].digest == k.digest
  }

  /** The person may press it, the sources are current, and at review the warnings and the content pass. */
  ghost predicate WorldAgrees(k: CallbackToken, e: Circumstances) {
    && e.authorized && e.admitted && e.sourcesCurrent
    && (k.stage == Review ==> e.warningsMatch)
    && (k.stage == Review && k.action == ApproveHandoff ==> e.contentValid)
    && (k.stage == Review && k.action == PageChange ==> e.pageCountValid)
  }

  /** The button is spent; any decision but a refresh strips the other open ones of the candidate; no other changes. */
  ghost predicate ButtonsAfter(s: Db, u: Db, t: nat) {
    && t < |s.tokens| && |u.tokens| == |s.tokens| && u.tokens[t].consumed
    && forall i | 0 <= i < |s.tokens| && i != t ::
         u.tokens[i] == if s.tokens[t].action != Refresh && s.tokens[i].candidate == s.tokens[t].candidate && !s.tokens[i].consumed
                        then s.tokens[i].(revoked := true) else s.tokens[i]
  }

  /** A press changes the database if and only if all it shows is still so and the world agrees. */
  lemma {:induction false} ButtonActsExactly(s: Db, t: nat, e: Circumstances, now: int)
    ensures Apply(s, t, e, now) != s <==> t < |s.tokens| && StillTrue(s, s.tokens[t]) && WorldAgrees(s.tokens[t], e)
    ensures Apply(s, t, e, now) != s ==> ButtonsAfter(s, Apply(s, t, e, now), t)
  {
    if t < |s.tokens| && TokenFits(s, s.tokens[t], e) {
      ConsumeMarks(s, t);
      ActLeavesButtons(Consume(s, t), t, now);
    }
  }

  lemma ConsumeMarks(s: Db, t: nat)
    requires t < |s.tokens|
    ensures ButtonsAfter(s, Consume(s, t), t) && Consume(s, t) == s.(tokens := Consume(s, t).tokens)
  {
  }

  lemma ActLeavesButtons(s: Db, t: nat, now: int)
    requires t < |s.tokens| && s.tokens[t].candidate < |s.candidates| && s.tokens[t].digest < |s.digests|
    ensures Act(s, t, now).tokens == s.tokens
  {
  }

  // ---------------------------------------------------------------- what it does

  /** Candidate c gets this row, and no other candidate changes. */
  ghost predicate OnlyCandidate(s: Db, u: Db, c: nat, row: Candidate) {
    && c < |s.candidates| && |u.candidates| == |s.candidates| && u.candidates[c] == row
    && forall i | 0 <= i < |s.candidates| && i != c :: u.candidates[i] == s.candidates[i]
  }

  ghost predicate OnlyDigest(s: Db, u: Db, d: nat, status: DigestStatus) {
    && d < |s.digests| && |u.digests| == |s.digests| && u.digests[d] == s.digests[d].(status := status)
    && forall i | 0 <= i < |s.digests| && i != d :: u.digests[i] == s.digests[i]
  }

  /** Nothing below the candidates moves. */
  ghost predicate OnlyDesk(s: Db, u: Db) {
    && u.selections == s.selections && u.jobs == s.jobs && u.generations == s.generations && u.handoffs == s.handoffs
    && u.provider == s.provider && u.issued == s.issued && SameControl(s, u)
  }

  /** A queued, unleased, unbound job for the selection, authorized if the cutover has happened. */
  ghost predicate FreshJob(s: Db, j: Job, selection: nat, initial: bool, now: int) {
    && j.selection == selection && j.initial == initial && j.status == Queued && j.attempts == 0 && j.token.None?
    && j.retryAt.None? && j.requestedAt == now && !j.bound && (j.authorized <==> s.cutover)
  }

  /** The digest's choice: one selection with one initial job. */
  ghost predicate Made(s: Db, u: Db, c: nat, d: nat, now: int) {
    && c < |s.candidates| && OnlyCandidate(s, u, c, s.candidates[c].(status := GenerationPending)) && OnlyDigest(s, u, d, SelectedDigest)
    && |u.selections| == |s.selections| + 1 && u.selections[..|s.selections|] == s.selections
    && u.selections[|s.selections|].candidate == c && u.selections[|s.selections|].digest == d
    && |u.jobs| == |s.jobs| + 1 && u.jobs[..|s.jobs|] == s.jobs && FreshJob(s, u.jobs[|s.jobs|], |s.selections|, true, now)
    && u.generations == s.generations && u.handoffs == s.handoffs && u.provider == s.provider && u.issued == s.issued
    && SameControl(s, u)
  }

  /** The handoff of exactly this generation, by exactly this button. */
  ghost predicate HandedOver(s: Db, u: Db, c: nat, d: nat, generation: nat, t: nat) {
    && c < |s.candidates| && OnlyCandidate(s, u, c, s.candidates[c].(status := Approved)) && OnlyDigest(s, u, d, ApprovedDigest)
    && |u.handoffs| == |s.handoffs| + 1 && u.handoffs[..|s.handoffs|] == s.handoffs
    && u.handoffs[|s.handoffs|].generation == generation && u.handoffs[|s.handoffs|].approval == t
    && u.selections == s.selections && u.jobs == s.jobs && u.generations == s.generations && u.provider == s.provider
    && u.issued == s.issued && SameControl(s, u)
  }

  /** The selection starts over: what was current is so no longer, what was live is cancelled, and one new job is queued. */
  ghost predicate StartedOver(s: Db, u: Db, c: nat, sel: nat, now: int) {
    && sel < |s.selections| && s.selections[sel].candidate == c
    && c < |s.candidates| && OnlyCandidate(s, u, c, s.candidates[c].(status := GenerationPending)) && u.digests == s.digests
    && |u.generations| == |s.generations|
    && (forall g | 0 <= g < |s.generations| :: u.generations[g] ==
          if s.generations[g].job < |s.jobs| && s.jobs[s.generations[g].job].selection == sel
          then s.generations[g].(current := false) else s.generations[g])
    && |u.jobs| == |s.jobs| + 1 && FreshJob(s, u.jobs[|s.jobs|], sel, false, now)
    && (forall i | 0 <= i < |s.jobs| :: u.jobs[i] ==
          if s.jobs[i].selection == sel && s.jobs[i].status in {Queued, Running, FailedRecoverable}
          then s.jobs[i].(status := JobSuperseded) else s.jobs[i])
    && u.selections == s.selections && u.handoffs == s.handoffs && u.provider == s.provider && u.issued == s.issued
    && SameControl(s, u)
  }

  /** The effect of the button k, number t, pressed at this time. */
  ghost predicate Does(s: Db, u: Db, k: CallbackToken, t: nat, now: int) {
    k.candidate < |s.candidates| &&
    match k.action
    case Refresh => OnlyDesk(s, u) && u.candidates == s.candidates && u.digests == s.digests
    case RejectAction =>
      OnlyDesk(s, u) && OnlyCandidate(s, u, k.candidate, s.candidates[k.candidate].(status := Rejected)) && u.digests == s.digests
    case Defer(hours) =>
      && OnlyDesk(s, u) && u.digests == s.digests
      && OnlyCandidate(s, u, k.candidate,
                       s.candidates[k.candidate].(status := Deferred, stage := k.stage, dueAt := now + hours * 3600 * SECOND_US))
    case Make => k.stage == Selection ==> Made(s, u, k.candidate, k.digest, now)
    case ApproveHandoff => k.stage == Review ==> HandedOver(s, u, k.candidate, k.digest, k.generation, t)
    case _ => k.stage == Review ==> exists sel: nat :: StartedOver(s, u, k.candidate, sel, now)
  }

  /** In every reachable database, a press that acts has the effect of its action on exactly its candidate. */
  lemma {:induction false} ButtonDoes(s: Db, t: nat, e: Circumstances, now: int)
    requires Inv(s) && Apply(s, t, e, now) != s
    ensures t < |s.tokens| && Does(s, Apply(s, t, e, now), s.tokens[t], t, now)
  {
    var m := Consume(s, t);
    ConsumeMarks(s, t);
    ConsumeEvolves(s, t);
    assert TokenEvolves(s.tokens[t], m.tokens[t]);
    var k := s.tokens[t];
    var u := Act(m, t, now);
    match k.action
    case Make => if k.stage == Selection { MakeIsFresh(s, k); MakeDoes(s, m, m.tokens[t], now); }
    case Regenerate => if k.stage == Review { ReworkDoes(s, m, m.tokens[t], k.generation, now); }
    case PageChange => if k.stage == Review { ReworkDoes(s, m, m.tokens[t], k.generation, now); }
    case ApproveHandoff => if k.stage == Review { ApproveDoes(s, m, t); }
    case _ => assert OnlyDesk(s, u) && u.digests == s.digests;
  }

  lemma MakeDoes(s: Db, m: Db, k: CallbackToken, now: int)
    requires m == s.(tokens := m.tokens) && k.candidate < |s.candidates| && k.digest < |s.digests|
    requires ChosenFrom(s, k.digest, |s.selections|).None? && !HasInitialJob(s, |s.selections|)
    ensures Made(s, MakeSelection(m, k, now), k.candidate, k.digest, now)
  {
    SameChoice(s, m, k.digest, |s.selections|);
  }

  lemma {:induction false} SameChoice(s: Db, m: Db, digest: nat, n: nat)
    requires m.selections == s.selections && n <= |s.selections|
    ensures ChosenFrom(m, digest, n) == ChosenFrom(s, digest, n)
  {
    if n > 0 { SameChoice(s, m, digest, n - 1); }
  }

  lemma ReworkDoes(s: Db, m: Db, k: CallbackToken, g: nat, now: int)
    requires m == s.(tokens := m.tokens) && k.candidate < |s.candidates| && GeneratedFor(s, g, k.candidate)
    ensures exists sel: nat :: StartedOver(s, Rework(m, k, now), k.candidate, sel, now)
  {
    var sel := SelectionOf(m, k.candidate, |m.selections|);
    assert m.selections[m.jobs[m.generations[g].job].selection].candidate == k.candidate;
    assert StartedOver(s, Rework(m, k, now), k.candidate, sel.value, now);
  }

  lemma ApproveDoes(s: Db, m: Db, t: nat)
    requires m == s.(tokens := m.tokens) && t < |m.tokens| && m.tokens[t].candidate < |s.candidates| && m.tokens[t].digest < |s.digests|
    ensures HandedOver(s, Approve(m, t), m.tokens[t].candidate, m.tokens[t].digest, m.tokens[t].generation, t)
  {
  }

  // ---------------------------------------------------------------- deferrals

  /** A deferred candidate whose time has come returns to the stage it was deferred at, or goes if its sources moved on. */
  ghost predicate Returned(c: Candidate, n: Candidate, stale: bool) {
    && n.run == c.run
    && if stale then n.status == CandidateSuperseded && n.revision == c.revision + 1
       else n.revision == c.revision && n.status == (match c.stage case Selection => PendingSelection case Review => PendingReview)
  }

  /** Exactly the given candidates return; their buttons are revoked, and the digests of those that went, superseded. */
  ghost predicate Returns(s: Db, u: Db, due: set<nat>, stale: set<nat>) {
    && OnlyDesk(s, u) && |u.candidates| == |s.candidates| && |u.tokens| == |s.tokens| && |u.digests| == |s.digests|
    && (forall c | 0 <= c < |s.candidates| ::
          if c in due then Returned(s.candidates[c], u.candidates[c], c in stale) else u.candidates[c] == s.candidates[c])
    && (forall t | 0 <= t < |s.tokens| :: u.tokens[t] ==
          if s.tokens[t].candidate in due && s.tokens[t].candidate !in stale then s.tokens[t].(revoked := true) else s.tokens[t])
    && (forall d | 0 <= d < |s.digests| :: u.digests[d] ==
          if s.digests[d].status in {ActiveDigest, SelectedDigest} && exists c :: c in due && c in stale && c < |s.candidates|
                                                                                  && s.candidates[c].run == s.digests[d].run
          then s.digests[d].(status := DigestSuperseded, revision := s.digests[d].revision + 1) else s.digests[d])
  }

  /** The deferred candidates whose time has come by now. */
  ghost function ComeDue(s: Db, now: int): set<nat> {
    set c: nat | c < |s.candidates| && s.candidates[c].status == Deferred && s.candidates[c].dueAt <= now
  }

  /** By hand exactly what is due returns, before the cutover; after it, exactly what is due and recorded. */
  lemma ResumeReturnsExactly(s: Db, now: int, which: set<nat>)
    ensures if s.cutover then Resume(s, now, which) == s else Returns(s, Resume(s, now, which), ComeDue(s, now), which)
    ensures if s.cutover then Returns(s, ResumeAuthorized(s, now, which), ComeDue(s, now) * which, {})
            else ResumeAuthorized(s, now, which) == s
  {
    var due := set c | 0 <= c < |s.candidates| && ResumeDue(s.candidates[c], now);
    var recorded := set c | c in which && c < |s.candidates| && ResumeDue(s.candidates[c], now);
    assert due == ComeDue(s, now) && recorded == ComeDue(s, now) * which;
    ReturnSet(s, due, which);
    ReturnSet(s, recorded, {});
  }

  lemma ReturnSet(s: Db, due: set<nat>, stale: set<nat>)
    requires forall c | c in due :: c < |s.candidates|
    ensures Returns(s, ResumeSet(s, due, stale), due, stale)
  {
  }

  /** A deferral ends, not before its hours are over, with the candidate as it was and its old buttons dead. */
  lemma {:induction false} DeferralComesBack(s: Db, t: nat, e: Circumstances, now: int, later: int, hours: int)
    requires Inv(s) && !s.cutover && Apply(s, t, e, now) != s && t < |s.tokens| && s.tokens[t].action == Defer(hours)
    ensures var c, u, v := s.tokens[t].candidate, Apply(s, t, e, now), Resume(Apply(s, t, e, now), later, {});
            && c < |s.candidates| && c < |u.candidates| && c < |v.candidates|
            && u.candidates[c].status == Deferred
            && (later < now + hours * 3600 * SECOND_US ==> v.candidates[c] == u.candidates[c])
            && (later >= now + hours * 3600 * SECOND_US ==>
                  && v.candidates[c].status == s.candidates[c].status && v.candidates[c].revision == s.candidates[c].revision
                  && forall i | 0 <= i < |v.tokens| && v.tokens[i].candidate == c :: v.tokens[i].revoked)
  {
    ButtonDoes(s, t, e, now);
    ButtonActsExactly(s, t, e, now);
    var c, u := s.tokens[t].candidate, Apply(s, t, e, now);
    ResumeReturnsExactly(u, later, {});
    if later >= now + hours * 3600 * SECOND_US { assert c in ComeDue(u, later); }
  }

  // ---------------------------------------------------------------- digests and invalidation

  /** A revised candidate that was neither approved nor gone. */
  ghost predicate Outdated(s: Db, stale: set<nat>, c: nat) {
    c in stale && c < |s.candidates| && s.candidates[c].status != Approved && s.candidates[c].status != CandidateSuperseded
  }

  /** The candidate of selection sel is outdated. */
  ghost predicate OutdatedChoice(s: Db, stale: set<nat>, sel: nat) {
    sel < |s.selections| && Outdated(s, stale, s.selections[sel].candidate)
  }

  /** Exactly the outdated candidates go, with a new revision, and what was live or current below them. */
  ghost predicate TakenAway(s: Db, u: Db, stale: set<nat>) {
    && |u.candidates| == |s.candidates| && |u.jobs| == |s.jobs| && |u.generations| == |s.generations|
    && (forall c | 0 <= c < |s.candidates| :: u.candidates[c] ==
          if Outdated(s, stale, c) then s.candidates[c].(status := CandidateSuperseded, revision := s.candidates[c].revision + 1)
          else s.candidates[c])
    && (forall i | 0 <= i < |s.jobs| :: u.jobs[i] ==
          if OutdatedChoice(s, stale, s.jobs[i].selection) && s.jobs[i].status in {Queued, Running, FailedRecoverable}
          then s.jobs[i].(status := JobSuperseded) else s.jobs[i])
    && (forall g | 0 <= g < |s.generations| :: u.generations[g] ==
          if s.generations[g].job < |s.jobs| && OutdatedChoice(s, stale, s.jobs[s.generations[g].job].selection)
          then s.generations[g].(current := false) else s.generations[g])
    && u.tokens == s.tokens && u.selections == s.selections && u.handoffs == s.handoffs && u.provider == s.provider
    && u.issued == s.issued && SameControl(s, u)
  }

  /** And with them the open digests of their runs. */
  ghost predicate DigestsTakenAway(s: Db, u: Db, stale: set<nat>) {
    && |u.digests| == |s.digests|
    && forall d | 0 <= d < |s.digests| :: u.digests[d] ==
         if s.digests[d].status == ActiveDigest && exists c: nat :: Outdated(s, stale, c) && s.candidates[c].run == s.digests[d].run
         then s.digests[d].(status := DigestSuperseded, revision := s.digests[d].revision + 1) else s.digests[d]
  }

  lemma InvalidateTakesExactly(s: Db, stale: set<nat>)
    ensures TakenAway(s, Invalidate(s, stale), stale) && DigestsTakenAway(s, Invalidate(s, stale), stale)
  {
    var gone := set c | c in stale && c < |s.candidates| && !(s.candidates[c].status in {CandidateSuperseded, Approved});
    forall c: nat ensures c in gone <==> Outdated(s, stale, c) {}
    var u := Invalidate(s, stale);
    assert DigestsTakenAway(s, u, stale);
  }

  /** A candidate arrives waiting to be chosen, unless news policy does not want it at once; a button is issued open. */
  lemma ArrivesAndIsShown(s: Db, run: nat, immediate: bool, k: CallbackToken)
    ensures var u := AddCandidate(s, run, immediate);
            && u.candidates == s.candidates + [Candidate(run, if immediate then PendingSelection else Rejected, 1, Selection, 0)]
            && OnlyDesk(s, u) && u.digests == s.digests && u.tokens == s.tokens
    ensures var u := Issue(s, k);
            && |u.tokens| == |s.tokens| + 1 && u.tokens[..|s.tokens|] == s.tokens
            && u.tokens[|s.tokens|] == k.(consumed := u.tokens[|s.tokens|].consumed, revoked := u.tokens[|s.tokens|].revoked)
            && !u.tokens[|s.tokens|].consumed && !u.tokens[|s.tokens|].revoked
            && OnlyDesk(s, u) && u.digests == s.digests && u.candidates == s.candidates
  {
  }

  /** A digest opens with the first revision; exactly the stale candidates of its run that nobody chose go. */
  lemma DigestOpens(s: Db, run: nat, stale: set<nat>, reused: bool)
    ensures var u := CreateDigest(s, run, stale, reused);
            && OnlyDesk(s, u) && u.tokens == s.tokens && |u.candidates| == |s.candidates|
            && u.digests == (if reused then s.digests else s.digests + [Digest(run, ActiveDigest, 1)])
            && forall c | 0 <= c < |s.candidates| :: u.candidates[c] ==
                 if c in stale && s.candidates[c].run == run && s.candidates[c].status == PendingSelection
                 then s.candidates[c].(status := CandidateSuperseded, revision := s.candidates[c].revision + 1) else s.candidates[c]
  {
  }
}
