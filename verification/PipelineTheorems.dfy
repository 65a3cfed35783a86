/** What the lineage, the generation leases and the provider control guarantee over every run. */
module PipelineTheorems {
  import opened Common
  import opened PipelineModel
  import opened PipelineInvariant
  import opened PipelineSteps

  // ---------------------------------------------------------------- lineage

  /** Job i is live, or generation i - |jobs| is current: one unit of work on a selection. */
  ghost predicate Holding(s: Db, selection: nat, i: nat) {
    || (i < |s.jobs| && s.jobs[i].selection == selection && Live(s.jobs[i].status))
    || (|s.jobs| <= i < |s.jobs| + |s.generations|
        && s.generations[i - |s.jobs|].current && s.generations[i - |s.jobs|].job < |s.jobs|
        && s.jobs[s.generations[i - |s.jobs|].job].selection == selection)
  }

  /**
    After every run: a candidate has at most one selection, a digest at most one, live jobs plus
    current generations of a selection never exceed one, and no job ever has two generations.
   */
  lemma {:induction false} OneLineage(calls: seq<Call>)
    ensures var s := Run(EmptyDb(), calls);
            && (forall i, j | 0 <= i < j < |s.selections| ::
                  s.selections[i].candidate != s.selections[j].candidate && s.selections[i].digest != s.selections[j].digest)
            && (forall sel: nat, i: nat, j: nat :: Holding(s, sel, i) && Holding(s, sel, j) ==> i == j)
            && (forall g, h | 0 <= g < h < |s.generations| :: s.generations[g].job != s.generations[h].job)
  {
    var s := Run(EmptyDb(), calls);
    InitInv();
    RunKeeps(EmptyDb(), calls);
    forall sel: nat, i: nat, j: nat | Holding(s, sel, i) && Holding(s, sel, j) ensures i == j {
      OneHolder(s, sel, i, j);
    }
  }

  lemma OneHolder(s: Db, sel: nat, i: nat, j: nat)
    requires JobsOk(s) && GenerationsOk(s) && Holding(s, sel, i) && Holding(s, sel, j)
    ensures i == j
  {
    if i < |s.jobs| && j < |s.jobs| {
      assert i < j || j < i || i == j;
    } else if i >= |s.jobs| && j >= |s.jobs| {
      var g, h := i - |s.jobs|, j - |s.jobs|;
      assert g < h || h < g || g == h;
    }
  }

  /** A spent or revoked token never again changes anything, whatever happens in between. */
  lemma {:induction false} TokenActsOnce(s: Db, t: nat, e: Circumstances, now: int, calls: seq<Call>, e2: Circumstances, later: int)
    requires Inv(s) && t < |s.tokens| && TokenFits(s, s.tokens[t], e)
    ensures var u := Run(Apply(s, t, e, now), calls); Apply(u, t, e2, later) == u
  {
    var m := Apply(s, t, e, now);
    ApplyKeeps(s, t, e, now);
    assert m.tokens[t].consumed by {
      ConsumeEvolves(s, t);
      ActEvolves(Consume(s, t), t, now);
      assert TokenEvolves(Consume(s, t).tokens[t], m.tokens[t]);
    }
    RunKeeps(m, calls);
    assert TokenEvolves(m.tokens[t], Run(m, calls).tokens[t]);
  }

  /** Any decision but a refresh strips every other open token of that candidate. */
  lemma DecisionRevokesSiblings(s: Db, t: nat, e: Circumstances, now: int, other: nat)
    requires t < |s.tokens| && TokenFits(s, s.tokens[t], e) && s.tokens[t].action != Refresh
    requires other < |s.tokens| && other != t && s.tokens[other].candidate == s.tokens[t].candidate
    ensures other < |Apply(s, t, e, now).tokens|
            && (Apply(s, t, e, now).tokens[other].revoked || Apply(s, t, e, now).tokens[other].consumed)
  {
    ConsumeEvolves(s, t);
    var m := Consume(s, t);
    ActEvolves(m, t, now);
    assert TokenEvolves(m.tokens[other], Act(m, t, now).tokens[other]);
  }

  /**
    An approved candidate stays approved through every later call, and has exactly one handoff, whose
    approval token named it, was spent, and carried the content of the generation handed off.
   */
  lemma {:induction false} ApprovedForGood(calls: seq<Call>, more: seq<Call>, c: nat)
    requires var s := Run(EmptyDb(), calls); c < |s.candidates| && s.candidates[c].status == Approved
    ensures var s, t := Run(EmptyDb(), calls), Run(Run(EmptyDb(), calls), more);
            && c < |t.candidates| && t.candidates[c] == s.candidates[c] && s.handoffs <= t.handoffs
            && HandedOff(t, c)
            && (forall h | 0 <= h < |t.handoffs| :: HandoffOk(t, t.handoffs[h]))
            && (forall h, i | 0 <= h < |t.handoffs| && 0 <= i < |t.handoffs|
                  && t.tokens[t.handoffs[h].approval].candidate == c && t.tokens[t.handoffs[i].approval].candidate == c :: h == i)
  {
    InitInv();
    RunKeeps(EmptyDb(), calls);
    RunKeeps(Run(EmptyDb(), calls), more);
    var t := Run(Run(EmptyDb(), calls), more);
    forall h, i | 0 <= h < |t.handoffs| && 0 <= i < |t.handoffs|
      && t.tokens[t.handoffs[h].approval].candidate == c && t.tokens[t.handoffs[i].approval].candidate == c
      ensures h == i
    {
      assert h < i || i < h || h == i;
    }
  }

  // ---------------------------------------------------------------- leases

  /** The ticket's token is known, but its job no longer runs under it. */
  ghost predicate Superseded(s: Db, k: Ticket) {
    k.token in s.issued && !Leased(s, k.job, k.token)
  }

  /** A known token never becomes a job's lease again. */
  ghost predicate NoRelease(s: Db, t: Db) {
    forall job: nat, token: nat :: token in s.issued && !Leased(s, job, token) ==> token in t.issued && !Leased(t, job, token)
  }

  /** Enough for that: running jobs keep their token from before, or took one that was unknown. */
  lemma FreshTokens(s: Db, t: Db)
    requires s.issued <= t.issued
    requires forall i | 0 <= i < |t.jobs| && t.jobs[i].status == Running && t.jobs[i].token.Some? ::
               (i < |s.jobs| && s.jobs[i].status == Running && s.jobs[i].token == t.jobs[i].token) || t.jobs[i].token.value !in s.issued
    ensures NoRelease(s, t)
  {
  }

  lemma StartsAreFresh(s: Db, candidate: nat, job: nat, now: int, token: nat, sourcesBound: bool)
    ensures NoRelease(s, StartSelected(s, candidate, now, token, sourcesBound).0)
    ensures NoRelease(s, StartCodex(s, job, now, token, sourcesBound).0)
  {
    FreshTokens(s, StartSelected(s, candidate, now, token, sourcesBound).0);
    FreshTokens(s, StartCodex(s, job, now, token, sourcesBound).0);
  }

  /** Desk calls start no job. */
  ghost predicate StartsNothing(s: Db, t: Db) {
    t.issued == s.issued && forall i | 0 <= i < |t.jobs| && t.jobs[i].status == Running :: i < |s.jobs| && s.jobs[i] == t.jobs[i]
  }

  lemma MakeStartsNothing(s: Db, k: CallbackToken, now: int)
    requires k.candidate < |s.candidates| && k.digest < |s.digests|
    ensures StartsNothing(s, MakeSelection(s, k, now)) && StartsNothing(s, Rework(s, k, now))
  {
  }

  lemma ApplyStartsNothing(s: Db, t: nat, e: Circumstances, now: int)
    ensures StartsNothing(s, Apply(s, t, e, now))
  {
    if t < |s.tokens| && TokenFits(s, s.tokens[t], e) {
      var s1 := Consume(s, t);
      ConsumeEvolves(s, t);
      assert TokenEvolves(s.tokens[t], s1.tokens[t]);
      MakeStartsNothing(s1, s1.tokens[t], now);
    }
  }

  lemma DeskIsFresh(s: Db, c: DeskCall)
    ensures NoRelease(s, DeskStep(s, c))
  {
    assert StartsNothing(s, DeskStep(s, c)) by {
      if c.CallApply? { ApplyStartsNothing(s, c.t, c.e, c.now); }
    }
    FreshTokens(s, DeskStep(s, c));
  }

  lemma FailuresAreFresh(s: Db, k: Ticket, code: FailureCode, now: int, seed: nat)
    ensures NoRelease(s, FailSelected(s, k, now)) && NoRelease(s, FailCodex(s, k, code, now, seed).0)
  {
    FreshTokens(s, FailSelected(s, k, now));
    FreshTokens(s, FailCodex(s, k, code, now, seed).0);
  }

  lemma CommitsAreFresh(s: Db, k: Ticket, content: nat)
    ensures NoRelease(s, CommitSelected(s, k, content)) && NoRelease(s, CommitCodex(s, k, content))
  {
    FreshTokens(s, CommitSelected(s, k, content));
    FreshTokens(s, CommitCodex(s, k, content));
  }

  lemma WorkerIsFresh(s: Db, c: WorkerCall)
    ensures NoRelease(s, WorkerStep(s, c))
  {
    match c
    case CallStartSelected(candidate, now, token, bound) => StartsAreFresh(s, candidate, 0, now, token, bound);
    case CallFailSelected(k, now) => FailuresAreFresh(s, k, Busy, now, 0);
    case CallCommitSelected(k, content) => CommitsAreFresh(s, k, content);
    case CallSelectCodex(now) => FreshTokens(s, SelectCodex(s, now).0);
    case CallStartCodex(job, now, token, bound) => StartsAreFresh(s, 0, job, now, token, bound);
    case CallFailCodex(k, code, now, seed) => FailuresAreFresh(s, k, code, now, seed);
    case CallCommitCodex(k, content) => CommitsAreFresh(s, k, content);
  }

  lemma OperatorIsFresh(s: Db, c: OperatorCall)
    ensures NoRelease(s, OperatorStep(s, c))
  {
    FreshTokens(s, OperatorStep(s, c));
  }

  lemma {:induction false} RunIsFresh(s: Db, calls: seq<Call>)
    ensures NoRelease(s, Run(s, calls))
    decreases |calls|
  {
    if calls != [] {
      RunIsFresh(s, calls[..|calls| - 1]);
      var before := Run(s, calls[..|calls| - 1]);
      match calls[|calls| - 1]
      case Desk(d) => DeskIsFresh(before, d);
      case Worker(w) => WorkerIsFresh(before, w);
      case Operator(o) => OperatorIsFresh(before, o);
    }
  }

  /**
    A worker whose lease was taken over, or whose job was superseded, inserts no generation and settles
    nothing, at any time afterwards and through any of its four closing transactions.
   */
  lemma {:induction false} LostLeaseIsPowerless(s: Db, k: Ticket, calls: seq<Call>, content: nat, code: FailureCode, now: int, seed: nat)
    requires Inv(s) && Superseded(s, k)
    ensures var t := Run(s, calls);
            && FailSelected(t, k, now) == t && CommitSelected(t, k, content) == t
            && FailCodex(t, k, code, now, seed) == (t, false) && CommitCodex(t, k, content) == t
  {
    RunIsFresh(s, calls);
  }

  /** Every ticket that a start hands out is superseded as soon as its job is leased again, settled or cancelled. */
  lemma GenuineLosesToTakeover(s: Db, k: Ticket, t: Db)
    requires Inv(s) && Inv(t) && Evolves(s, t) && Genuine(s, k) && k.job < |t.jobs|
    requires t.jobs[k.job].status != Running || t.jobs[k.job].token != Some(k.token)
    ensures Superseded(t, k)
  {
    assert AttemptOk(s, s.provider[k.attempt]);
  }

  /** After every run a job has at most one open provider attempt: the one whose token it carries. */
  lemma {:induction false} OneOpenAttempt(calls: seq<Call>)
    ensures var s := Run(EmptyDb(), calls);
            forall a, b | 0 <= a < b < |s.provider| && s.provider[a].outcome.None? && s.provider[b].outcome.None? ::
              s.provider[a].job != s.provider[b].job
  {
    var s := Run(EmptyDb(), calls);
    InitInv();
    RunKeeps(EmptyDb(), calls);
    forall a, b | 0 <= a < b < |s.provider| && s.provider[a].outcome.None? && s.provider[b].outcome.None?
      ensures s.provider[a].job != s.provider[b].job
    {
      assert AttemptOk(s, s.provider[a]) && AttemptOk(s, s.provider[b]);
    }
  }
}
