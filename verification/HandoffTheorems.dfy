/** The guarantees of the Sheets authority over every run: fencing, no resend, at most one copy. */
module HandoffTheorems {
  import opened Common
  import opened HandoffModel
  import opened HandoffInvariant

  // ---------------------------------------------------------------- how rows may change over time

  ghost predicate OperationEvolves(o: Operation, n: Operation) {
    && n.target == o.target && n.subject == o.subject && o.fence <= n.fence
    && (o.finishedAt.Some? ==> n == o)
    && (o.dispatchAt.Some? ==> n.dispatchAt == o.dispatchAt && n.preflightEvent == o.preflightEvent)
  }

  ghost predicate LeaseEvolves(l: LeaseRow, n: LeaseRow) {
    && n == l.(status := n.status, reason := n.reason)
    && (l.status != Active ==> n == l)
  }

  /** Rows are never removed; finished operations, closed leases, settlements and final subjects never change. */
  ghost predicate Evolves(s: Db, t: Db) {
    && |s.ops| <= |t.ops|
    && (forall i | 0 <= i < |s.ops| :: OperationEvolves(s.ops[i], t.ops[i]))
    && |s.leases| <= |t.leases|
    && (forall k | 0 <= k < |s.leases| :: LeaseEvolves(s.leases[k], t.leases[k]))
    && s.events <= t.events && s.settlements <= t.settlements && s.probes <= t.probes
    && (forall id | id in s.subjects :: id in t.subjects)
    && (forall id | id in s.subjects && Final(s.subjects[id].status) :: t.subjects[id] == s.subjects[id])
  }

  lemma EvolvesTransitive(s: Db, t: Db, u: Db)
    requires Evolves(s, t) && Evolves(t, u)
    ensures Evolves(s, u)
  {
    forall i | 0 <= i < |s.ops| ensures OperationEvolves(s.ops[i], u.ops[i]) {
      assert OperationEvolves(s.ops[i], t.ops[i]) && OperationEvolves(t.ops[i], u.ops[i]);
    }
    forall k | 0 <= k < |s.leases| ensures LeaseEvolves(s.leases[k], u.leases[k]) {
      assert LeaseEvolves(s.leases[k], t.leases[k]) && LeaseEvolves(t.leases[k], u.leases[k]);
    }
  }

  /** No operation is dispatched between the two states. */
  ghost predicate Quiet(s: Db, t: Db) {
    && |s.ops| <= |t.ops|
    && (forall i | 0 <= i < |s.ops| :: t.ops[i].dispatchAt == s.ops[i].dispatchAt)
    && (forall i | |s.ops| <= i < |t.ops| :: t.ops[i].dispatchAt.None?)
  }

  lemma SettleEvolves(s: Db, id: nat, o: Outcome, code: Option<Code>, retryAt: Option<int>,
                      kind: EventKind, eventCode: Option<Code>, closed: LeaseStatus, now: int)
    requires id < |s.leases| && s.leases[id].status == Active && Unfinished(s, s.leases[id].op)
    ensures Evolves(s, Settle(s, id, o, code, retryAt, kind, eventCode, closed, now))
    ensures Quiet(s, Settle(s, id, o, code, retryAt, kind, eventCode, closed, now))
  {
  }

  lemma RecoverEvolves(s: Db, target: nat, now: int)
    ensures Evolves(s, Recover(s, target, now)) && Quiet(s, Recover(s, target, now))
  {
    var r := FirstExpired(s, target, now, 0);
    if r.Some? {
      SettleEvolves(s, r.value, AbandonedPreMarker, Some(OutcomeCode(AbandonedPreMarker)), None,
                    LeaseExpiredPreMarker, Some(OutcomeCode(AbandonedPreMarker)), Expired, now);
    }
  }

  lemma OpenEvolves(s: Db, target: nat, id: SubjectId, now: int, expiresAt: int, token: nat)
    requires id in s.subjects && !Final(s.subjects[id].status)
    ensures Evolves(s, Open(s, target, id, now, expiresAt, token)) && Quiet(s, Open(s, target, id, now, expiresAt, token))
  {
  }

  lemma AcquireEvolves(s: Db, id: SubjectId, asked: Option<nat>, now: int, expiresAt: int, token: nat)
    ensures Evolves(s, AcquireInitial(s, id, asked, now, expiresAt, token).0)
    ensures Quiet(s, AcquireInitial(s, id, asked, now, expiresAt, token).0)
  {
    var b := BoundTarget(s, id);
    if b.Some? && !(asked.Some? && asked.value != b.value) {
      var s1 := Recover(s, b.value, now);
      RecoverEvolves(s, b.value, now);
      if Startable(s1, id, now) && !TargetBusy(s1, b.value) {
        OpenEvolves(s1, b.value, id, now, expiresAt, token);
        EvolvesTransitive(s, s1, Open(s1, b.value, id, now, expiresAt, token));
      }
    }
  }

  lemma RetireEvolves(s: Db, op: nat, fence: nat, id: nat, now: int)
    requires id < |s.leases| && s.leases[id].status == Active
    ensures Evolves(s, RetireForProbe(s, op, fence, id, now)) && Quiet(s, RetireForProbe(s, op, fence, id, now))
  {
  }

  lemma AddProbeEvolves(s: Db, op: nat, now: int, expiresAt: int, token: nat)
    requires Unfinished(s, op)
    ensures Evolves(s, AddProbeLease(s, op, now, expiresAt, token).0)
    ensures Quiet(s, AddProbeLease(s, op, now, expiresAt, token).0)
  {
  }

  lemma AcquireProbeEvolves(s: Db, op: nat, expectedFence: nat, now: int, expiresAt: int, token: nat)
    ensures Evolves(s, AcquireProbe(s, op, expectedFence, now, expiresAt, token).0)
    ensures Quiet(s, AcquireProbe(s, op, expectedFence, now, expiresAt, token).0)
  {
    if Unfinished(s, op) && s.ops[op].fence == expectedFence && s.ops[op].status == PossiblySent {
      var active := FirstActive(s.leases, op, 0);
      if active.None? { AddProbeEvolves(s, op, now, expiresAt, token); }
      else if s.leases[active.value].expiresAt <= now {
        var m := RetireForProbe(s, op, expectedFence, active.value, now);
        RetireEvolves(s, op, expectedFence, active.value, now);
        AddProbeEvolves(m, op, now, expiresAt, token);
        EvolvesTransitive(s, m, AddProbeLease(m, op, now, expiresAt, token).0);
      }
    }
  }

  lemma MarkedEvolves(s: Db, l: Lease, now: int)
    requires Unfinished(s, l.op) && s.ops[l.op].dispatchAt.None?
    ensures Evolves(s, Marked(s, l, now))
  {
  }

  lemma MarkEvolves(s: Db, l: Lease, p: DispatchProof, now: int)
    requires Inv(s)
    ensures Evolves(s, MarkPossiblySent(s, l, p, now).0)
    ensures MarkPossiblySent(s, l, p, now).1 != Yes ==> Quiet(s, MarkPossiblySent(s, l, p, now).0)
  {
    if MarkEvidence(s, l, p, now) {
      assert OperationOk(s.ops[l.op]);
      if s.leases[l.id].expiresAt <= now { RecoverEvolves(s, s.ops[l.op].target, now); }
      else if s.ops[l.op].status == Acquired { MarkedEvolves(s, l, now); }
      else { assert MarkPossiblySent(s, l, p, now).0 == s; }
    } else {
      assert MarkPossiblySent(s, l, p, now).0 == s;
    }
  }

  lemma ReleaseEvolves(s: Db, l: Lease, kind: EventKind)
    requires l.id < |s.leases| && s.leases[l.id].status == Active
    ensures Evolves(s, ReleaseLease(s, l, kind)) && Quiet(s, ReleaseLease(s, l, kind))
  {
  }

  lemma SubjectStepsEvolve(s: Db, c: Call)
    requires c.CallEnqueue? || c.CallEnsureBootstrap? || c.CallRetryBlocked?
    ensures Evolves(s, Step(s, c)) && Quiet(s, Step(s, c))
  {
  }

  lemma AddEventEvolves(s: Db, op: nat, fence: nat, kind: EventKind, code: Option<Code>, now: int, probes: seq<Probe>)
    requires s.probes <= probes
    ensures Evolves(s, AddEvent(s, op, fence, kind, code, now).(probes := probes))
    ensures Quiet(s, AddEvent(s, op, fence, kind, code, now).(probes := probes))
  {
  }

  lemma EvidenceStepsEvolve(s: Db, c: Call)
    requires c.CallRecordPreflight? || c.CallReleasePossiblySent? || c.CallRecordProbe? || c.CallReleaseProbe?
    ensures Evolves(s, Step(s, c)) && Quiet(s, Step(s, c))
  {
    match c
    case CallRecordPreflight(l, seen, now) =>
      AddEventEvolves(s, l.op, l.fence, Preflight(seen), None, now, s.probes);
    case CallRecordProbe(l, found, matching, now) =>
      AddEventEvolves(s, l.op, l.fence, Probed(found), None, now, s.probes + [Probe(l.op, l.fence, found, matching)]);
    case CallReleasePossiblySent(l, now) => ReleasePossiblySentEvolves(s, l, now);
    case CallReleaseProbe(l, found, _) =>
      if Owns(s, l) { ReleaseEvolves(s, l, Probed(found)); }
  }

  lemma ReleasePossiblySentEvolves(s: Db, l: Lease, now: int)
    ensures Evolves(s, ReleasePossiblySent(s, l, now)) && Quiet(s, ReleasePossiblySent(s, l, now))
  {
    var m := AddEvent(s, l.op, l.fence, TransportAmbiguous, None, now);
    AddEventEvolves(s, l.op, l.fence, TransportAmbiguous, None, now, s.probes);
    if Owns(s, l) {
      ReleaseEvolves(m, l, TransportAmbiguous);
      EvolvesTransitive(s, m, ReleaseLease(m, l, TransportAmbiguous));
    }
  }

  lemma StepEvolves(s: Db, c: Call)
    requires Inv(s)
    ensures Evolves(s, Step(s, c))
    ensures !(c.CallMark? && MarkPossiblySent(s, c.lease, c.proof, c.now).1 == Yes) ==> Quiet(s, Step(s, c))
  {
    match c
    case CallAcquireInitial(id, asked, now, expiresAt, token) => AcquireEvolves(s, id, asked, now, expiresAt, token);
    case CallAcquireProbe(op, fence, now, expiresAt, token) => AcquireProbeEvolves(s, op, fence, now, expiresAt, token);
    case CallMark(l, p, now) => MarkEvolves(s, l, p, now);
    case CallRecover(t, now) => RecoverEvolves(s, t, now);
    case CallSettleRejection(l, retryable, code, retryAt, now) =>
      if CanReject(s, l, retryable, code, retryAt, now) {
        SettleEvolves(s, l.id, if retryable then RetryableRejection else BlockedRejection, Some(code), retryAt,
                      TrustedRejection, Some(code), Released, now);
      }
    case CallFinish(l, o, now) =>
      if CanFinish(s, l, o) {
        SettleEvolves(s, l.id, o, FinishCode(o), None, FinishEvent(o), Some(OutcomeCode(o)), Released, now);
      }
    case CallEnqueue(_, _) => SubjectStepsEvolve(s, c);
    case CallEnsureBootstrap(_, _) => SubjectStepsEvolve(s, c);
    case CallRetryBlocked(_, _) => SubjectStepsEvolve(s, c);
    case _ => EvidenceStepsEvolve(s, c);
  }

  lemma {:induction false} RunEvolves(s: Db, calls: seq<Call>)
    requires Inv(s)
    ensures Evolves(s, Run(s, calls))
    decreases |calls|
  {
    if calls != [] {
      var before := Run(s, calls[..|calls| - 1]);
      RunEvolves(s, calls[..|calls| - 1]);
      RunKeepsInv(s, calls[..|calls| - 1]);
      StepEvolves(before, calls[|calls| - 1]);
      EvolvesTransitive(s, before, Run(s, calls));
    }
  }

  // ---------------------------------------------------------------- fencing

  /** The lease object a call presents, if it presents one. */
  function PresentedLease(c: Call): Option<Lease> {
    match c
    case CallRecordPreflight(l, _, _) => Some(l)
    case CallMark(l, _, _) => Some(l)
    case CallReleasePossiblySent(l, _) => Some(l)
    case CallRecordProbe(l, _, _, _) => Some(l)
    case CallReleaseProbe(l, _, _) => Some(l)
    case CallSettleRejection(l, _, _, _, _) => Some(l)
    case CallFinish(l, _, _) => Some(l)
    case _ => None
  }

  /** An owned lease carries the operation's newest fence, on an unfinished operation, and is the only one. */
  lemma OwnedLeaseIsTheFence(s: Db, l: Lease, m: Lease)
    requires Inv(s) && Owns(s, l)
    ensures Unfinished(s, l.op) && l.fence == s.ops[l.op].fence && s.ops[l.op].lease == l.id
    ensures Owns(s, m) && m.op == l.op ==> m.id == l.id && m.fence == l.fence && m.token == l.token
  {
    assert LeaseOk(s, l.id);
    if Owns(s, m) { assert LeaseOk(s, m.id); }
  }

  /** A lease that was superseded or closed never changes a row again, through any method, in any later run. */
  lemma {:induction false} StaleLeaseIsPowerless(s: Db, l: Lease, calls: seq<Call>, c: Call)
    requires Inv(s) && l.id < |s.leases| && !Owns(s, l)
    requires PresentedLease(c) == Some(l)
    ensures !Owns(Run(s, calls), l)
    ensures Step(Run(s, calls), c) == Run(s, calls)
  {
    RunEvolves(s, calls);
    var t := Run(s, calls);
    assert LeaseEvolves(s.leases[l.id], t.leases[l.id]);
  }

  /** Taking an operation over, or settling it, strips every lease handed out before. */
  lemma {:induction false} TakeoverStripsOlderLeases(s: Db, op: nat, fence: nat, now: int, expiresAt: int, token: nat, held: Lease)
    requires Inv(s) && Owns(s, held) && held.op == op
    ensures AcquireProbe(s, op, fence, now, expiresAt, token).1.Granted? ==>
              !Owns(AcquireProbe(s, op, fence, now, expiresAt, token).0, held)
  {
    var (t, g) := AcquireProbe(s, op, fence, now, expiresAt, token);
    if g.Granted? {
      AcquireProbeKeepsInv(s, op, fence, now, expiresAt, token);
      OwnedLeaseIsTheFence(s, held, held);
      if Owns(t, held) { OwnedLeaseIsTheFence(t, held, held); }
    }
  }

  /**
    After every run: one unfinished operation a target at most; an active lease belongs to an unfinished
    operation, is its only active one, and carries its newest fence.
   */
  lemma {:induction false} FencedOverRuns(oracles: map<nat, nat>, calls: seq<Call>)
    ensures var s := Run(EmptyDb(oracles), calls);
            && (forall i, j | 0 <= i < j < |s.ops| && s.ops[i].target == s.ops[j].target ::
                  s.ops[i].finishedAt.Some? || s.ops[j].finishedAt.Some?)
            && (forall k | 0 <= k < |s.leases| && s.leases[k].status == Active ::
                  Unfinished(s, s.leases[k].op) && s.leases[k].fence == s.ops[s.leases[k].op].fence)
            && (forall k, m | 0 <= k < m < |s.leases| && s.leases[k].status == Active && s.leases[m].status == Active ::
                  s.leases[k].op != s.leases[m].op)
  {
    InitInv(oracles);
    RunKeepsInv(EmptyDb(oracles), calls);
    var s := Run(EmptyDb(oracles), calls);
    forall k | 0 <= k < |s.leases| && s.leases[k].status == Active
      ensures Unfinished(s, s.leases[k].op) && s.leases[k].fence == s.ops[s.leases[k].op].fence && s.ops[s.leases[k].op].lease == k
    {
      assert LeaseOk(s, k);
    }
  }

  /** The recovery that a call runs before its own work, and commits with it. */
  function RecoveryOf(s: Db, c: Call): Db {
    match c
    case CallAcquireInitial(id, _, now, _, _) =>
      if BoundTarget(s, id).Some? then Recover(s, BoundTarget(s, id).value, now) else s
    case CallMark(l, _, now) => if l.op < |s.ops| then Recover(s, s.ops[l.op].target, now) else s
    case _ => s
  }

  /** Calls that may find their work done already, or that only recover. */
  predicate Repeatable(c: Call) { c.CallEnqueue? || c.CallEnsureBootstrap? || c.CallRecover? }

  lemma RecoverTrace(s: Db, target: nat, now: int)
    ensures Recover(s, target, now) == s ||
            (|Recover(s, target, now).events| == |s.events| + 1
             && Recover(s, target, now).events[|s.events|].kind == LeaseExpiredPreMarker)
    ensures |Recover(s, target, now).ops| == |s.ops|
  {
  }

  ghost predicate LeavesATrace(s: Db, t: Db) {
    || |t.ops| > |s.ops|
    || (|t.events| > |s.events| && t.events[|t.events| - 1].kind != LeaseExpiredPreMarker)
    || (|t.events| == |s.events| && t.leases != s.leases)
  }

  /** A granted call leaves a row of its own, which no recovery writes. */
  lemma GrantedLeavesATrace(s: Db, c: Call)
    requires Answer(s, c) == Yes && !Repeatable(c)
    ensures LeavesATrace(s, Step(s, c))
  {
    if c.CallAcquireInitial? { GrantedAcquisition(s, c); }
    if c.CallAcquireProbe? { GrantedProbe(s, c); }
    if c.CallReleaseProbe? { assert Step(s, c).leases[c.lease.id].status != s.leases[c.lease.id].status; }
  }

  lemma GrantedAcquisition(s: Db, c: Call)
    requires c.CallAcquireInitial? && Answer(s, c) == Yes
    ensures |Step(s, c).ops| > |s.ops|
  {
    RecoverTrace(s, BoundTarget(s, c.id).value, c.now);
  }

  lemma GrantedProbe(s: Db, c: Call)
    requires c.CallAcquireProbe? && Answer(s, c) == Yes
    ensures LeavesATrace(s, Step(s, c))
  {
  }

  /** A call that is refused or raises writes nothing but a recovery; a call that is granted writes more than that. */
  lemma {:induction false} RefusalWritesOnlyRecovery(s: Db, c: Call)
    ensures Answer(s, c) != Yes ==> Step(s, c) == s || Step(s, c) == RecoveryOf(s, c)
    ensures Answer(s, c) == Yes && !Repeatable(c) ==>
              Step(s, c) != s && forall target: nat, now: int :: Step(s, c) != Recover(s, target, now)
  {
    if Answer(s, c) == Yes && !Repeatable(c) {
      GrantedLeavesATrace(s, c);
      forall target: nat, now: int ensures Step(s, c) != Recover(s, target, now) { RecoverTrace(s, target, now); }
    }
  }

  // ---------------------------------------------------------------- agreement of the tables

  /** A subject is in flight exactly when it has an unfinished operation, at the same stage. */
  lemma {:induction false} SubjectAgreesWithOperations(s: Db, id: SubjectId)
    requires Inv(s) && id in s.subjects
    ensures s.subjects[id].status == Working <==>
              exists i: nat :: Unfinished(s, i) && s.ops[i].subject == id && s.ops[i].status == Acquired
    ensures s.subjects[id].status == Ambiguous <==>
              exists i: nat :: Unfinished(s, i) && s.ops[i].subject == id && s.ops[i].status == PossiblySent
  {
    if InFlight(s, id, Acquired) {
      var i :| 0 <= i < |s.ops| && s.ops[i].subject == id && s.ops[i].status == Acquired;
      assert OperationOk(s.ops[i]) && Unfinished(s, i);
    }
    if InFlight(s, id, PossiblySent) {
      var i :| 0 <= i < |s.ops| && s.ops[i].subject == id && s.ops[i].status == PossiblySent;
      assert OperationOk(s.ops[i]) && Unfinished(s, i);
    }
    forall i: nat | Unfinished(s, i) && s.ops[i].subject == id
      ensures InFlight(s, id, s.ops[i].status)
    {}
  }

  /** Delivered, corrupt, manual and ready subjects are never moved again. */
  lemma {:induction false} FinalSubjectsAbsorb(s: Db, calls: seq<Call>, id: SubjectId)
    requires Inv(s) && id in s.subjects && Final(s.subjects[id].status)
    ensures id in Run(s, calls).subjects && Run(s, calls).subjects[id] == s.subjects[id]
  {
    RunEvolves(s, calls);
  }

  /** A finished operation has exactly one settlement row, which repeats its operation, subject and lease. */
  lemma {:induction false} OneSettlementPerFinishedOperation(s: Db, op: nat)
    requires Inv(s) && op < |s.ops|
    ensures s.ops[op].finishedAt.Some? <==> exists k :: 0 <= k < |s.settlements| && s.settlements[k].op == op
    ensures forall j, k | 0 <= j < |s.settlements| && 0 <= k < |s.settlements|
              && s.settlements[j].op == op && s.settlements[k].op == op :: j == k
    ensures forall k | 0 <= k < |s.settlements| && s.settlements[k].op == op :: SettlementOk(s, k)
  {
    assert OperationOk(s.ops[op]);
    forall k | 0 <= k < |s.settlements| && s.settlements[k].op == op
      ensures s.ops[op].settlement == Some(k)
    {
      assert SettlementOk(s, k);
    }
    if s.ops[op].finishedAt.Some? { assert s.settlements[s.ops[op].settlement.value].op == op; }
  }

  // ---------------------------------------------------------------- dispatch

  /** Two dispatched operations of one subject: one of them is settled as not applied. */
  ghost predicate OneLiveDispatch(s: Db) {
    forall i, j | 0 <= i < |s.ops| && 0 <= j < |s.ops| && i != j && s.ops[i].subject == s.ops[j].subject
      && s.ops[i].dispatchAt.Some? && s.ops[j].dispatchAt.Some? ::
      s.ops[i].certainty == SettledNotApplied || s.ops[j].certainty == SettledNotApplied
  }

  /** Only a successful mark_possibly_sent dispatches, and only the operation of its lease. */
  lemma {:induction false} OnlyMarkDispatches(s: Db, c: Call, i: nat)
    requires Inv(s)
    requires i < |Step(s, c).ops| && Step(s, c).ops[i].dispatchAt.Some?
    ensures i < |s.ops|
    ensures s.ops[i].dispatchAt.None? ==>
              c.CallMark? && c.lease.op == i && MarkPossiblySent(s, c.lease, c.proof, c.now).1 == Yes
  {
    StepEvolves(s, c);
    if c.CallMark? && MarkPossiblySent(s, c.lease, c.proof, c.now).1 == Yes {
      assert Step(s, c) == Marked(s, c.lease, c.now);
    }
  }

  /**
    The heart of the authority: when an operation is dispatched, every operation of the same
    subject that was ever dispatched before is settled as not applied.
   */
  lemma {:induction false} DispatchOnlyAfterNotApplied(s: Db, l: Lease, p: DispatchProof, now: int, i: nat)
    requires Inv(s) && MarkPossiblySent(s, l, p, now).1 == Yes
    requires i < |s.ops| && s.ops[i].subject == s.ops[l.op].subject && s.ops[i].dispatchAt.Some?
    ensures i != l.op && s.ops[i].finishedAt.Some? && s.ops[i].certainty == SettledNotApplied
  {
    OpenSubject(s, l.op);
    assert OperationOk(s.ops[l.op]);
  }

  lemma {:induction false} StepKeepsOneLive(s: Db, c: Call)
    requires Inv(s) && OneLiveDispatch(s)
    ensures OneLiveDispatch(Step(s, c))
  {
    var t := Step(s, c);
    StepEvolves(s, c);
    forall i, j | 0 <= i < |t.ops| && 0 <= j < |t.ops| && i != j && t.ops[i].subject == t.ops[j].subject
      && t.ops[i].dispatchAt.Some? && t.ops[j].dispatchAt.Some?
      ensures t.ops[i].certainty == SettledNotApplied || t.ops[j].certainty == SettledNotApplied
    {
      OnlyMarkDispatches(s, c, i);
      OnlyMarkDispatches(s, c, j);
      NotAppliedStays(s, c, i);
      NotAppliedStays(s, c, j);
      if s.ops[i].dispatchAt.None? {
        DispatchOnlyAfterNotApplied(s, c.lease, c.proof, c.now, j);
      } else if s.ops[j].dispatchAt.None? {
        DispatchOnlyAfterNotApplied(s, c.lease, c.proof, c.now, i);
      }
    }
  }

  lemma NotAppliedStays(s: Db, c: Call, i: nat)
    requires Inv(s) && i < |s.ops|
    ensures i < |Step(s, c).ops| && Step(s, c).ops[i].subject == s.ops[i].subject
    ensures s.ops[i].certainty == SettledNotApplied ==> Step(s, c).ops[i].certainty == SettledNotApplied
  {
    StepEvolves(s, c);
    assert OperationOk(s.ops[i]) && OperationEvolves(s.ops[i], Step(s, c).ops[i]);
  }

  lemma {:induction false} RunKeepsOneLive(s: Db, calls: seq<Call>)
    requires Inv(s) && OneLiveDispatch(s)
    ensures OneLiveDispatch(Run(s, calls))
    decreases |calls|
  {
    if calls != [] {
      RunKeepsOneLive(s, calls[..|calls| - 1]);
      RunKeepsInv(s, calls[..|calls| - 1]);
      StepKeepsOneLive(Run(s, calls[..|calls| - 1]), calls[|calls| - 1]);
    }
  }

  /** Over every run from the empty database: one mark at most per operation, one live dispatch per subject. */
  lemma {:induction false} NoResend(oracles: map<nat, nat>, calls: seq<Call>)
    ensures OneLiveDispatch(Run(EmptyDb(oracles), calls))
    ensures forall j: nat, k: nat, op: nat ::
              IsMark(Run(EmptyDb(oracles), calls), j, op) && IsMark(Run(EmptyDb(oracles), calls), k, op) ==> j == k
  {
    InitInv(oracles);
    RunKeepsInv(EmptyDb(oracles), calls);
    RunKeepsOneLive(EmptyDb(oracles), calls);
  }

  // ---------------------------------------------------------------- the sheet itself

  /** The authority together with the operations whose remote write has landed on the sheet. */
  datatype World = World(db: Db, landed: set<nat>)

  datatype Happening = Serve(call: Call) | Land(op: nat)

  function Next(w: World, h: Happening): World {
    match h
    case Serve(c) => w.(db := Step(w.db, c))
    case Land(op) => w.(landed := w.landed + {op})
  }

  /**
    A dispatched request lands at some moment or never, and "settled as not applied" is
    the truth: such a write has not landed and does not land later.
   */
  predicate Truthful(w: World, h: Happening) {
    match h
    case Serve(c) => forall op | op in w.landed && op < |Step(w.db, c).ops| :: Step(w.db, c).ops[op].certainty != SettledNotApplied
    case Land(op) => op < |w.db.ops| && w.db.ops[op].dispatchAt.Some? && w.db.ops[op].certainty != SettledNotApplied
  }

  function After(w: World, hs: seq<Happening>): World
    decreases |hs|
  {
    if hs == [] then w else Next(After(w, hs[..|hs| - 1]), hs[|hs| - 1])
  }

  ghost predicate TruthfulRun(w: World, hs: seq<Happening>)
    decreases |hs|
  {
    hs != [] ==> TruthfulRun(w, hs[..|hs| - 1]) && Truthful(After(w, hs[..|hs| - 1]), hs[|hs| - 1])
  }

  ghost predicate WorldInv(w: World) {
    && Inv(w.db) && OneLiveDispatch(w.db)
    && forall op | op in w.landed ::
         op < |w.db.ops| && w.db.ops[op].dispatchAt.Some? && w.db.ops[op].certainty != SettledNotApplied
  }

  lemma TruthfulStepKeepsWorld(w: World, h: Happening)
    requires WorldInv(w) && Truthful(w, h)
    ensures WorldInv(Next(w, h))
  {
    match h
    case Serve(c) =>
      StepKeepsInv(w.db, c);
      StepKeepsOneLive(w.db, c);
      StepEvolves(w.db, c);
      forall op | op in w.landed
        ensures op < |Step(w.db, c).ops| && Step(w.db, c).ops[op].dispatchAt.Some?
      {
        assert OperationEvolves(w.db.ops[op], Step(w.db, c).ops[op]);
      }
    case Land(_) =>
  }

  lemma {:induction false} TruthfulRunsKeepWorld(w: World, hs: seq<Happening>)
    requires WorldInv(w) && TruthfulRun(w, hs)
    ensures WorldInv(After(w, hs))
    decreases |hs|
  {
    if hs != [] {
      TruthfulRunsKeepWorld(w, hs[..|hs| - 1]);
      TruthfulStepKeepsWorld(After(w, hs[..|hs| - 1]), hs[|hs| - 1]);
    }
  }

  /** Two landed writes of one subject are one. */
  lemma OneLanding(w: World, i: nat, j: nat)
    requires WorldInv(w) && i in w.landed && j in w.landed && w.db.ops[i].subject == w.db.ops[j].subject
    ensures i == j
  {
  }

  /** If settlements are truthful, the sheet never holds two copies of one handoff. */
  lemma {:induction false} AtMostOneCopy(oracles: map<nat, nat>, hs: seq<Happening>, i: nat, j: nat)
    requires TruthfulRun(World(EmptyDb(oracles), {}), hs)
    requires i in After(World(EmptyDb(oracles), {}), hs).landed && j in After(World(EmptyDb(oracles), {}), hs).landed
    ensures var db := After(World(EmptyDb(oracles), {}), hs).db;
            i < |db.ops| && j < |db.ops| && (db.ops[i].subject == db.ops[j].subject ==> i == j)
  {
    InitInv(oracles);
    TruthfulRunsKeepWorld(World(EmptyDb(oracles), {}), hs);
  }
}
