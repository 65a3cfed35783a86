/** Whether acquired work can always be recovered: the lease that guards it, and what an early release costs. */
module HandoffRecovery {
  import opened Common
  import opened HandoffModel
  import opened HandoffInvariant
  import opened HandoffTheorems

  /** Every acquired operation still has the mutation lease it was opened with. */
  ghost predicate AcquiredGuarded(s: Db) {
    forall i | 0 <= i < |s.ops| && s.ops[i].status == Acquired ::
      && s.ops[i].lease < |s.leases|
      && s.leases[s.ops[i].lease].status == Active && s.leases[s.ops[i].lease].mode == Mutate
      && s.leases[s.ops[i].lease].op == i
  }

  /** release_possibly_sent does not look at the operation's status. */
  predicate ReleasesUnmarked(s: Db, c: Call) {
    && c.CallReleasePossiblySent? && c.lease.mode == Mutate && Owns(s, c.lease)
    && c.lease.op < |s.ops| && s.ops[c.lease.op].status == Acquired
  }

  lemma {:induction false} SettleKeepsGuard(s: Db, id: nat, o: Outcome, code: Option<Code>, retryAt: Option<int>,
                                            kind: EventKind, eventCode: Option<Code>, closed: LeaseStatus, now: int)
    requires Inv(s) && AcquiredGuarded(s) && id < |s.leases| && s.leases[id].op < |s.ops|
    ensures AcquiredGuarded(Settle(s, id, o, code, retryAt, kind, eventCode, closed, now))
  {
  }

  lemma {:induction false} RecoverKeepsGuard(s: Db, target: nat, now: int)
    requires Inv(s) && AcquiredGuarded(s)
    ensures AcquiredGuarded(Recover(s, target, now))
  {
    var r := FirstExpired(s, target, now, 0);
    if r.Some? {
      SettleKeepsGuard(s, r.value, AbandonedPreMarker, Some(OutcomeCode(AbandonedPreMarker)), None,
                       LeaseExpiredPreMarker, Some(OutcomeCode(AbandonedPreMarker)), Expired, now);
    }
  }

  lemma OpenKeepsGuard(s: Db, target: nat, id: SubjectId, now: int, expiresAt: int, token: nat)
    requires AcquiredGuarded(s) && id in s.subjects
    ensures AcquiredGuarded(Open(s, target, id, now, expiresAt, token))
  {
  }

  lemma AcquireProbeKeepsGuard(s: Db, op: nat, expectedFence: nat, now: int, expiresAt: int, token: nat)
    requires Inv(s) && AcquiredGuarded(s)
    ensures AcquiredGuarded(AcquireProbe(s, op, expectedFence, now, expiresAt, token).0)
  {
    if Unfinished(s, op) && s.ops[op].fence == expectedFence && s.ops[op].status == PossiblySent {
      var active := FirstActive(s.leases, op, 0);
      if active.None? { AddProbeKeepsGuard(s, op, now, expiresAt, token); }
      else if s.leases[active.value].expiresAt <= now {
        RetireKeepsGuard(s, op, expectedFence, active.value, now);
        AddProbeKeepsGuard(RetireForProbe(s, op, expectedFence, active.value, now), op, now, expiresAt, token);
      }
    }
  }

  lemma RetireKeepsGuard(s: Db, op: nat, fence: nat, id: nat, now: int)
    requires AcquiredGuarded(s) && op < |s.ops| && s.ops[op].status != Acquired
    requires id < |s.leases| && s.leases[id].op == op
    ensures AcquiredGuarded(RetireForProbe(s, op, fence, id, now))
  {
  }

  lemma AddProbeKeepsGuard(s: Db, op: nat, now: int, expiresAt: int, token: nat)
    requires AcquiredGuarded(s) && op < |s.ops| && s.ops[op].status != Acquired
    ensures AcquiredGuarded(AddProbeLease(s, op, now, expiresAt, token).0)
  {
  }

  /** Closing the lease of an operation that is not acquired leaves every acquired operation guarded, and only then. */
  lemma ReleaseAndGuard(s: Db, l: Lease, kind: EventKind)
    requires Inv(s) && AcquiredGuarded(s) && Owns(s, l)
    ensures l.op < |s.ops|
    ensures AcquiredGuarded(ReleaseLease(s, l, kind)) <==> s.ops[l.op].status != Acquired
  {
    OwnedLeaseIsTheFence(s, l, l);
    var t := ReleaseLease(s, l, kind);
    if s.ops[l.op].status == Acquired { assert t.ops[l.op].status == Acquired; }
  }

  /** The lease objects that workers hold are the ones they were handed: the mode is that of the row. */
  predicate Genuine(s: Db, c: Call) {
    var l := PresentedLease(c);
    l.Some? && Owns(s, l.value) ==> l.value.mode == s.leases[l.value.id].mode
  }

  lemma MarkKeepsGuard(s: Db, l: Lease, p: DispatchProof, now: int)
    requires Inv(s) && AcquiredGuarded(s)
    ensures AcquiredGuarded(MarkPossiblySent(s, l, p, now).0)
  {
    if MarkEvidence(s, l, p, now) {
      RecoverKeepsGuard(s, s.ops[l.op].target, now);
      if s.leases[l.id].expiresAt > now && s.ops[l.op].status == Acquired {
        var t := Marked(s, l, now);
        assert forall i | 0 <= i < |t.ops| && t.ops[i].status == Acquired :: t.ops[i] == s.ops[i];
      }
    }
  }

  lemma AcquireKeepsGuard(s: Db, id: SubjectId, asked: Option<nat>, now: int, expiresAt: int, token: nat)
    requires Inv(s) && AcquiredGuarded(s)
    ensures AcquiredGuarded(AcquireInitial(s, id, asked, now, expiresAt, token).0)
  {
    var b := BoundTarget(s, id);
    if b.Some? && !(asked.Some? && asked.value != b.value) {
      RecoverKeepsGuard(s, b.value, now);
      var s1 := Recover(s, b.value, now);
      if Startable(s1, id, now) && !TargetBusy(s1, b.value) { OpenKeepsGuard(s1, b.value, id, now, expiresAt, token); }
    }
  }

  lemma ReleasesAndGuard(s: Db, c: Call)
    requires Inv(s) && AcquiredGuarded(s) && Genuine(s, c)
    requires c.CallReleasePossiblySent? || c.CallReleaseProbe?
    ensures AcquiredGuarded(Step(s, c)) <==> !ReleasesUnmarked(s, c)
  {
    var l := c.lease;
    if Owns(s, l) { OwnedLeaseIsTheFence(s, l, l); }
    if c.CallReleasePossiblySent? && l.mode == Mutate && Owns(s, l) {
      EventsKeepInv(s, Event(l.op, l.fence, TransportAmbiguous, None, c.now), s.probes);
      ReleaseAndGuard(AddEvent(s, l.op, l.fence, TransportAmbiguous, None, c.now), l, TransportAmbiguous);
    }
    if c.CallReleaseProbe? && l.mode == ReadOnlyProbe && Owns(s, l) { ReleaseAndGuard(s, l, Probed(c.found)); }
  }

  /** Exactly one call can leave an acquired operation without a lease: releasing it before the marker. */
  lemma {:induction false} GuardLostOnlyByEarlyRelease(s: Db, c: Call)
    requires Inv(s) && AcquiredGuarded(s) && Genuine(s, c)
    ensures AcquiredGuarded(Step(s, c)) <==> !ReleasesUnmarked(s, c)
  {
    match c
    case CallAcquireInitial(id, asked, now, expiresAt, token) => AcquireKeepsGuard(s, id, asked, now, expiresAt, token);
    case CallAcquireProbe(op, fence, now, expiresAt, token) => AcquireProbeKeepsGuard(s, op, fence, now, expiresAt, token);
    case CallMark(l, p, now) => MarkKeepsGuard(s, l, p, now);
    case CallRecover(t, now) => RecoverKeepsGuard(s, t, now);
    case CallSettleRejection(l, retryable, code, retryAt, now) =>
      if CanReject(s, l, retryable, code, retryAt, now) {
        SettleKeepsGuard(s, l.id, if retryable then RetryableRejection else BlockedRejection, Some(code), retryAt,
                         TrustedRejection, Some(code), Released, now);
      }
    case CallFinish(l, o, now) =>
      if CanFinish(s, l, o) {
        SettleKeepsGuard(s, l.id, o, FinishCode(o), None, FinishEvent(o), Some(OutcomeCode(o)), Released, now);
      }
    case CallReleasePossiblySent(_, _) => ReleasesAndGuard(s, c);
    case CallReleaseProbe(_, _, _) => ReleasesAndGuard(s, c);
    case _ => assert Step(s, c).ops == s.ops && Step(s, c).leases == s.leases;
  }

  const ENQUEUE: Call := CallEnqueue(0, 0)
  const ACQUIRE: Call := CallAcquireInitial(OnHandoff(0), None, 0, 1, 0)
  const RELEASE: Call := CallReleasePossiblySent(Lease(0, 1, 0, 0, Mutate), 0)

  lemma FirstAcquisition()
    ensures var s := Step(EmptyDb(map[]), ENQUEUE);
            Answer(s, ACQUIRE) == Yes && Step(s, ACQUIRE) == Open(s, 0, OnHandoff(0), 0, 1, 0)
            && AcquireInitial(s, OnHandoff(0), None, 0, 1, 0).1 == Granted(RELEASE.lease)
  {
    var s := Enqueue(EmptyDb(map[]), 0, 0);
    assert Recover(s, 0, 0) == s && !TargetBusy(s, 0);
  }

  lemma ReleasedAtOnce()
    ensures var s := Step(Step(EmptyDb(map[]), ENQUEUE), ACQUIRE);
            AcquiredGuarded(s) && Genuine(s, RELEASE) && ReleasesUnmarked(s, RELEASE) && !AcquiredGuarded(Step(s, RELEASE))
  {
    FirstAcquisition();
    var s := Step(Step(EmptyDb(map[]), ENQUEUE), ACQUIRE);
    assert s.ops[0].status == Acquired && s.ops[0].lease == 0 && s.leases[0].status == Active && s.leases[0].op == 0;
    assert Step(s, RELEASE).ops[0].status == Acquired && Step(s, RELEASE).leases[0].status == Released;
  }

  lemma RunSnoc(s: Db, calls: seq<Call>, n: nat)
    requires n < |calls|
    ensures Run(s, calls[..n + 1]) == Step(Run(s, calls[..n]), calls[n])
  {
    assert calls[..n + 1][..n] == calls[..n];
  }

  /** Such a call is reachable: a handoff is enqueued and acquired, and its lease is released at once. */
  lemma EarlyReleaseRunExists()
    ensures var s := Run(EmptyDb(map[]), [ENQUEUE, ACQUIRE]);
            && AcquireInitial(Run(EmptyDb(map[]), [ENQUEUE]), OnHandoff(0), None, 0, 1, 0).1 == Granted(RELEASE.lease)
            && AcquiredGuarded(s) && Genuine(s, RELEASE) && ReleasesUnmarked(s, RELEASE)
            && !AcquiredGuarded(Run(EmptyDb(map[]), [ENQUEUE, ACQUIRE, RELEASE]))
  {
    var calls := [ENQUEUE, ACQUIRE, RELEASE];
    assert calls[..0] == [] && calls[..1] == [ENQUEUE] && calls[..2] == [ENQUEUE, ACQUIRE] && calls[..3] == calls;
    RunSnoc(EmptyDb(map[]), calls, 0);
    RunSnoc(EmptyDb(map[]), calls, 1);
    RunSnoc(EmptyDb(map[]), calls, 2);
    FirstAcquisition();
    ReleasedAtOnce();
  }

  /** An acquired operation that no lease guards any more. */
  ghost predicate Orphaned(s: Db, i: nat) {
    && i < |s.ops| && s.ops[i].status == Acquired
    && forall k | 0 <= k < |s.leases| && s.leases[k].op == i :: s.leases[k].status != Active
  }

  lemma SettleKeepsOrphan(s: Db, id: nat, o: Outcome, code: Option<Code>, retryAt: Option<int>,
                          kind: EventKind, eventCode: Option<Code>, closed: LeaseStatus, now: int, i: nat)
    requires Orphaned(s, i) && id < |s.leases| && s.leases[id].op < |s.ops| && s.leases[id].status == Active && closed != Active
    ensures Orphaned(Settle(s, id, o, code, retryAt, kind, eventCode, closed, now), i)
  {
  }

  lemma RecoverKeepsOrphan(s: Db, target: nat, now: int, i: nat)
    requires Orphaned(s, i)
    ensures Orphaned(Recover(s, target, now), i) && Recover(s, target, now).ops[i] == s.ops[i]
  {
    var r := FirstExpired(s, target, now, 0);
    if r.Some? {
      SettleKeepsOrphan(s, r.value, AbandonedPreMarker, Some(OutcomeCode(AbandonedPreMarker)), None,
                        LeaseExpiredPreMarker, Some(OutcomeCode(AbandonedPreMarker)), Expired, now, i);
    }
  }

  lemma ProbeKeepsOrphan(s: Db, op: nat, fence: nat, now: int, expiresAt: int, token: nat, i: nat)
    requires Orphaned(s, i)
    ensures Orphaned(AcquireProbe(s, op, fence, now, expiresAt, token).0, i)
  {
  }

  lemma AcquireKeepsOrphan(s: Db, id: SubjectId, asked: Option<nat>, now: int, expiresAt: int, token: nat, i: nat)
    requires Orphaned(s, i)
    ensures Orphaned(AcquireInitial(s, id, asked, now, expiresAt, token).0, i)
  {
    var b := BoundTarget(s, id);
    if b.Some? { RecoverKeepsOrphan(s, b.value, now, i); }
  }

  lemma MarkKeepsOrphan(s: Db, l: Lease, p: DispatchProof, now: int, i: nat)
    requires Inv(s) && Orphaned(s, i)
    ensures Orphaned(MarkPossiblySent(s, l, p, now).0, i)
  {
    if MarkEvidence(s, l, p, now) { RecoverKeepsOrphan(s, s.ops[l.op].target, now, i); }
  }

  lemma EvidenceKeepsOrphan(s: Db, c: Call, i: nat)
    requires Orphaned(s, i)
    requires c.CallEnqueue? || c.CallEnsureBootstrap? || c.CallRetryBlocked? || c.CallRecordPreflight?
             || c.CallReleasePossiblySent? || c.CallRecordProbe? || c.CallReleaseProbe?
    ensures Orphaned(Step(s, c), i)
  {
    var t := Step(s, c);
    assert t.ops == s.ops;
    assert t.leases == s.leases || (c.lease.id < |s.leases| && t.leases == s.leases[c.lease.id := t.leases[c.lease.id]]);
  }

  lemma StepKeepsOrphan(s: Db, c: Call, i: nat)
    requires Inv(s) && Orphaned(s, i)
    ensures Orphaned(Step(s, c), i)
  {
    match c
    case CallAcquireInitial(id, asked, now, expiresAt, token) => AcquireKeepsOrphan(s, id, asked, now, expiresAt, token, i);
    case CallAcquireProbe(op, fence, now, expiresAt, token) => ProbeKeepsOrphan(s, op, fence, now, expiresAt, token, i);
    case CallMark(l, p, now) => MarkKeepsOrphan(s, l, p, now, i);
    case CallRecover(t, now) => RecoverKeepsOrphan(s, t, now, i);
    case CallSettleRejection(l, retryable, code, retryAt, now) =>
      if CanReject(s, l, retryable, code, retryAt, now) {
        SettleKeepsOrphan(s, l.id, if retryable then RetryableRejection else BlockedRejection, Some(code), retryAt,
                          TrustedRejection, Some(code), Released, now, i);
      }
    case CallFinish(l, o, now) =>
      if CanFinish(s, l, o) {
        SettleKeepsOrphan(s, l.id, o, FinishCode(o), None, FinishEvent(o), Some(OutcomeCode(o)), Released, now, i);
      }
    case _ => EvidenceKeepsOrphan(s, c, i);
  }

  lemma EarlyReleaseOrphans(s: Db, c: Call)
    requires Inv(s) && ReleasesUnmarked(s, c)
    ensures Orphaned(Step(s, c), c.lease.op)
  {
    var l := c.lease;
    forall k | 0 <= k < |s.leases| && k != l.id && s.leases[k].op == l.op ensures s.leases[k].status != Active {
      assert LeaseOk(s, k) && LeaseOk(s, l.id);
    }
  }

  lemma SnocKeepsOrphan(s: Db, calls: seq<Call>, n: nat, i: nat)
    requires Inv(s) && n < |calls| && Orphaned(Run(s, calls[..n]), i)
    ensures Orphaned(Run(s, calls[..n + 1]), i)
  {
    RunKeepsInv(s, calls[..n]);
    StepKeepsOrphan(Run(s, calls[..n]), calls[n], i);
    RunSnoc(s, calls, n);
  }

  lemma {:induction false} OrphanStays(s: Db, calls: seq<Call>, m: nat, n: nat, i: nat)
    requires Inv(s) && m <= n <= |calls| && Orphaned(Run(s, calls[..m]), i)
    ensures Orphaned(Run(s, calls[..n]), i)
    decreases n - m
  {
    if m < n {
      OrphanStays(s, calls, m, n - 1, i);
      SnocKeepsOrphan(s, calls, n - 1, i);
    }
  }

  /** What the early release costs: no later run frees the target, so nothing is acquired on it ever again. */
  lemma {:induction false} OrphanHoldsItsTarget(s: Db, calls: seq<Call>, i: nat)
    requires Inv(s) && Orphaned(s, i)
    ensures var t := Run(s, calls);
            && Orphaned(t, i) && TargetBusy(t, s.ops[i].target)
            && forall id, asked, now, expiresAt, token | BoundTarget(t, id) == Some(s.ops[i].target) ::
                 !AcquireInitial(t, id, asked, now, expiresAt, token).1.Granted?
  {
    var t := Run(s, calls);
    assert calls[..0] == [] && Run(s, calls[..0]) == s && calls[..|calls|] == calls;
    OrphanStays(s, calls, 0, |calls|, i);
    RunKeepsInv(s, calls);
    RunEvolves(s, calls);
    assert OperationEvolves(s.ops[i], t.ops[i]) && OperationOk(t.ops[i]);
    assert Unfinished(t, i);
    forall id, asked, now, expiresAt, token | BoundTarget(t, id) == Some(s.ops[i].target)
      ensures !AcquireInitial(t, id, asked, now, expiresAt, token).1.Granted?
    {
      RecoverKeepsOrphan(t, s.ops[i].target, now, i);
      assert Unfinished(Recover(t, s.ops[i].target, now), i);
    }
  }

  // ---------------------------------------------------------------- over runs

  ghost predicate GenuineRun(s: Db, calls: seq<Call>) {
    forall n | 0 <= n < |calls| :: Genuine(Run(s, calls[..n]), calls[n])
  }

  ghost predicate ReleasedEarly(s: Db, calls: seq<Call>, n: nat)
    requires n < |calls|
  {
    ReleasesUnmarked(Run(s, calls[..n]), calls[n])
  }

  lemma {:induction false} EarlyReleaseLasts(s: Db, calls: seq<Call>, n: nat)
    requires Inv(s) && n < |calls| && ReleasedEarly(s, calls, n)
    ensures !AcquiredGuarded(Run(s, calls))
  {
    var i := calls[n].lease.op;
    RunKeepsInv(s, calls[..n]);
    EarlyReleaseOrphans(Run(s, calls[..n]), calls[n]);
    RunSnoc(s, calls, n);
    assert calls[..|calls|] == calls;
    OrphanStays(s, calls, n + 1, |calls|, i);
    var t := Run(s, calls);
    assert Orphaned(t, i);
  }

  lemma GuardStep(s: Db, calls: seq<Call>, n: nat)
    requires Inv(s) && n < |calls| && AcquiredGuarded(Run(s, calls[..n]))
    requires Genuine(Run(s, calls[..n]), calls[n]) && !ReleasedEarly(s, calls, n)
    ensures AcquiredGuarded(Run(s, calls[..n + 1]))
  {
    RunKeepsInv(s, calls[..n]);
    GuardLostOnlyByEarlyRelease(Run(s, calls[..n]), calls[n]);
    RunSnoc(s, calls, n);
  }

  lemma {:induction false} GuardLasts(s: Db, calls: seq<Call>, n: nat)
    requires Inv(s) && AcquiredGuarded(s) && GenuineRun(s, calls) && n <= |calls|
    requires forall m: nat :: m < |calls| ==> !ReleasedEarly(s, calls, m)
    ensures AcquiredGuarded(Run(s, calls[..n]))
  {
    if n > 0 {
      GuardLasts(s, calls, n - 1);
      assert Genuine(Run(s, calls[..n - 1]), calls[n - 1]);
      GuardStep(s, calls, n - 1);
    }
  }

  /** After a run every acquired operation is guarded if and only if no call of the run was an early release. */
  lemma {:induction false} GuardedIffNoEarlyRelease(oracles: map<nat, nat>, calls: seq<Call>)
    requires GenuineRun(EmptyDb(oracles), calls)
    ensures AcquiredGuarded(Run(EmptyDb(oracles), calls)) <==>
              forall n: nat :: n < |calls| ==> !ReleasedEarly(EmptyDb(oracles), calls, n)
  {
    InitInv(oracles);
    if n: nat :| n < |calls| && ReleasedEarly(EmptyDb(oracles), calls, n) {
      EarlyReleaseLasts(EmptyDb(oracles), calls, n);
    } else {
      GuardLasts(EmptyDb(oracles), calls, |calls|);
      assert calls[..|calls|] == calls;
    }
  }

  ghost predicate Dispatched(s: Db, op: nat) { op < |s.ops| && s.ops[op].dispatchAt.Some? }

  lemma MarkDispatches(s: Db, c: Call)
    requires c.CallMark? && Answer(s, c) == Yes
    ensures Dispatched(Step(s, c), c.lease.op)
  {
  }

  lemma DispatchedReleasesLate(s: Db, l: Lease, at: int)
    requires Inv(s) && Dispatched(s, l.op)
    ensures !ReleasesUnmarked(s, CallReleasePossiblySent(l, at))
  {
    assert OperationOk(s.ops[l.op]);
  }

  /** A call of the run marked this lease's operation as dispatched. */
  ghost predicate MarkedEarlier(s: Db, calls: seq<Call>, n: nat, l: Lease)
    requires n <= |calls|
  {
    exists m: nat :: m < n && calls[m].CallMark? && calls[m].lease == l && Answer(Run(s, calls[..m]), calls[m]) == Yes
  }

  lemma SnocKeepsDispatched(s: Db, calls: seq<Call>, n: nat, op: nat)
    requires Inv(s) && n < |calls| && Dispatched(Run(s, calls[..n]), op)
    ensures Dispatched(Run(s, calls[..n + 1]), op)
  {
    RunKeepsInv(s, calls[..n]);
    StepEvolves(Run(s, calls[..n]), calls[n]);
    RunSnoc(s, calls, n);
    assert OperationEvolves(Run(s, calls[..n]).ops[op], Run(s, calls[..n + 1]).ops[op]);
  }

  lemma {:induction false} StaysDispatched(s: Db, calls: seq<Call>, m: nat, n: nat, op: nat)
    requires Inv(s) && m <= n <= |calls| && Dispatched(Run(s, calls[..m]), op)
    ensures Dispatched(Run(s, calls[..n]), op)
    decreases n - m
  {
    if m < n {
      StaysDispatched(s, calls, m, n - 1, op);
      SnocKeepsDispatched(s, calls, n - 1, op);
    }
  }

  lemma DispatchedSince(s: Db, calls: seq<Call>, m: nat, n: nat, op: nat)
    requires Inv(s) && m < n <= |calls| && calls[m].CallMark? && calls[m].lease.op == op && Answer(Run(s, calls[..m]), calls[m]) == Yes
    ensures Dispatched(Run(s, calls[..n]), op)
  {
    MarkDispatches(Run(s, calls[..m]), calls[m]);
    RunSnoc(s, calls, m);
    StaysDispatched(s, calls, m + 1, n, op);
  }

  lemma LateRelease(s: Db, calls: seq<Call>, n: nat, l: Lease, at: int)
    requires Inv(s) && n <= |calls| && MarkedEarlier(s, calls, n, l)
    ensures !ReleasesUnmarked(Run(s, calls[..n]), CallReleasePossiblySent(l, at))
  {
    var m: nat :| m < n && calls[m].CallMark? && calls[m].lease == l && Answer(Run(s, calls[..m]), calls[m]) == Yes;
    DispatchedSince(s, calls, m, n, l.op);
    RunKeepsInv(s, calls[..n]);
    DispatchedReleasesLate(Run(s, calls[..n]), l, at);
  }

  /** In the drivers release_possibly_sent follows a successful mark of the same lease. */
  ghost predicate ReleasesFollowMarks(s: Db, calls: seq<Call>) {
    forall n | 0 <= n < |calls| && calls[n].CallReleasePossiblySent? :: MarkedEarlier(s, calls, n, calls[n].lease)
  }

  /** So over runs like theirs every acquired operation keeps its lease, and recovery can free its target. */
  lemma DriversKeepGuard(oracles: map<nat, nat>, calls: seq<Call>)
    requires GenuineRun(EmptyDb(oracles), calls) && ReleasesFollowMarks(EmptyDb(oracles), calls)
    ensures AcquiredGuarded(Run(EmptyDb(oracles), calls))
  {
    var s := EmptyDb(oracles);
    InitInv(oracles);
    forall n: nat | n < |calls| ensures !ReleasesUnmarked(Run(s, calls[..n]), calls[n]) {
      if calls[n].CallReleasePossiblySent? { LateRelease(s, calls, n, calls[n].lease, calls[n].now); }
    }
    GuardedIffNoEarlyRelease(oracles, calls);
  }

  /** A guarded acquired operation whose lease has run out is abandoned by recovery, and its target is free. */
  lemma {:induction false} ExpiredAcquiredIsRecovered(s: Db, i: nat, now: int)
    requires Inv(s) && AcquiredGuarded(s)
    requires i < |s.ops| && s.ops[i].status == Acquired && s.leases[s.ops[i].lease].expiresAt <= now
    ensures !TargetBusy(Recover(s, s.ops[i].target, now), s.ops[i].target)
    ensures Recover(s, s.ops[i].target, now).subjects[s.ops[i].subject].status == Retryable
  {
    var o := s.ops[i];
    assert OperationOk(o) && LeaseOk(s, o.lease);
    assert ExpiredPreMarker(s, o.lease, o.target, now);
    var r := FirstExpired(s, o.target, now, 0);
    assert LeaseOk(s, r.value);
    assert s.leases[r.value].op == i;
    OpenSubject(s, i);
  }
}
