/** Who is granted a lease, what the grant does, and that a lease in force is not taken away. */
module HandoffGrants {
  import opened Common
  import opened HandoffModel
  import opened HandoffInvariant
  import opened HandoffTheorems
  import opened HandoffEvidence

  // ---------------------------------------------------------------- acquisition

  /** An operation that was never dispatched, and whose mutation lease k has run out. */
  ghost predicate Lapsed(s: Db, i: nat, k: nat, now: int) {
    && i < |s.ops| && s.ops[i].finishedAt.None? && s.ops[i].dispatchAt.None?
    && k < |s.leases| && s.leases[k].op == i
    && s.leases[k].status == Active && s.leases[k].mode == Mutate && s.leases[k].expiresAt <= now
  }

  /** Nothing is under way on a target, but perhaps an operation that lapsed before its dispatch. */
  ghost predicate FreeBy(s: Db, target: nat, now: int) {
    forall i: nat | i < |s.ops| && s.ops[i].finishedAt.None? && s.ops[i].target == target :: exists k: nat :: Lapsed(s, i, k, now)
  }

  lemma LapsedIsExpired(s: Db, i: nat, k: nat, now: int)
    requires Inv(s) && i < |s.ops|
    ensures Lapsed(s, i, k, now) <==> ExpiredPreMarker(s, k, s.ops[i].target, now) && s.leases[k].op == i
  {
    if k < |s.leases| { assert LeaseOk(s, k); }
    assert OperationOk(s.ops[i]);
  }

  /** Recovery frees a target exactly when nothing but a lapsed operation is under way on it. */
  lemma RecoveryFreesExactly(s: Db, target: nat, now: int)
    requires Inv(s)
    ensures !TargetBusy(Recover(s, target, now), target) <==> FreeBy(s, target, now)
  {
    var r := FirstExpired(s, target, now, 0);
    if r.Some? {
      var op := s.leases[r.value].op;
      LapsedIsExpired(s, op, r.value, now);
      var t := Recover(s, target, now);
      assert t.ops[op].finishedAt.Some?;
      forall i: nat | i < |s.ops| && i != op ensures t.ops[i] == s.ops[i] && (s.ops[i].finishedAt.None? ==> s.ops[i].target != target) {
        assert i < op || op < i;
      }
    } else {
      forall i: nat, k: nat | i < |s.ops| && s.ops[i].target == target ensures !Lapsed(s, i, k, now) { LapsedIsExpired(s, i, k, now); }
      if TargetBusy(s, target) {
        var i :| 0 <= i < |s.ops| && Unfinished(s, i) && s.ops[i].target == target;
        assert !FreeBy(s, target, now);
      }
    }
  }

  /** May a new operation of this subject start: it is fresh, due for its retry, or its last attempt lapsed. */
  ghost predicate MayStart(s: Db, id: SubjectId, now: int) {
    && id in s.subjects
    && var sub := s.subjects[id];
    sub.status == Fresh || sub.status == Working || (sub.status == Retryable && sub.retryAt.Some? && sub.retryAt.value <= now)
  }

  /** Recovery makes the subject of the lapsed operation due at once, and leaves the others alone. */
  lemma RecoveryMovesOne(s: Db, k: nat, target: nat, now: int)
    requires Inv(s) && FirstExpired(s, target, now, 0) == Some(k)
    ensures s.leases[k].op < |s.ops| && s.ops[s.leases[k].op].subject in s.subjects
    ensures var t, own := Recover(s, target, now), s.ops[s.leases[k].op].subject;
            && s.subjects[own].status == Working && s.ops[s.leases[k].op].target == target
            && own in t.subjects && t.subjects[own].status == Retryable && t.subjects[own].retryAt == Some(now)
            && (forall x | x != own :: (x in t.subjects <==> x in s.subjects) && (x in s.subjects ==> t.subjects[x] == s.subjects[x]))
  {
    assert LeaseOk(s, k);
    OpenSubject(s, s.leases[k].op);
    assert OperationOk(s.ops[s.leases[k].op]);
  }

  /** The operation of a working subject is the one that recovery finds. */
  lemma WorkingIsLapsed(s: Db, target: nat, id: SubjectId, now: int)
    requires Inv(s) && FreeBy(s, target, now) && BoundTarget(s, id) == Some(target)
    requires id in s.subjects && s.subjects[id].status == Working
    ensures var r := FirstExpired(s, target, now, 0);
            r.Some? && s.leases[r.value].op < |s.ops| && s.ops[s.leases[r.value].op].subject == id
  {
    var i :| 0 <= i < |s.ops| && s.ops[i].subject == id && s.ops[i].status == Acquired;
    assert OperationOk(s.ops[i]) && Bound(s, s.ops[i]);
    var k: nat :| Lapsed(s, i, k, now);
    LapsedIsExpired(s, i, k, now);
    var r := FirstExpired(s, target, now, 0);
    assert LeaseOk(s, r.value);
    var op := s.leases[r.value].op;
    assert op < i || i < op || op == i;
  }

  lemma RecoveredSubject(s: Db, target: nat, id: SubjectId, now: int)
    requires Inv(s) && FreeBy(s, target, now) && BoundTarget(s, id) == Some(target)
    ensures Startable(Recover(s, target, now), id, now) <==> MayStart(s, id, now)
  {
    var r := FirstExpired(s, target, now, 0);
    if id in s.subjects && s.subjects[id].status == Working { WorkingIsLapsed(s, target, id, now); }
    if r.Some? { RecoveryMovesOne(s, r.value, target, now); }
  }

  /**
    An acquisition is granted exactly when the subject is bound to the asked target, may start, and nothing but a
    lapsed operation is under way there.
   */
  lemma {:induction false} AcquisitionGrantedExactly(s: Db, id: SubjectId, asked: Option<nat>, now: int, expiresAt: int, token: nat)
    requires Inv(s)
    ensures Answer(s, CallAcquireInitial(id, asked, now, expiresAt, token)) == Yes <==>
              && BoundTarget(s, id).Some? && (asked.Some? ==> asked == BoundTarget(s, id))
              && MayStart(s, id, now) && FreeBy(s, BoundTarget(s, id).value, now)
  {
    if BoundTarget(s, id).Some? {
      RecoveryFreesExactly(s, BoundTarget(s, id).value, now);
      if FreeBy(s, BoundTarget(s, id).value, now) { RecoveredSubject(s, BoundTarget(s, id).value, id, now); }
    }
  }

  /** What a granted acquisition opens: an operation under its first fence, with a mutation lease of the given term. */
  lemma {:induction false} AcquisitionOpens(s: Db, id: SubjectId, asked: Option<nat>, now: int, expiresAt: int, token: nat)
    requires Inv(s) && Answer(s, CallAcquireInitial(id, asked, now, expiresAt, token)) == Yes
    ensures var (t, g) := AcquireInitial(s, id, asked, now, expiresAt, token);
            && g.Granted? && Owns(t, g.lease) && g.lease.mode == Mutate && g.lease.op == |s.ops| && |t.ops| == |s.ops| + 1
            && var o, l := t.ops[g.lease.op], t.leases[g.lease.id];
            && Some(o.target) == BoundTarget(s, id) && o.subject == id && o.dispatchAt.None? && o.finishedAt.None?
            && l.mode == Mutate && l.acquiredAt == now && l.expiresAt == expiresAt && l.token == token
            && id in t.subjects && t.subjects[id] == Subject(Working, None, None, None)
  {
    var b := BoundTarget(s, id).value;
    RecoverTrace(s, b, now);
  }

  /** Ordinals count up on a target. */
  lemma {:induction false} OrdinalsGrow(s: Db, id: SubjectId, asked: Option<nat>, now: int, expiresAt: int, token: nat, i: nat)
    requires Inv(s) && AcquireInitial(s, id, asked, now, expiresAt, token).1.Granted?
    requires i < |s.ops| && Some(s.ops[i].target) == BoundTarget(s, id)
    ensures var t := AcquireInitial(s, id, asked, now, expiresAt, token).0;
            |t.ops| == |s.ops| + 1 && t.ops[i].ordinal == s.ops[i].ordinal < t.ops[|s.ops|].ordinal
  {
    var b := BoundTarget(s, id).value;
    var s1 := Recover(s, b, now);
    RecoverKeepsOrdinals(s, b, now);
    OpenCountsUp(s1, b, id, now, expiresAt, token, i);
  }

  lemma OpenCountsUp(s: Db, target: nat, id: SubjectId, now: int, expiresAt: int, token: nat, i: nat)
    requires id in s.subjects && i < |s.ops| && s.ops[i].target == target
    ensures var t := Open(s, target, id, now, expiresAt, token);
            |t.ops| == |s.ops| + 1 && t.ops[i].ordinal == s.ops[i].ordinal < t.ops[|s.ops|].ordinal
  {
    MaxOrdinalBounds(s.ops, target);
  }

  lemma RecoverKeepsOrdinals(s: Db, target: nat, now: int)
    ensures var t := Recover(s, target, now);
            |t.ops| == |s.ops| && forall i | 0 <= i < |s.ops| :: t.ops[i].ordinal == s.ops[i].ordinal && t.ops[i].target == s.ops[i].target
  {
  }

  lemma {:induction false} MaxOrdinalBounds(ops: seq<Operation>, target: nat)
    ensures forall i | 0 <= i < |ops| && ops[i].target == target :: ops[i].ordinal <= MaxOrdinal(ops, target)
  {
    if ops != [] {
      MaxOrdinalBounds(ops[..|ops| - 1], target);
      forall i | 0 <= i < |ops| - 1 ensures ops[i] == ops[..|ops| - 1][i] {}
    }
  }

  // ---------------------------------------------------------------- sightings, probes, reopening

  /** A sighting is recorded by the mutation lease of an undispatched operation, while it runs, and but one of the kinds that decide. */
  lemma {:induction false} SightingGrantedExactly(s: Db, l: Lease, what: Finding, now: int)
    requires Inv(s)
    ensures Answer(s, CallRecordPreflight(l, what, now)) == Yes <==>
              && l.mode == Mutate && Owns(s, l) && l.op < |s.ops| && s.ops[l.op].dispatchAt.None?
              && s.leases[l.id].acquiredAt <= now < s.leases[l.id].expiresAt
              && !Seen(s, l.op, l.fence, Exact) && !Seen(s, l.op, l.fence, Absent) && !Seen(s, l.op, l.fence, Conflict)
    ensures Answer(s, CallRecordPreflight(l, what, now)) == Yes ==>
              RecordPreflight(s, l, what, now) == s.(events := s.events + [Event(l.op, l.fence, Preflight(what), None, now)])
  {
    if Owns(s, l) {
      OwnedLeaseIsTheFence(s, l, l);
      assert OperationOk(s.ops[l.op]);
      forall x ensures HasEvent(s, l.op, l.fence, Preflight(x)) <==> Seen(s, l.op, l.fence, x) {}
    }
  }

  /** A probe lease is granted on a dispatched, unsettled operation under its newest fence, unless a lease of it still runs. */
  lemma {:induction false} ProbeGrantedExactly(s: Db, op: nat, fence: nat, now: int, expiresAt: int, token: nat)
    requires Inv(s)
    ensures Answer(s, CallAcquireProbe(op, fence, now, expiresAt, token)) == Yes <==>
              && op < |s.ops| && s.ops[op].dispatchAt.Some? && s.ops[op].finishedAt.None? && s.ops[op].fence == fence
              && forall k | 0 <= k < |s.leases| && s.leases[k].op == op && s.leases[k].status == Active :: s.leases[k].expiresAt <= now
  {
    if op < |s.ops| {
      assert OperationOk(s.ops[op]);
      var active := FirstActive(s.leases, op, 0);
      if active.Some? {
        assert LeaseOk(s, active.value);
        forall k | 0 <= k < |s.leases| && s.leases[k].op == op && s.leases[k].status == Active ensures k == active.value {
          assert LeaseOk(s, k);
        }
      }
    }
  }

  /** What a granted probe lease is: the next fence, read only, and the only active lease. */
  lemma {:induction false} ProbeOpens(s: Db, op: nat, fence: nat, now: int, expiresAt: int, token: nat)
    requires Inv(s) && Answer(s, CallAcquireProbe(op, fence, now, expiresAt, token)) == Yes
    ensures var (t, g) := AcquireProbe(s, op, fence, now, expiresAt, token);
            && g.Granted? && Owns(t, g.lease) && g.lease.op == op && g.lease.fence == fence + 1 && g.lease.mode == ReadOnlyProbe
            && t.ops[op].fence == fence + 1 && t.ops[op] == s.ops[op].(fence := fence + 1, lease := g.lease.id)
            && t.leases[g.lease.id] == LeaseRow(op, fence + 1, token, ReadOnlyProbe, now, expiresAt, Active, None)
            && t.subjects == s.subjects && t.probes == s.probes
  {
  }

  /** Every finding of a lease holder is recorded as found. */
  lemma {:induction false} FindingIsRecorded(s: Db, l: Lease, what: Finding, matching: nat, now: int)
    requires Inv(s)
    ensures Answer(s, CallRecordProbe(l, what, matching, now)) == Yes <==> Owns(s, l)
    ensures Owns(s, l) ==> Found(RecordProbe(s, l, what, matching, now), l.op, l.fence, what)
                           && Owns(RecordProbe(s, l, what, matching, now), l)
                           && RecordProbe(s, l, what, matching, now).ops == s.ops
  {
    if Owns(s, l) {
      var t := RecordProbe(s, l, what, matching, now);
      assert t.probes[|s.probes|] == Probe(l.op, l.fence, what, matching);
    }
  }

  /** The operator reopens what was rejected for good or met another schema, if the fault is one that can be corrected. */
  lemma {:induction false} ReopenedExactly(s: Db, op: nat, now: int)
    requires Inv(s)
    ensures Answer(s, CallRetryBlocked(op, now)) == Yes <==>
              && op < |s.ops| && s.ops[op].outcome.Some? && s.ops[op].outcome.value in {BlockedRejection, SchemaConflict}
              && (forall i | 0 <= i < |s.ops| && s.ops[i].target == s.ops[op].target :: s.ops[i].finishedAt.Some?)
              && s.subjects[s.ops[op].subject].status == Blocked
              && s.subjects[s.ops[op].subject].code.Some?
              && s.subjects[s.ops[op].subject].code.value in {TemplateDrift, MetadataConflict, NotFound, InvalidRequest,
                   Unauthenticated, PermissionDenied, OutcomeCode(SchemaConflict)}
    ensures Answer(s, CallRetryBlocked(op, now)) == Yes ==>
              var t := Step(s, CallRetryBlocked(op, now));
              var id := s.ops[op].subject;
              t.subjects[id].status == Retryable && t.subjects[id].retryAt == Some(now)
              && t.ops == s.ops && t.leases == s.leases && t.bindings == s.bindings
  {
    if op < |s.ops| {
      assert OperationOk(s.ops[op]) && Bound(s, s.ops[op]);
      if TargetBusy(s, s.ops[op].target) {
        var i :| 0 <= i < |s.ops| && Unfinished(s, i) && s.ops[i].target == s.ops[op].target;
      } else {
        forall i | 0 <= i < |s.ops| && s.ops[i].target == s.ops[op].target ensures s.ops[i].finishedAt.Some? {
          assert !Unfinished(s, i);
        }
      }
    }
  }

  /** What was reopened can be acquired again, from that moment on. */
  lemma {:induction false} ReopenedCanBeAcquired(s: Db, op: nat, now: int, later: int, expiresAt: int, token: nat)
    requires Inv(s) && Answer(s, CallRetryBlocked(op, now)) == Yes && now <= later
    ensures Answer(Step(s, CallRetryBlocked(op, now)), CallAcquireInitial(s.ops[op].subject, None, later, expiresAt, token)) == Yes
  {
    var t := Step(s, CallRetryBlocked(op, now));
    ReopenedExactly(s, op, now);
    StepKeepsInv(s, CallRetryBlocked(op, now));
    assert Bound(s, s.ops[op]);
    AcquisitionGrantedExactly(t, s.ops[op].subject, None, later, expiresAt, token);
  }

  /** An enqueued handoff is fresh and bound; a subject is enqueued once. */
  lemma EnqueuedCanStart(s: Db, h: nat, target: nat, now: int)
    requires OnHandoff(h) !in s.subjects
    ensures var t := Step(s, CallEnqueue(h, target));
            MayStart(t, OnHandoff(h), now) && BoundTarget(t, OnHandoff(h)) == Some(target) && t.ops == s.ops && t.leases == s.leases
  {
  }

  lemma BootstrapCanStart(s: Db, target: nat, fingerprint: nat, now: int)
    requires OnTarget(target) !in s.subjects
    ensures var t := Step(s, CallEnsureBootstrap(target, fingerprint));
            MayStart(t, OnTarget(target), now) && target in t.controls && t.controls[target] == fingerprint
            && t.ops == s.ops && t.leases == s.leases
  {
  }

  /** An ambiguous operation whose lease was given up stays ambiguous, and can be probed at once. */
  lemma {:induction false} ReleasedCanBeProbed(s: Db, c: Call, later: int, expiresAt: int, token: nat)
    requires Inv(s) && (c.CallReleasePossiblySent? || c.CallReleaseProbe?) && Answer(s, c) == Yes
    requires c.lease.op < |s.ops| && s.ops[c.lease.op].dispatchAt.Some?
    ensures var t := Step(s, c);
            t.ops == s.ops && t.subjects == s.subjects && !Owns(t, c.lease)
            && Answer(t, CallAcquireProbe(c.lease.op, c.lease.fence, later, expiresAt, token)) == Yes
  {
    var l, t := c.lease, Step(s, c);
    OwnedLeaseIsTheFence(s, l, l);
    StepKeepsInv(s, c);
    forall k | 0 <= k < |t.leases| && t.leases[k].op == l.op ensures t.leases[k].status != Active {
      if k != l.id { assert LeaseOk(s, k); }
    }
    ProbeGrantedExactly(t, l.op, l.fence, later, expiresAt, token);
  }

  /** Giving a lease up: the mutation lease at any time, the probe lease with the finding it recorded. */
  lemma ReleaseGrantedExactly(s: Db, l: Lease, what: Finding, now: int)
    ensures Answer(s, CallReleasePossiblySent(l, now)) == Yes <==> l.mode == Mutate && Owns(s, l)
    ensures Answer(s, CallReleaseProbe(l, what, now)) == Yes <==>
              && l.mode == ReadOnlyProbe && Owns(s, l)
              && exists j :: 0 <= j < |s.events| && s.events[j].op == l.op && s.events[j].fence == l.fence && s.events[j].kind == Probed(what)
  {
  }

  // ---------------------------------------------------------------- a delivery from end to end

  /** Events are of operations that exist. */
  ghost predicate EventsKnown(s: Db) { forall j | 0 <= j < |s.events| :: s.events[j].op < |s.ops| }

  lemma NothingSeenYet(s: Db, id: SubjectId, now: int, expiresAt: int, token: nat)
    requires Inv(s) && EventsKnown(s) && Answer(s, CallAcquireInitial(id, None, now, expiresAt, token)) == Yes
    ensures var (t, g) := AcquireInitial(s, id, None, now, expiresAt, token);
            g.Granted? && forall what :: !Seen(t, g.lease.op, g.lease.fence, what)
  {
    var b := BoundTarget(s, id).value;
    var s1 := Recover(s, b, now);
    RecoverKnows(s, b, now);
    var (t, g) := AcquireInitial(s, id, None, now, expiresAt, token);
    assert t.events == s1.events + [Event(|s1.ops|, 1, LeaseAcquired, None, now)];
  }

  lemma RecoverKnows(s: Db, target: nat, now: int)
    requires Inv(s) && EventsKnown(s)
    ensures EventsKnown(Recover(s, target, now)) && |Recover(s, target, now).ops| == |s.ops|
  {
  }

  lemma AcquireKnows(s: Db, c: Call)
    requires Inv(s) && EventsKnown(s) && c.CallAcquireInitial?
    ensures EventsKnown(Step(s, c))
  {
    if BoundTarget(s, c.id).Some? { RecoverKnows(s, BoundTarget(s, c.id).value, c.now); }
  }

  lemma MarkKnows(s: Db, c: Call)
    requires Inv(s) && EventsKnown(s) && c.CallMark?
    ensures EventsKnown(Step(s, c))
  {
    if c.lease.op < |s.ops| { RecoverKnows(s, s.ops[c.lease.op].target, c.now); }
  }

  lemma OthersKnow(s: Db, c: Call)
    requires Inv(s) && EventsKnown(s) && !(c.CallAcquireInitial? || c.CallMark? || c.CallRecover?)
    ensures EventsKnown(Step(s, c))
  {
    if c.CallFinish? || c.CallSettleRejection? { SettlementKnows(s, c); }
    else if PresentedLease(c).Some? { EvidenceKnows(s, c); }
  }

  lemma SettlementKnows(s: Db, c: Call)
    requires Inv(s) && EventsKnown(s) && (c.CallFinish? || c.CallSettleRejection?)
    ensures EventsKnown(Step(s, c))
  {
    if Owns(s, c.lease) { OwnedLeaseIsTheFence(s, c.lease, c.lease); }
  }

  lemma EvidenceKnows(s: Db, c: Call)
    requires Inv(s) && EventsKnown(s) && PresentedLease(c).Some? && !(c.CallMark? || c.CallFinish? || c.CallSettleRejection?)
    ensures EventsKnown(Step(s, c))
  {
    if Owns(s, PresentedLease(c).value) { OwnedLeaseIsTheFence(s, PresentedLease(c).value, PresentedLease(c).value); }
  }

  lemma {:induction false} RunKnows(oracles: map<nat, nat>, calls: seq<Call>)
    ensures EventsKnown(Run(EmptyDb(oracles), calls)) && Inv(Run(EmptyDb(oracles), calls))
    decreases |calls|
  {
    InitInv(oracles);
    RunKeepsInv(EmptyDb(oracles), calls);
    if calls != [] {
      var n := |calls| - 1;
      RunKnows(oracles, calls[..n]);
      var s, c := Run(EmptyDb(oracles), calls[..n]), calls[n];
      if c.CallAcquireInitial? { AcquireKnows(s, c); }
      else if c.CallMark? { MarkKnows(s, c); }
      else if c.CallRecover? { RecoverKnows(s, c.target, c.now); }
      else { OthersKnow(s, c); }
    }
  }

  /** The operation of the delivery, held by its mutation lease and not dispatched yet, on a target in order. */
  ghost predicate Held(s: Db, l: Lease, id: SubjectId, p: DispatchProof, now: int, expiresAt: int) {
    && Inv(s) && Owns(s, l) && l.mode == Mutate && l.op < |s.ops| && s.ops[l.op].subject == id && s.ops[l.op].dispatchAt.None?
    && s.leases[l.id].acquiredAt == now && s.leases[l.id].expiresAt == expiresAt
    && TargetReady(s, s.ops[l.op].target, id, p)
  }

  ghost predicate Unseen(s: Db, l: Lease) { forall what :: !Seen(s, l.op, l.fence, what) }

  ghost predicate JustSeen(s: Db, l: Lease, seenAt: int) {
    |s.events| > 0 && NewestAbsent(s, l, |s.events| - 1) && s.events[|s.events| - 1].at == seenAt
  }

  ghost predicate Out(s: Db, l: Lease, id: SubjectId) {
    Inv(s) && Owns(s, l) && l.op < |s.ops| && s.ops[l.op].subject == id && s.ops[l.op].dispatchAt.Some?
  }

  lemma SeenStage(s: Db, t: Db, l: Lease, id: SubjectId, p: DispatchProof, now: int, expiresAt: int, seenAt: int)
    requires Held(s, l, id, p, now, expiresAt) && Unseen(s, l) && now <= seenAt < expiresAt
    requires t == RecordPreflight(s, l, Absent, seenAt)
    ensures Held(t, l, id, p, now, expiresAt) && JustSeen(t, l, seenAt)
  {
    SightingGrantedExactly(s, l, Absent, seenAt);
    EventsKeepInv(s, Event(l.op, l.fence, Preflight(Absent), None, seenAt), s.probes);
  }

  lemma SentStage(s: Db, t: Db, l: Lease, id: SubjectId, p: DispatchProof, now: int, expiresAt: int, seenAt: int, sentAt: int)
    requires Held(s, l, id, p, now, expiresAt) && JustSeen(s, l, seenAt) && now <= seenAt <= sentAt < expiresAt
    requires p.requestOk && p.scopeOk && p.refreshedAt <= sentAt && sentAt + 255_000_000 <= p.credentialExpiresAt
    requires t == MarkPossiblySent(s, l, p, sentAt).0
    ensures Out(t, l, id)
  {
    MarkGrantedExactly(s, l, p, sentAt);
    MarkRecords(s, l, p, sentAt);
    MarkCallKeepsInv(s, l, p, sentAt);
  }

  lemma FoundStage(s: Db, t: Db, l: Lease, id: SubjectId, foundAt: int)
    requires Out(s, l, id) && t == RecordProbe(s, l, Exact, 1, foundAt)
    ensures Out(t, l, id) && Found(t, l.op, l.fence, Exact)
  {
    FindingIsRecorded(s, l, Exact, 1, foundAt);
    EvidenceKeepsInv(s, l, Exact, 1, foundAt);
  }

  lemma AcquiredStage(s: Db, id: SubjectId, p: DispatchProof, token: nat, now: int, expiresAt: int)
    requires Inv(s) && EventsKnown(s) && id.OnHandoff? && BoundTarget(s, id).Some?
    requires MayStart(s, id, now) && FreeBy(s, BoundTarget(s, id).value, now) && TargetReady(s, BoundTarget(s, id).value, id, p)
    ensures var (t, g) := AcquireInitial(s, id, None, now, expiresAt, token);
            g.Granted? && g.lease.token == token && Held(t, g.lease, id, p, now, expiresAt) && Unseen(t, g.lease)
  {
    AcquisitionGrantedExactly(s, id, None, now, expiresAt, token);
    AcquisitionOpens(s, id, None, now, expiresAt, token);
    AcquireKeepsInv(s, id, None, now, expiresAt, token);
    NothingSeenYet(s, id, now, expiresAt, token);
    TargetStaysReady(s, id, now, expiresAt, token, p);
  }

  lemma TargetStaysReady(s: Db, id: SubjectId, now: int, expiresAt: int, token: nat, p: DispatchProof)
    requires Inv(s) && id.OnHandoff? && BoundTarget(s, id).Some? && TargetReady(s, BoundTarget(s, id).value, id, p)
    ensures TargetReady(AcquireInitial(s, id, None, now, expiresAt, token).0, BoundTarget(s, id).value, id, p)
  {
    var b := BoundTarget(s, id).value;
    var r := FirstExpired(s, b, now, 0);
    if r.Some? { RecoveryMovesOne(s, r.value, b, now); }
  }

  lemma DoneStage(s: Db, t: Db, l: Lease, id: SubjectId, doneAt: int)
    requires Out(s, l, id) && Found(s, l.op, l.fence, Exact) && t == Finish(s, l, WasApplied, doneAt)
    ensures id in t.subjects && t.subjects[id] == Subject(Done, None, None, Some(doneAt))
  {
    FoundExactlyIsDelivered(s, l, doneAt);
  }

  /**
    After every run: a handoff that may start on a free target, whose bootstrap is done, is delivered by the driver's
    five calls, if they come within the lease and the row is found absent before and exact after the dispatch.
   */
  lemma {:induction false} UndisturbedDeliveryDelivers(oracles: map<nat, nat>, calls: seq<Call>, h: nat, p: DispatchProof, token: nat,
                                                       now: int, expiresAt: int, seenAt: int, sentAt: int, foundAt: int, doneAt: int)
    requires var s, id := Run(EmptyDb(oracles), calls), OnHandoff(h);
             && BoundTarget(s, id).Some? && MayStart(s, id, now) && FreeBy(s, BoundTarget(s, id).value, now)
             && TargetReady(s, BoundTarget(s, id).value, id, p)
    requires now <= seenAt <= sentAt < expiresAt
    requires p.requestOk && p.scopeOk && p.refreshedAt <= sentAt && sentAt + 255_000_000 <= p.credentialExpiresAt
    ensures var (s1, g) := AcquireInitial(Run(EmptyDb(oracles), calls), OnHandoff(h), None, now, expiresAt, token);
            && g.Granted? && g.lease.token == token
            && var s2 := RecordPreflight(s1, g.lease, Absent, seenAt);
            var s3 := MarkPossiblySent(s2, g.lease, p, sentAt).0;
            var s4 := RecordProbe(s3, g.lease, Exact, 1, foundAt);
            var t := Finish(s4, g.lease, WasApplied, doneAt);
            OnHandoff(h) in t.subjects && t.subjects[OnHandoff(h)] == Subject(Done, None, None, Some(doneAt))
  {
    var s, id := Run(EmptyDb(oracles), calls), OnHandoff(h);
    RunKnows(oracles, calls);
    AcquiredStage(s, id, p, token, now, expiresAt);
    var (s1, g) := AcquireInitial(s, id, None, now, expiresAt, token);
    StagesDeliver(s1, g.lease, id, p, now, expiresAt, seenAt, sentAt, foundAt, doneAt);
  }

  lemma StagesDeliver(s1: Db, l: Lease, id: SubjectId, p: DispatchProof, now: int, expiresAt: int, seenAt: int, sentAt: int,
                      foundAt: int, doneAt: int)
    requires Held(s1, l, id, p, now, expiresAt) && Unseen(s1, l) && now <= seenAt <= sentAt < expiresAt
    requires p.requestOk && p.scopeOk && p.refreshedAt <= sentAt && sentAt + 255_000_000 <= p.credentialExpiresAt
    ensures var s2 := RecordPreflight(s1, l, Absent, seenAt);
            var s3 := MarkPossiblySent(s2, l, p, sentAt).0;
            var s4 := RecordProbe(s3, l, Exact, 1, foundAt);
            var t := Finish(s4, l, WasApplied, doneAt);
            id in t.subjects && t.subjects[id] == Subject(Done, None, None, Some(doneAt))
  {
    var s2 := RecordPreflight(s1, l, Absent, seenAt);
    var s3 := MarkPossiblySent(s2, l, p, sentAt).0;
    var s4 := RecordProbe(s3, l, Exact, 1, foundAt);
    SeenStage(s1, s2, l, id, p, now, expiresAt, seenAt);
    SentStage(s2, s3, l, id, p, now, expiresAt, seenAt, sentAt);
    FoundStage(s3, s4, l, id, foundAt);
    DoneStage(s4, Finish(s4, l, WasApplied, doneAt), l, id, doneAt);
  }

  // ---------------------------------------------------------------- leases in force

  /** The time at which a call runs, if it matters to leases. */
  function ClockOf(c: Call): Option<int> {
    match c
    case CallAcquireInitial(_, _, now, _, _) => Some(now)
    case CallMark(_, _, now) => Some(now)
    case CallAcquireProbe(_, _, now, _, _) => Some(now)
    case CallRecover(_, now) => Some(now)
    case _ => None
  }

  /** The call neither presents this lease nor runs after its term. */
  ghost predicate Respects(c: Call, l: Lease, expiresAt: int) {
    (PresentedLease(c).Some? ==> PresentedLease(c).value.id != l.id) && (ClockOf(c).Some? ==> ClockOf(c).value < expiresAt)
  }

  lemma RecoverKeepsLease(s: Db, target: nat, now: int, k: nat)
    requires Inv(s) && k < |s.leases| && s.leases[k].status == Active && now < s.leases[k].expiresAt
    ensures k < |Recover(s, target, now).leases| && Recover(s, target, now).leases[k] == s.leases[k]
  {
  }

  lemma ProbeKeepsLease(s: Db, c: Call, k: nat)
    requires Inv(s) && c.CallAcquireProbe? && k < |s.leases| && s.leases[k].status == Active && c.now < s.leases[k].expiresAt
    ensures k < |Step(s, c).leases| && Step(s, c).leases[k] == s.leases[k]
  {
  }

  lemma AcquisitionKeepsLease(s: Db, c: Call, k: nat)
    requires Inv(s) && c.CallAcquireInitial? && k < |s.leases| && s.leases[k].status == Active && c.now < s.leases[k].expiresAt
    ensures k < |Step(s, c).leases| && Step(s, c).leases[k] == s.leases[k]
  {
    if BoundTarget(s, c.id).Some? { RecoverKeepsLease(s, BoundTarget(s, c.id).value, c.now, k); }
  }

  lemma MarkKeepsLease(s: Db, c: Call, k: nat)
    requires Inv(s) && c.CallMark? && k < |s.leases| && s.leases[k].status == Active && c.now < s.leases[k].expiresAt
    ensures k < |Step(s, c).leases| && Step(s, c).leases[k] == s.leases[k]
  {
    if c.lease.op < |s.ops| { RecoverKeepsLease(s, s.ops[c.lease.op].target, c.now, k); }
  }

  lemma StepKeepsLease(s: Db, c: Call, l: Lease)
    requires Inv(s) && Owns(s, l) && Respects(c, l, s.leases[l.id].expiresAt)
    ensures l.id < |Step(s, c).leases| && Step(s, c).leases[l.id] == s.leases[l.id]
  {
    match c
    case CallAcquireInitial(_, _, _, _, _) => AcquisitionKeepsLease(s, c, l.id);
    case CallMark(_, _, _) => MarkKeepsLease(s, c, l.id);
    case CallRecover(t, now) => RecoverKeepsLease(s, t, now, l.id);
    case CallAcquireProbe(_, _, _, _, _) => ProbeKeepsLease(s, c, l.id);
    case _ => OthersKeepLease(s, c, l.id);
  }

  lemma OthersKeepLease(s: Db, c: Call, k: nat)
    requires ClockOf(c).None? && k < |s.leases| && (PresentedLease(c).Some? ==> PresentedLease(c).value.id != k)
    ensures k < |Step(s, c).leases| && Step(s, c).leases[k] == s.leases[k]
  {
  }

  ghost predicate AllRespect(calls: seq<Call>, l: Lease, expiresAt: int) {
    forall n | 0 <= n < |calls| :: Respects(calls[n], l, expiresAt)
  }

  /** Nobody takes a lease away while it runs: it stays with its holder through any calls of others. */
  lemma {:induction false} RunningLeaseStays(s: Db, calls: seq<Call>, l: Lease)
    requires Inv(s) && Owns(s, l) && AllRespect(calls, l, s.leases[l.id].expiresAt)
    ensures Owns(Run(s, calls), l)
    ensures Run(s, calls).leases[l.id] == s.leases[l.id]
    decreases |calls|
  {
    if calls != [] {
      var n := |calls| - 1;
      forall m | 0 <= m < n ensures Respects(calls[..n][m], l, s.leases[l.id].expiresAt) { assert calls[..n][m] == calls[m]; }
      RunningLeaseStays(s, calls[..n], l);
      RunKeepsInv(s, calls[..n]);
      StepKeepsLease(Run(s, calls[..n]), calls[n], l);
    }
  }
}
