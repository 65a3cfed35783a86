/** What the tables must show before an operation is dispatched, and before it is settled with an outcome. */
module HandoffEvidence {
  import opened Common
  import opened HandoffModel
  import opened HandoffInvariant
  import opened HandoffTheorems

  // ---------------------------------------------------------------- evidence

  /** The worker saw this before it dispatched. */
  ghost predicate Seen(s: Db, op: nat, fence: nat, what: Finding) {
    exists j :: 0 <= j < |s.events| && s.events[j].op == op && s.events[j].fence == fence && s.events[j].kind == Preflight(what)
  }

  /** A probe found this. */
  ghost predicate Found(s: Db, op: nat, fence: nat, what: Finding) {
    exists j :: 0 <= j < |s.probes| && s.probes[j].op == op && s.probes[j].fence == fence && s.probes[j].found == what
  }

  /** What the tables show for an outcome: of dispatched operations probes, of others what was seen before. */
  ghost predicate Grounds(s: Db, op: nat, fence: nat, o: Outcome)
    requires op < |s.ops|
  {
    var sent := s.ops[op].dispatchAt.Some?;
    match o
    case WasApplied => sent && Found(s, op, fence, Exact)
    case WasReused => !sent && Seen(s, op, fence, Exact)
    case DuplicateMetadata => if sent then Found(s, op, fence, Duplicate) else Seen(s, op, fence, Conflict)
    case ConflictingMetadata => if sent then Found(s, op, fence, Conflict) else Seen(s, op, fence, Conflict)
    case SchemaConflict => sent && Found(s, op, fence, Conflict)
    case LocalCorrupt => sent && Found(s, op, fence, Conflict)
    case RetryableRejection => sent
    case BlockedRejection => sent
    case OperatorUnresolved => sent
    case AbandonedPreMarker => !sent
  }

  /** The dispatch came, under a mutation lease in force, after the row was seen to be absent under that same lease. */
  ghost predicate DispatchGrounds(s: Db, op: nat, k: nat)
    requires op < |s.ops|
  {
    var o := s.ops[op];
    && o.dispatchAt.Some? && o.preflightEvent.Some? && o.preflightEvent.value < |s.events| && k < |s.leases|
    && var e, l := s.events[o.preflightEvent.value], s.leases[k];
    && e.op == op && e.kind == Preflight(Absent) && e.fence == l.fence && l.op == op && l.acquiredAt <= e.at <= o.dispatchAt.value < l.expiresAt
  }

  ghost predicate EvidenceOk(s: Db) {
    && (forall i | 0 <= i < |s.ops| && s.ops[i].outcome.Some? :: Grounds(s, i, s.ops[i].fence, s.ops[i].outcome.value))
    && (forall i | 0 <= i < |s.ops| && s.ops[i].dispatchAt.Some? :: exists k: nat :: DispatchGrounds(s, i, k))
  }

  lemma GroundsStay(s: Db, t: Db, i: nat, fence: nat, o: Outcome)
    requires Evolves(s, t) && i < |s.ops| && Grounds(s, i, fence, o) && t.ops[i].dispatchAt == s.ops[i].dispatchAt
    ensures Grounds(t, i, fence, o)
  {
    forall what | Seen(s, i, fence, what) ensures Seen(t, i, fence, what) {
      var j :| 0 <= j < |s.events| && s.events[j].op == i && s.events[j].fence == fence && s.events[j].kind == Preflight(what);
      assert t.events[j] == s.events[j];
    }
    forall what | Found(s, i, fence, what) ensures Found(t, i, fence, what) {
      var j :| 0 <= j < |s.probes| && s.probes[j].op == i && s.probes[j].fence == fence && s.probes[j].found == what;
      assert t.probes[j] == s.probes[j];
    }
  }

  lemma DispatchGroundsStay(s: Db, t: Db, i: nat, k: nat)
    requires Evolves(s, t) && i < |s.ops| && DispatchGrounds(s, i, k)
    ensures DispatchGrounds(t, i, k)
  {
    assert OperationEvolves(s.ops[i], t.ops[i]) && LeaseEvolves(s.leases[k], t.leases[k]);
    assert t.events[s.ops[i].preflightEvent.value] == s.events[s.ops[i].preflightEvent.value];
  }

  // ---------------------------------------------------------------- what each settlement rests on

  /**
    A lease holder's settlement is granted exactly when the tables show the grounds of the outcome under the lease's
    fence.  Rejections and abandonments have calls of their own.
   */
  lemma {:induction false} FinishGrantedExactly(s: Db, l: Lease, o: Outcome, now: int)
    requires Inv(s)
    ensures Answer(s, CallFinish(l, o, now)) == Yes <==>
              Owns(s, l) && l.op < |s.ops| && Grounds(s, l.op, l.fence, o)
              && !(o in {RetryableRejection, BlockedRejection, AbandonedPreMarker})
  {
    if Owns(s, l) {
      OwnedLeaseIsTheFence(s, l, l);
      assert OperationOk(s.ops[l.op]);
      assert s.ops[l.op].status in {Acquired, PossiblySent};
      forall what ensures HasEvent(s, l.op, l.fence, Preflight(what)) <==> Seen(s, l.op, l.fence, what) {}
      forall what ensures HasProbe(s, l.op, l.fence, what) <==> Found(s, l.op, l.fence, what) {}
    }
  }

  /** Where an outcome leaves the subject: delivered, corrupt, for an operator, blocked, or to be tried again. */
  ghost predicate Leaves(id: SubjectId, o: Outcome, st: SubjectStatus) {
    match o
    case WasApplied => st == Done
    case WasReused => st == Done
    case DuplicateMetadata => st == Blocked
    case ConflictingMetadata => st == Blocked
    case SchemaConflict => st == Blocked
    case LocalCorrupt => st == (if id.OnHandoff? then CorruptCopy else Blocked)
    case OperatorUnresolved => st == ManualRequired
    case RetryableRejection => st == Retryable
    case BlockedRejection => st == Blocked
    case AbandonedPreMarker => st == Retryable
  }

  /** Whether an outcome says that the row is on the sheet. */
  ghost predicate Says(o: Outcome, c: Certainty) {
    match o
    case WasApplied => c == SettledApplied
    case WasReused => c == SettledApplied
    case DuplicateMetadata => c == SettledApplied
    case ConflictingMetadata => c == SettledApplied
    case SchemaConflict => c == SettledNotApplied
    case LocalCorrupt => c == SettledNotApplied
    case OperatorUnresolved => c == Unresolved
    case RetryableRejection => c == SettledNotApplied
    case BlockedRejection => c == SettledNotApplied
    case AbandonedPreMarker => c == NotDispatched
  }

  /** A settled operation: its rows, its lease, and the subject it leaves; nothing else changes. */
  ghost predicate SettledAs(s: Db, t: Db, op: nat, o: Outcome, code: Option<Code>, retryAt: Option<int>, now: int)
    requires op < |s.ops|
  {
    var id := s.ops[op].subject;
    && |t.ops| == |s.ops| && t.ops[op].outcome == Some(o) && t.ops[op].finishedAt == Some(now) && t.ops[op].code == code
    && Says(o, t.ops[op].certainty) && t.ops[op].dispatchAt == s.ops[op].dispatchAt
    && (forall i | 0 <= i < |s.ops| && i != op :: t.ops[i] == s.ops[i])
    && id in t.subjects && Leaves(id, o, t.subjects[id].status) && t.subjects[id].code == code
    && t.subjects[id].retryAt == retryAt && t.subjects[id].doneAt == (if t.subjects[id].status == Done then Some(now) else None)
    && (forall x | x in s.subjects && x != id :: x in t.subjects && t.subjects[x] == s.subjects[x])
    && (forall k | 0 <= k < |t.leases| && t.leases[k].op == op :: t.leases[k].status != Active)
    && t.probes == s.probes
  }

  lemma SettleSettles(s: Db, id: nat, o: Outcome, code: Option<Code>, retryAt: Option<int>, kind: EventKind,
                      eventCode: Option<Code>, closed: LeaseStatus, now: int)
    requires Inv(s) && id < |s.leases| && s.leases[id].op < |s.ops| && s.leases[id].status == Active && closed != Active
    requires retryAt.Some? ==> o == RetryableRejection
    ensures var t := Settle(s, id, o, code, retryAt, kind, eventCode, closed, now);
            var at := if o == RetryableRejection && retryAt.Some? then retryAt
                      else if o in {RetryableRejection, AbandonedPreMarker} then Some(now) else None;
            SettledAs(s, t, s.leases[id].op, o, code, at, now)
  {
    assert LeaseOk(s, id);
    OpenSubject(s, s.leases[id].op);
    var t := Settle(s, id, o, code, retryAt, kind, eventCode, closed, now);
    forall k | 0 <= k < |t.leases| && t.leases[k].op == s.leases[id].op ensures t.leases[k].status != Active {
      if k != id { assert LeaseOk(s, k); }
    }
  }

  /** What a granted settlement does. */
  lemma {:induction false} FinishSettles(s: Db, l: Lease, o: Outcome, now: int)
    requires Inv(s) && Answer(s, CallFinish(l, o, now)) == Yes
    ensures SettledAs(s, Finish(s, l, o, now), l.op, o,
                      if o in {WasApplied, WasReused} then None else Some(OutcomeCode(o)), None, now)
  {
    FinishIsSettle(s, l, o, now);
    SettleSettles(s, l.id, o, FinishCode(o), None, FinishEvent(o), Some(OutcomeCode(o)), Released, now);
  }

  lemma FinishIsSettle(s: Db, l: Lease, o: Outcome, now: int)
    requires Inv(s) && Answer(s, CallFinish(l, o, now)) == Yes
    ensures Owns(s, l) && l.op < |s.ops| && !(o in {RetryableRejection, BlockedRejection, AbandonedPreMarker})
    ensures Finish(s, l, o, now)
            == Settle(s, l.id, o, FinishCode(o), None, FinishEvent(o), Some(OutcomeCode(o)), Released, now)
    ensures FinishCode(o) == if o in {WasApplied, WasReused} then None else Some(OutcomeCode(o))
  {
  }

  /** A dispatched operation whose lease holder found exactly its row is settled as applied, and its subject is delivered. */
  lemma {:induction false} FoundExactlyIsDelivered(s: Db, l: Lease, now: int)
    requires Inv(s) && Owns(s, l) && l.op < |s.ops| && s.ops[l.op].dispatchAt.Some? && Found(s, l.op, l.fence, Exact)
    ensures Answer(s, CallFinish(l, WasApplied, now)) == Yes
    ensures var t := Finish(s, l, WasApplied, now);
            s.ops[l.op].subject in t.subjects && t.subjects[s.ops[l.op].subject] == Subject(Done, None, None, Some(now))
  {
    FinishGrantedExactly(s, l, WasApplied, now);
    FinishSettles(s, l, WasApplied, now);
  }

  /** A trusted rejection: of a dispatched operation, by its mutation lease, with a code of its kind. */
  lemma {:induction false} RejectionGrantedExactly(s: Db, l: Lease, retryable: bool, code: Code, retryAt: Option<int>, now: int)
    requires Inv(s)
    ensures Answer(s, CallSettleRejection(l, retryable, code, retryAt, now)) == Yes <==>
              && l.mode == Mutate && Owns(s, l) && l.op < |s.ops| && s.ops[l.op].dispatchAt.Some?
              && (if retryable then code in {Aborted, RateLimited} && retryAt.Some? && now < retryAt.value
                  else code in {TemplateDrift, MetadataConflict, NotFound, InvalidRequest, Unauthenticated, PermissionDenied}
                       && retryAt.None?)
    ensures Answer(s, CallSettleRejection(l, retryable, code, retryAt, now)) == Yes ==>
              SettledAs(s, SettleRejection(s, l, retryable, code, retryAt, now), l.op,
                        if retryable then RetryableRejection else BlockedRejection, Some(code), retryAt, now)
  {
    if Owns(s, l) {
      OwnedLeaseIsTheFence(s, l, l);
      assert OperationOk(s.ops[l.op]);
      SettleSettles(s, l.id, if retryable then RetryableRejection else BlockedRejection, Some(code),
                    if retryable then retryAt else None, TrustedRejection, Some(code), Released, now);
    }
  }

  // ---------------------------------------------------------------- what a dispatch rests on

  /** The newest sighting of an absent row by this lease. */
  ghost predicate NewestAbsent(s: Db, l: Lease, j: nat) {
    && j < |s.events| && s.events[j].op == l.op && s.events[j].fence == l.fence && s.events[j].kind == Preflight(Absent)
    && forall k | j < k < |s.events| :: !(s.events[k].op == l.op && s.events[k].fence == l.fence && s.events[k].kind == Preflight(Absent))
  }

  /** The bootstrap of a target is done, or is what is being dispatched, and the worker works from its fingerprints. */
  ghost predicate TargetReady(s: Db, target: nat, id: SubjectId, p: DispatchProof) {
    && target in s.oracles && s.oracles[target] == p.oracle && target in s.controls && s.controls[target] == p.controls
    && OnTarget(target) in s.subjects && s.subjects[OnTarget(target)].status == (if id.OnHandoff? then Done else Working)
  }

  /**
    A dispatch is granted exactly to the mutation lease of an operation that was not dispatched yet, while the lease
    runs, after it last saw the row absent, with a target in order and credentials good for 255 seconds more.
   */
  lemma {:induction false} MarkGrantedExactly(s: Db, l: Lease, p: DispatchProof, now: int)
    requires Inv(s)
    ensures Answer(s, CallMark(l, p, now)) == Yes <==>
              && l.mode == Mutate && Owns(s, l) && l.op < |s.ops| && s.ops[l.op].dispatchAt.None?
              && now < s.leases[l.id].expiresAt
              && (exists j: nat :: NewestAbsent(s, l, j) && s.leases[l.id].acquiredAt <= s.events[j].at <= now)
              && TargetReady(s, s.ops[l.op].target, s.ops[l.op].subject, p)
              && p.requestOk && p.scopeOk && p.refreshedAt <= now && now + 255_000_000 <= p.credentialExpiresAt
  {
    if Owns(s, l) {
      OwnedLeaseIsTheFence(s, l, l);
      assert OperationOk(s.ops[l.op]);
      var e := NewestEvent(s.events, |s.events|, l.op, l.fence, Preflight(Absent));
      if e.Some? { assert NewestAbsent(s, l, e.value); }
      forall j: nat | NewestAbsent(s, l, j) ensures e == Some(j) {}
    }
  }

  /** A granted dispatch is on record before anything is sent: the operation has its time, its subject is ambiguous. */
  lemma {:induction false} MarkRecords(s: Db, l: Lease, p: DispatchProof, now: int)
    requires Inv(s) && Answer(s, CallMark(l, p, now)) == Yes
    ensures var t := MarkPossiblySent(s, l, p, now).0;
            && |t.ops| == |s.ops| && t.ops[l.op].dispatchAt == Some(now) && t.ops[l.op].certainty == MaybeSent
            && t.ops[l.op].finishedAt.None? && DispatchGrounds(t, l.op, l.id)
            && (forall i | 0 <= i < |s.ops| && i != l.op :: t.ops[i] == s.ops[i])
            && s.ops[l.op].subject in t.subjects && t.subjects[s.ops[l.op].subject].status == Ambiguous
            && t.leases == s.leases && t.events == s.events + [Event(l.op, l.fence, DispatchMarked, None, now)]
  {
    MarkGrantedExactly(s, l, p, now);
    OwnedLeaseIsTheFence(s, l, l);
    OpenSubject(s, l.op);
    assert OperationOk(s.ops[l.op]);
    var e := NewestEvent(s.events, |s.events|, l.op, l.fence, Preflight(Absent));
    var t := MarkPossiblySent(s, l, p, now).0;
    assert t == Marked(s, l, now);
    assert t.events[e.value] == s.events[e.value];
  }

  // ---------------------------------------------------------------- over runs

  lemma RecoverGrounds(s: Db, target: nat, now: int, i: nat)
    requires Inv(s) && i < |s.ops| && s.ops[i].outcome.None? && Recover(s, target, now).ops[i].outcome.Some?
    ensures Grounds(Recover(s, target, now), i, Recover(s, target, now).ops[i].fence, Recover(s, target, now).ops[i].outcome.value)
  {
  }

  /** An acquisition recovers, and may then open an operation, which adds one row and touches no other. */
  lemma AcquireCases(s: Db, c: Call) returns (s1: Db)
    requires c.CallAcquireInitial?
    ensures s1 == s || (BoundTarget(s, c.id).Some? && s1 == Recover(s, BoundTarget(s, c.id).value, c.now))
    ensures var t := Step(s, c);
            && |s1.ops| == |s.ops| && |s1.ops| <= |t.ops| <= |s1.ops| + 1
            && (forall i | 0 <= i < |s1.ops| :: t.ops[i] == s1.ops[i])
            && t.probes == s1.probes && s1.events <= t.events
            && (|t.ops| > |s1.ops| ==> t.ops[|s1.ops|].outcome.None?)
  {
    var b := BoundTarget(s, c.id);
    s1 := if b.None? || (c.asked.Some? && c.asked.value != b.value) then s else Recover(s, b.value, c.now);
    if b.Some? { RecoverTrace(s, b.value, c.now); }
  }

  lemma AcquireGrounds(s: Db, c: Call, i: nat)
    requires Inv(s) && c.CallAcquireInitial? && i < |s.ops| && s.ops[i].outcome.None?
    requires i < |Step(s, c).ops| && Step(s, c).ops[i].outcome.Some?
    ensures Grounds(Step(s, c), i, Step(s, c).ops[i].fence, Step(s, c).ops[i].outcome.value)
  {
    var s1 := AcquireCases(s, c);
    var t := Step(s, c);
    assert t.ops[i] == s1.ops[i];
    RecoverGrounds(s, BoundTarget(s, c.id).value, c.now, i);
  }

  lemma MarkGrounds(s: Db, c: Call, i: nat)
    requires Inv(s) && c.CallMark? && i < |s.ops| && s.ops[i].outcome.None?
    requires i < |Step(s, c).ops| && Step(s, c).ops[i].outcome.Some?
    ensures Grounds(Step(s, c), i, Step(s, c).ops[i].fence, Step(s, c).ops[i].outcome.value)
  {
    MarkGroundsOf(s, c.lease, c.proof, c.now, i, MarkPossiblySent(s, c.lease, c.proof, c.now).0);
  }

  lemma MarkGroundsOf(s: Db, l: Lease, p: DispatchProof, now: int, i: nat, t: Db)
    requires Inv(s) && t == MarkPossiblySent(s, l, p, now).0 && i < |s.ops| && s.ops[i].outcome.None?
    requires i < |t.ops| && t.ops[i].outcome.Some?
    ensures Grounds(t, i, t.ops[i].fence, t.ops[i].outcome.value)
  {
    RecoverGrounds(s, s.ops[l.op].target, now, i);
  }

  lemma SettlementGrounds(s: Db, c: Call, i: nat)
    requires Inv(s) && (c.CallFinish? || c.CallSettleRejection?) && i < |s.ops| && s.ops[i].outcome.None?
    requires i < |Step(s, c).ops| && Step(s, c).ops[i].outcome.Some?
    ensures Grounds(Step(s, c), i, Step(s, c).ops[i].fence, Step(s, c).ops[i].outcome.value)
  {
    var l := c.lease;
    var t := Step(s, c);
    if c.CallFinish? {
      FinishGrantedExactly(s, l, c.outcome, c.now);
      FinishSettles(s, l, c.outcome, c.now);
    } else {
      RejectionGrantedExactly(s, l, c.retryable, c.code, c.retryAt, c.now);
    }
    OwnedLeaseIsTheFence(s, l, l);
    assert i == l.op && t.ops[i].fence == s.ops[i].fence == l.fence;
    StepEvolves(s, c);
    GroundsStay(s, t, i, l.fence, t.ops[i].outcome.value);
  }

  /** A step that finishes an operation has its grounds. */
  lemma FinishedWithGrounds(s: Db, c: Call, i: nat)
    requires Inv(s) && i < |s.ops| && s.ops[i].outcome.None? && i < |Step(s, c).ops| && Step(s, c).ops[i].outcome.Some?
    ensures Grounds(Step(s, c), i, Step(s, c).ops[i].fence, Step(s, c).ops[i].outcome.value)
  {
    match c
    case CallAcquireInitial(_, _, _, _, _) => AcquireGrounds(s, c, i);
    case CallMark(_, _, _) => MarkGrounds(s, c, i);
    case CallRecover(t, now) => RecoverGrounds(s, t, now, i);
    case CallFinish(_, _, _) => SettlementGrounds(s, c, i);
    case CallSettleRejection(_, _, _, _, _) => SettlementGrounds(s, c, i);
    case _ => NothingFinishes(s, c);
  }

  lemma NothingFinishes(s: Db, c: Call)
    requires !(c.CallAcquireInitial? || c.CallMark? || c.CallRecover? || c.CallFinish? || c.CallSettleRejection?)
    ensures |Step(s, c).ops| == |s.ops| && forall i | 0 <= i < |s.ops| :: Step(s, c).ops[i].outcome == s.ops[i].outcome
  {
  }

  lemma {:induction false} StepKeepsEvidence(s: Db, c: Call)
    requires Inv(s) && EvidenceOk(s)
    ensures EvidenceOk(Step(s, c))
  {
    StepEvolves(s, c);
    StepKeepsInv(s, c);
    EvidenceCarries(s, c, Step(s, c));
  }

  lemma EvidenceCarries(s: Db, c: Call, t: Db)
    requires Inv(s) && EvidenceOk(s) && t == Step(s, c) && Evolves(s, t) && Inv(t)
    ensures EvidenceOk(t)
  {
    forall i | 0 <= i < |t.ops| && t.ops[i].outcome.Some? ensures Grounds(t, i, t.ops[i].fence, t.ops[i].outcome.value) {
      OutcomeWithGrounds(s, c, i);
    }
    forall i | 0 <= i < |t.ops| && t.ops[i].dispatchAt.Some? ensures exists k: nat :: DispatchGrounds(t, i, k) {
      DispatchedWithGrounds(s, c, i);
    }
  }

  lemma OutcomeWithGrounds(s: Db, c: Call, i: nat)
    requires Inv(s) && EvidenceOk(s) && Evolves(s, Step(s, c)) && Inv(Step(s, c)) && i < |Step(s, c).ops| && Step(s, c).ops[i].outcome.Some?
    ensures Grounds(Step(s, c), i, Step(s, c).ops[i].fence, Step(s, c).ops[i].outcome.value)
  {
    if i >= |s.ops| { NewIsOpen(s, c, i); }
    else if s.ops[i].outcome.None? { FinishedWithGrounds(s, c, i); }
    else {
      assert OperationOk(s.ops[i]) && OperationEvolves(s.ops[i], Step(s, c).ops[i]);
      GroundsStay(s, Step(s, c), i, s.ops[i].fence, s.ops[i].outcome.value);
    }
  }

  lemma DispatchedWithGrounds(s: Db, c: Call, i: nat)
    requires Inv(s) && EvidenceOk(s) && Evolves(s, Step(s, c)) && i < |Step(s, c).ops| && Step(s, c).ops[i].dispatchAt.Some?
    ensures exists k: nat :: DispatchGrounds(Step(s, c), i, k)
  {
    var t := Step(s, c);
    OnlyMarkDispatches(s, c, i);
    if s.ops[i].dispatchAt.None? {
      MarkRecords(s, c.lease, c.proof, c.now);
      assert DispatchGrounds(t, i, c.lease.id);
    } else {
      var k: nat :| DispatchGrounds(s, i, k);
      DispatchGroundsStay(s, t, i, k);
    }
  }

  lemma NewIsOpen(s: Db, c: Call, i: nat)
    requires |s.ops| <= i < |Step(s, c).ops|
    ensures Step(s, c).ops[i].outcome.None?
  {
    if c.CallAcquireInitial? { var s1 := AcquireCases(s, c); }
    else { OthersOpenNothing(s, c); }
  }

  lemma OthersOpenNothing(s: Db, c: Call)
    requires !c.CallAcquireInitial?
    ensures |Step(s, c).ops| == |s.ops|
  {
  }

  lemma {:induction false} RunKeepsEvidence(s: Db, calls: seq<Call>)
    requires Inv(s) && EvidenceOk(s)
    ensures EvidenceOk(Run(s, calls))
    decreases |calls|
  {
    if calls != [] {
      RunKeepsEvidence(s, calls[..|calls| - 1]);
      RunKeepsInv(s, calls[..|calls| - 1]);
      StepKeepsEvidence(Run(s, calls[..|calls| - 1]), calls[|calls| - 1]);
    }
  }

  /**
    After every run: no operation was settled without the evidence of its outcome, under the fence it ended with; and
    none was dispatched before the row had been seen absent under the lease that dispatched it.
   */
  lemma {:induction false} NothingWithoutEvidence(oracles: map<nat, nat>, calls: seq<Call>, i: nat)
    requires i < |Run(EmptyDb(oracles), calls).ops|
    ensures var s := Run(EmptyDb(oracles), calls);
            && (s.ops[i].outcome.Some? ==> Grounds(s, i, s.ops[i].fence, s.ops[i].outcome.value))
            && (s.ops[i].dispatchAt.Some? ==> exists k: nat :: DispatchGrounds(s, i, k))
  {
    InitInv(oracles);
    RunKeepsEvidence(EmptyDb(oracles), calls);
  }
}
