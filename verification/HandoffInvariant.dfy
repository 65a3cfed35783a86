/** What every reachable database of the Sheets authority satisfies. */
module HandoffInvariant {
  import opened Common
  import opened HandoffModel

  /** The columns of one operation agree with each other. */
  ghost predicate OperationOk(o: Operation) {
    && (o.finishedAt.None? <==> o.status in {Acquired, PossiblySent})
    && (o.status == Acquired ==> o.certainty == NotDispatched && o.dispatchAt.None?)
    && (o.status == PossiblySent ==> o.certainty == MaybeSent && o.dispatchAt.Some?)
    && (o.finishedAt.None? ==> o.outcome.None? && o.settlement.None?)
    && (o.finishedAt.Some? ==>
          && o.outcome.Some? && o.settlement.Some?
          && o.status == StatusOf(o.outcome.value) && o.certainty == CertaintyOf(o.outcome.value))
    && (o.certainty == NotDispatched ==> o.dispatchAt.None?)
  }

  ghost predicate OperationsOk(s: Db) {
    forall i | 0 <= i < |s.ops| :: OperationOk(s.ops[i])
  }

  /** Every operation names an existing subject that is bound to its target. */
  ghost predicate Bound(s: Db, o: Operation) {
    o.subject in s.subjects && BoundTarget(s, o.subject) == Some(o.target)
  }

  ghost predicate AllBound(s: Db) {
    && (forall i | 0 <= i < |s.ops| :: Bound(s, s.ops[i]))
    && (forall id | id in s.subjects :: BoundTarget(s, id).Some?)
  }

  ghost predicate OneOpenPerTarget(s: Db) {
    forall i, j | 0 <= i < j < |s.ops| && s.ops[i].finishedAt.None? && s.ops[j].finishedAt.None? ::
      s.ops[i].target != s.ops[j].target
  }

  ghost predicate LeaseOk(s: Db, id: nat)
    requires id < |s.leases|
  {
    var l := s.leases[id];
    && l.op < |s.ops|
    && l.fence <= s.ops[l.op].fence
    && (l.status == Active ==> s.ops[l.op].finishedAt.None? && l.fence == s.ops[l.op].fence && s.ops[l.op].lease == id)
  }

  ghost predicate LeasesOk(s: Db) {
    && (forall id | 0 <= id < |s.leases| :: LeaseOk(s, id))
    && (forall i | 0 <= i < |s.ops| :: s.ops[i].lease < |s.leases|)
  }

  /** A settlement row repeats its operation, its subject's move and its lease. */
  ghost predicate SettlementOk(s: Db, k: nat)
    requires k < |s.settlements|
  {
    var st := s.settlements[k];
    && st.op < |s.ops|
    && var o := s.ops[st.op];
    && o.settlement == Some(k) && o.outcome == Some(st.outcome) && o.status == st.opStatus && o.fence == st.fence
    && st.subjectStatus == SubjectAfter(o.subject, st.outcome)
    && o.lease < |s.leases|
    && s.leases[o.lease].status == st.leaseStatus && s.leases[o.lease].reason == Some(st.leaseReason)
    && st.leaseStatus != Active
  }

  ghost predicate SettlementsOk(s: Db) {
    && (forall k | 0 <= k < |s.settlements| :: SettlementOk(s, k))
    && (forall i | 0 <= i < |s.ops| && s.ops[i].settlement.Some? ::
          s.ops[i].settlement.value < |s.settlements| && s.settlements[s.ops[i].settlement.value].op == i)
  }

  ghost predicate IsMark(s: Db, j: nat, op: nat) {
    j < |s.events| && s.events[j].kind == DispatchMarked && s.events[j].op == op
  }

  /** One dispatch mark for each operation with a dispatch time, and no other marks. */
  ghost predicate MarksOk(s: Db) {
    && (forall j: nat, op: nat :: IsMark(s, j, op) ==> op < |s.ops| && s.ops[op].dispatchAt.Some?)
    && (forall j: nat, k: nat, op: nat :: IsMark(s, j, op) && IsMark(s, k, op) ==> j == k)
    && (forall op | 0 <= op < |s.ops| && s.ops[op].dispatchAt.Some? :: exists j: nat :: IsMark(s, j, op))
  }

  /** The statuses from which a subject can still reach a new dispatch. */
  ghost predicate Reopenable(sub: Subject) {
    || sub.status in {Fresh, Retryable, Working, Ambiguous}
    || (sub.status == Blocked && sub.code.Some? && Correctable(sub.code.value))
  }

  /** Every finished operation of the subject that was dispatched is known not to have been applied. */
  ghost predicate Cleared(s: Db, id: SubjectId) {
    forall i | 0 <= i < |s.ops| && s.ops[i].subject == id && s.ops[i].finishedAt.Some? && s.ops[i].dispatchAt.Some? ::
      s.ops[i].certainty == SettledNotApplied
  }

  ghost predicate InFlight(s: Db, id: SubjectId, st: OpStatus) {
    exists i | 0 <= i < |s.ops| :: s.ops[i].subject == id && s.ops[i].status == st
  }

  ghost predicate SubjectsOk(s: Db) {
    && (forall id | id in s.subjects && Reopenable(s.subjects[id]) :: Cleared(s, id))
    && (forall id | id in s.subjects :: s.subjects[id].status == Working <==> InFlight(s, id, Acquired))
    && (forall id | id in s.subjects :: s.subjects[id].status == Ambiguous <==> InFlight(s, id, PossiblySent))
  }

  ghost predicate Inv(s: Db) {
    && OperationsOk(s) && AllBound(s) && OneOpenPerTarget(s) && LeasesOk(s) && SettlementsOk(s) && MarksOk(s)
    && SubjectsOk(s)
  }

  lemma InitInv(oracles: map<nat, nat>)
    ensures Inv(EmptyDb(oracles))
  {
  }

  /** The subject of an unfinished operation carries exactly that operation's stage. */
  lemma OpenSubject(s: Db, i: nat)
    requires Inv(s) && Unfinished(s, i)
    ensures s.ops[i].subject in s.subjects
    ensures s.ops[i].status == Acquired ==> s.subjects[s.ops[i].subject].status == Working
    ensures s.ops[i].status == PossiblySent ==> s.subjects[s.ops[i].subject].status == Ambiguous
    ensures Cleared(s, s.ops[i].subject)
    ensures forall j | 0 <= j < |s.ops| && j != i && s.ops[j].subject == s.ops[i].subject :: s.ops[j].finishedAt.Some?
  {
    var o := s.ops[i];
    assert Bound(s, o) && OperationOk(o);
    if o.status == Acquired { assert InFlight(s, o.subject, Acquired); }
    if o.status == PossiblySent { assert InFlight(s, o.subject, PossiblySent); }
    forall j | 0 <= j < |s.ops| && j != i && s.ops[j].subject == o.subject
      ensures s.ops[j].finishedAt.Some?
    {
      assert Bound(s, s.ops[j]);
    }
  }

  // ---------------------------------------------------------------- steps that keep the invariant

  /** Appending events that are no dispatch marks, and probes, changes nothing the invariant reads. */
  lemma {:induction false} EventsKeepInv(s: Db, e: Event, probes: seq<Probe>)
    requires Inv(s) && e.kind != DispatchMarked
    ensures Inv(s.(events := s.events + [e], probes := probes))
  {
    var t := s.(events := s.events + [e], probes := probes);
    forall j: nat, op: nat ensures IsMark(t, j, op) <==> IsMark(s, j, op) {}
    forall op | 0 <= op < |t.ops| && t.ops[op].dispatchAt.Some?
      ensures exists j: nat :: IsMark(t, j, op)
    {
      var j: nat :| IsMark(s, j, op);
      assert IsMark(t, j, op);
    }
    SameOpsAndSubjects(s, t);
    forall id | 0 <= id < |t.leases| ensures LeaseOk(t, id) { assert LeaseOk(s, id); }
    forall k | 0 <= k < |t.settlements| ensures SettlementOk(t, k) { assert SettlementOk(s, k); }
  }

  lemma {:induction false} SameOpsAndSubjects(s: Db, t: Db)
    requires AllBound(s) && SubjectsOk(s)
    requires t.ops == s.ops && t.subjects == s.subjects && t.bindings == s.bindings
    ensures AllBound(t) && SubjectsOk(t)
  {
    forall i | 0 <= i < |t.ops| ensures Bound(t, t.ops[i]) { assert Bound(s, s.ops[i]); }
    forall id | id in t.subjects ensures BoundTarget(t, id).Some? { assert BoundTarget(s, id).Some?; }
    forall id ensures Cleared(t, id) <==> Cleared(s, id) {}
    forall id, st ensures InFlight(t, id, st) <==> InFlight(s, id, st) {
      if InFlight(s, id, st) {
        var i :| 0 <= i < |s.ops| && s.ops[i].subject == id && s.ops[i].status == st;
        assert t.ops[i].subject == id;
      }
    }
  }

  /** What changes when one operation row is rewritten in place, for every subject but its own. */
  lemma {:induction false} OtherSubjectsKeep(s: Db, t: Db, op: nat)
    requires SubjectsOk(s)
    requires op < |s.ops| && |t.ops| == |s.ops| && t.ops[op].subject == s.ops[op].subject
    requires forall i | 0 <= i < |s.ops| && i != op :: t.ops[i] == s.ops[i]
    requires t.subjects.Keys == s.subjects.Keys
    requires forall id | id in s.subjects && id != s.ops[op].subject :: t.subjects[id] == s.subjects[id]
    ensures forall id | id in t.subjects && id != s.ops[op].subject ::
              && (Reopenable(t.subjects[id]) ==> Cleared(t, id))
              && (t.subjects[id].status == Working <==> InFlight(t, id, Acquired))
              && (t.subjects[id].status == Ambiguous <==> InFlight(t, id, PossiblySent))
  {
    forall id, st | id != s.ops[op].subject ensures InFlight(t, id, st) <==> InFlight(s, id, st) {
      if InFlight(s, id, st) {
        var i :| 0 <= i < |s.ops| && s.ops[i].subject == id && s.ops[i].status == st;
        assert t.ops[i] == s.ops[i];
      }
      if InFlight(t, id, st) {
        var i :| 0 <= i < |t.ops| && t.ops[i].subject == id && t.ops[i].status == st;
        assert t.ops[i] == s.ops[i];
      }
    }
  }

  /** The operation that a settlement may close, and the code that goes with its outcome. */
  ghost predicate Settleable(s: Db, id: nat, o: Outcome, code: Option<Code>, kind: EventKind, closed: LeaseStatus) {
    && id < |s.leases| && s.leases[id].status == Active && Unfinished(s, s.leases[id].op)
    && kind != DispatchMarked && closed != Active
    && (o.AbandonedPreMarker? ==> s.ops[s.leases[id].op].status == Acquired)
    && (match o
        case WasApplied => code.None?
        case WasReused => code.None?
        case RetryableRejection => true
        case BlockedRejection => true
        case _ => code == Some(OutcomeCode(o)))
  }

  /** Rewriting the only unfinished operation of a subject into a finished one, and moving the subject. */
  lemma {:induction false} ClosingKeepsSubjects(s: Db, t: Db, op: nat)
    requires OperationsOk(s) && OperationsOk(t) && SubjectsOk(s)
    requires Unfinished(s, op) && s.ops[op].subject in s.subjects
    requires |t.ops| == |s.ops| && t.ops[op].subject == s.ops[op].subject && t.ops[op].finishedAt.Some?
    requires forall i | 0 <= i < |s.ops| && i != op :: t.ops[i] == s.ops[i]
    requires forall i | 0 <= i < |s.ops| && i != op && s.ops[i].subject == s.ops[op].subject :: s.ops[i].finishedAt.Some?
    requires t.subjects.Keys == s.subjects.Keys
    requires forall id | id in s.subjects && id != s.ops[op].subject :: t.subjects[id] == s.subjects[id]
    requires Reopenable(s.subjects[s.ops[op].subject])
    requires !(t.subjects[s.ops[op].subject].status in {Working, Ambiguous})
    requires Reopenable(t.subjects[s.ops[op].subject]) && t.ops[op].dispatchAt.Some? ==>
               t.ops[op].certainty == SettledNotApplied
    ensures SubjectsOk(t)
  {
    var subject := s.ops[op].subject;
    OtherSubjectsKeep(s, t, op);
    forall i | 0 <= i < |t.ops| && t.ops[i].subject == subject
      ensures t.ops[i].status != Acquired && t.ops[i].status != PossiblySent
    {
      assert OperationOk(t.ops[i]);
    }
    assert Cleared(s, subject);
    if Reopenable(t.subjects[subject]) {
      forall i | 0 <= i < |t.ops| && t.ops[i].subject == subject && t.ops[i].dispatchAt.Some?
        ensures t.ops[i].certainty == SettledNotApplied
      {
        if i != op { assert t.ops[i] == s.ops[i]; }
      }
    }
  }

  lemma {:induction false} SettleKeepsSubjects(s: Db, id: nat, o: Outcome, code: Option<Code>, retryAt: Option<int>,
                                               kind: EventKind, eventCode: Option<Code>, closed: LeaseStatus, now: int)
    requires Inv(s) && Settleable(s, id, o, code, kind, closed)
    ensures OperationsOk(Settle(s, id, o, code, retryAt, kind, eventCode, closed, now))
    ensures SubjectsOk(Settle(s, id, o, code, retryAt, kind, eventCode, closed, now))
  {
    var t := Settle(s, id, o, code, retryAt, kind, eventCode, closed, now);
    var op := s.leases[id].op;
    OpenSubject(s, op);
    SettledOperations(s, id, o, code, retryAt, kind, eventCode, closed, now);
    SettledSubject(s, s.ops[op].subject, o, code, retryAt, now);
    assert OperationOk(s.ops[op]);
    ClosingKeepsSubjects(s, t, op);
  }

  lemma {:induction false} SettledOperations(s: Db, id: nat, o: Outcome, code: Option<Code>, retryAt: Option<int>,
                                             kind: EventKind, eventCode: Option<Code>, closed: LeaseStatus, now: int)
    requires OperationsOk(s) && Settleable(s, id, o, code, kind, closed)
    ensures OperationsOk(Settle(s, id, o, code, retryAt, kind, eventCode, closed, now))
  {
    var t := Settle(s, id, o, code, retryAt, kind, eventCode, closed, now);
    var op := s.leases[id].op;
    assert OperationOk(s.ops[op]);
    forall i | 0 <= i < |t.ops| ensures OperationOk(t.ops[i]) { assert i != op ==> OperationOk(s.ops[i]); }
  }

  /** Where a settlement leaves its subject: reopenable only when the outcome says "not applied". */
  lemma SettledSubject(s: Db, id: SubjectId, o: Outcome, code: Option<Code>, retryAt: Option<int>, now: int)
    requires id in s.subjects && s.subjects[id].status in {Working, Ambiguous}
    requires match o
             case WasApplied => code.None?
             case WasReused => code.None?
             case RetryableRejection => true
             case BlockedRejection => true
             case _ => code == Some(OutcomeCode(o))
    ensures var subjects := SettleSubject(s.subjects, id, o, code, retryAt, now);
            && subjects.Keys == s.subjects.Keys && (forall x | x in s.subjects && x != id :: subjects[x] == s.subjects[x])
            && !(subjects[id].status in {Working, Ambiguous})
            && (Reopenable(subjects[id]) && !o.AbandonedPreMarker? ==> CertaintyOf(o) == SettledNotApplied)
  {
  }

  lemma {:induction false} SettleKeepsLedger(s: Db, id: nat, o: Outcome, code: Option<Code>, retryAt: Option<int>,
                                             kind: EventKind, eventCode: Option<Code>, closed: LeaseStatus, now: int)
    requires Inv(s) && Settleable(s, id, o, code, kind, closed)
    ensures LeasesOk(Settle(s, id, o, code, retryAt, kind, eventCode, closed, now))
    ensures SettlementsOk(Settle(s, id, o, code, retryAt, kind, eventCode, closed, now))
  {
    var t := Settle(s, id, o, code, retryAt, kind, eventCode, closed, now);
    var op := s.leases[id].op;
    assert LeaseOk(s, id) && OperationOk(s.ops[op]);
    forall k | 0 <= k < |t.leases| ensures LeaseOk(t, k) { assert LeaseOk(s, k); }
    forall k | 0 <= k < |t.settlements| ensures SettlementOk(t, k) {
      if k < |s.settlements| { assert SettlementOk(s, k); LeaseRowsDiffer(s, k, id); }
    }
    forall i | 0 <= i < |t.ops| && t.ops[i].settlement.Some?
      ensures t.ops[i].settlement.value < |t.settlements| && t.settlements[t.ops[i].settlement.value].op == i
    {
      if i != op { assert t.ops[i] == s.ops[i]; }
    }
  }

  lemma {:induction false} SettleKeepsInv(s: Db, id: nat, o: Outcome, code: Option<Code>, retryAt: Option<int>,
                                          kind: EventKind, eventCode: Option<Code>, closed: LeaseStatus, now: int)
    requires Inv(s) && Settleable(s, id, o, code, kind, closed)
    ensures Inv(Settle(s, id, o, code, retryAt, kind, eventCode, closed, now))
  {
    var t := Settle(s, id, o, code, retryAt, kind, eventCode, closed, now);
    var op := s.leases[id].op;
    assert OperationOk(s.ops[op]);
    RewriteKeepsBound(s, t);
    SettleKeepsSubjects(s, id, o, code, retryAt, kind, eventCode, closed, now);
    SettleKeepsLedger(s, id, o, code, retryAt, kind, eventCode, closed, now);
    MarksSurvive(s, t);
  }

  /** Operations that keep their subject and target stay bound. */
  lemma RewriteKeepsBound(s: Db, t: Db)
    requires AllBound(s) && |t.ops| == |s.ops| && t.subjects.Keys == s.subjects.Keys && t.bindings == s.bindings
    requires forall i | 0 <= i < |s.ops| :: t.ops[i].subject == s.ops[i].subject && t.ops[i].target == s.ops[i].target
    ensures AllBound(t)
  {
    forall i | 0 <= i < |t.ops| ensures Bound(t, t.ops[i]) { assert Bound(s, s.ops[i]); }
    forall x | x in t.subjects ensures BoundTarget(t, x).Some? { assert BoundTarget(s, x).Some?; }
  }

  /** The lease of a settled operation is not the active lease of an unfinished one. */
  lemma LeaseRowsDiffer(s: Db, k: nat, id: nat)
    requires Inv(s) && k < |s.settlements| && id < |s.leases| && s.leases[id].status == Active
    ensures s.settlements[k].op != s.leases[id].op
    ensures s.settlements[k].op < |s.ops| && s.ops[s.settlements[k].op].lease != id
  {
    assert SettlementOk(s, k) && LeaseOk(s, id);
    assert OperationOk(s.ops[s.settlements[k].op]);
  }

  lemma {:induction false} MarksSurvive(s: Db, t: Db)
    requires MarksOk(s)
    requires |t.ops| >= |s.ops|
    requires forall i | 0 <= i < |s.ops| :: t.ops[i].dispatchAt == s.ops[i].dispatchAt
    requires forall i | |s.ops| <= i < |t.ops| :: t.ops[i].dispatchAt.None?
    requires s.events <= t.events
    requires forall j | |s.events| <= j < |t.events| :: t.events[j].kind != DispatchMarked
    ensures MarksOk(t)
  {
    forall j: nat, op: nat ensures IsMark(t, j, op) <==> IsMark(s, j, op) {}
    forall op | 0 <= op < |t.ops| && t.ops[op].dispatchAt.Some?
      ensures exists j: nat :: IsMark(t, j, op)
    {
      var j: nat :| IsMark(s, j, op);
      assert IsMark(t, j, op);
    }
  }

  lemma {:induction false} RecoverKeepsInv(s: Db, target: nat, now: int)
    requires Inv(s)
    ensures Inv(Recover(s, target, now))
    ensures Recover(s, target, now).subjects.Keys == s.subjects.Keys
    ensures Recover(s, target, now).bindings == s.bindings
  {
    var r := FirstExpired(s, target, now, 0);
    if r.Some? {
      SettleKeepsInv(s, r.value, AbandonedPreMarker, Some(OutcomeCode(AbandonedPreMarker)), None,
                     LeaseExpiredPreMarker, Some(OutcomeCode(AbandonedPreMarker)), Expired, now);
    }
  }

  lemma {:induction false} OpenKeepsInv(s: Db, target: nat, id: SubjectId, now: int, expiresAt: int, token: nat)
    requires Inv(s)
    requires id in s.subjects && s.subjects[id].status in {Fresh, Retryable}
    requires BoundTarget(s, id) == Some(target) && !TargetBusy(s, target)
    ensures Inv(Open(s, target, id, now, expiresAt, token))
  {
    var t := Open(s, target, id, now, expiresAt, token);
    OpenKeepsOperations(s, t, id);
    OpenKeepsLedger(s, t);
    MarksSurvive(s, t);
    OpenKeepsSubjects(s, t, id);
  }

  lemma {:induction false} OpenKeepsOperations(s: Db, t: Db, id: SubjectId)
    requires OperationsOk(s) && AllBound(s) && OneOpenPerTarget(s)
    requires |t.ops| == |s.ops| + 1 && t.ops[..|s.ops|] == s.ops
    requires OperationOk(t.ops[|s.ops|]) && t.ops[|s.ops|].subject == id && id in s.subjects
    requires t.subjects.Keys == s.subjects.Keys && t.bindings == s.bindings
    requires BoundTarget(s, id) == Some(t.ops[|s.ops|].target) && !TargetBusy(s, t.ops[|s.ops|].target)
    ensures OperationsOk(t) && AllBound(t) && OneOpenPerTarget(t)
  {
    assert forall i | 0 <= i < |s.ops| :: t.ops[i] == s.ops[i];
    forall i | 0 <= i < |t.ops| ensures OperationOk(t.ops[i]) && Bound(t, t.ops[i]) {
      if i < |s.ops| { assert OperationOk(s.ops[i]) && Bound(s, s.ops[i]); }
    }
    forall x | x in t.subjects ensures BoundTarget(t, x).Some? { assert BoundTarget(s, x).Some?; }
    forall i, j | 0 <= i < j < |t.ops| && t.ops[i].finishedAt.None? && t.ops[j].finishedAt.None?
      ensures t.ops[i].target != t.ops[j].target
    {
      if j == |s.ops| { assert Unfinished(s, i); }
    }
  }

  lemma {:induction false} OpenKeepsLedger(s: Db, t: Db)
    requires LeasesOk(s) && SettlementsOk(s)
    requires |t.ops| == |s.ops| + 1 && t.ops[..|s.ops|] == s.ops
    requires |t.leases| == |s.leases| + 1 && t.leases[..|s.leases|] == s.leases
    requires t.ops[|s.ops|].finishedAt.None? && t.ops[|s.ops|].settlement.None? && t.ops[|s.ops|].lease == |s.leases|
    requires t.leases[|s.leases|].op == |s.ops| && t.leases[|s.leases|].fence == t.ops[|s.ops|].fence
    requires t.settlements == s.settlements
    ensures LeasesOk(t) && SettlementsOk(t)
  {
    assert forall i | 0 <= i < |s.ops| :: t.ops[i] == s.ops[i];
    assert forall k | 0 <= k < |s.leases| :: t.leases[k] == s.leases[k];
    forall k | 0 <= k < |t.leases| ensures LeaseOk(t, k) {
      if k < |s.leases| { assert LeaseOk(s, k); }
    }
    forall k | 0 <= k < |t.settlements| ensures SettlementOk(t, k) { assert SettlementOk(s, k); }
  }

  lemma {:induction false} OpenKeepsSubjects(s: Db, t: Db, id: SubjectId)
    requires OperationsOk(s) && SubjectsOk(s)
    requires id in s.subjects && s.subjects[id].status in {Fresh, Retryable}
    requires |t.ops| == |s.ops| + 1 && t.ops[..|s.ops|] == s.ops
    requires t.ops[|s.ops|].subject == id && t.ops[|s.ops|].status == Acquired && t.ops[|s.ops|].finishedAt.None?
    requires t.subjects == s.subjects[id := Subject(Working, None, None, None)]
    ensures SubjectsOk(t)
  {
    forall x, st | x in s.subjects
      ensures InFlight(t, x, st) <==> InFlight(s, x, st) || (x == id && st == Acquired)
    {
      assert forall i | 0 <= i < |s.ops| :: t.ops[i] == s.ops[i];
      if InFlight(s, x, st) {
        var i :| 0 <= i < |s.ops| && s.ops[i].subject == x && s.ops[i].status == st;
        assert t.ops[i].subject == x;
      }
      if InFlight(t, x, st) {
        var i :| 0 <= i < |t.ops| && t.ops[i].subject == x && t.ops[i].status == st;
        if i < |s.ops| { assert s.ops[i].subject == x; }
      }
      if x == id && st == Acquired { assert t.ops[|s.ops|].subject == x; }
    }
    forall x | x in t.subjects && Reopenable(t.subjects[x]) ensures Cleared(t, x) {
      assert Cleared(s, x);
      forall i | 0 <= i < |t.ops| && t.ops[i].subject == x && t.ops[i].finishedAt.Some? && t.ops[i].dispatchAt.Some?
        ensures t.ops[i].certainty == SettledNotApplied
      {
        assert t.ops[i] == s.ops[i];
      }
    }
  }

  lemma {:induction false} MarkKeepsInv(s: Db, l: Lease, now: int)
    requires Inv(s) && Owns(s, l) && Unfinished(s, l.op) && s.ops[l.op].status == Acquired
    ensures Inv(Marked(s, l, now))
  {
    var t := Marked(s, l, now);
    var subject := s.ops[l.op].subject;
    OpenSubject(s, l.op);
    assert OperationOk(s.ops[l.op]) && OperationOk(t.ops[l.op]);
    RewriteKeepsBound(s, t);
    MarkKeepsLedger(s, t, l.op);
    MarkKeepsMarks(s, t, l.op);
    MarkKeepsSubjects(s, t, l.op);
  }

  lemma {:induction false} MarkKeepsLedger(s: Db, t: Db, op: nat)
    requires LeasesOk(s) && SettlementsOk(s) && Unfinished(s, op) && s.ops[op].settlement.None?
    requires t.leases == s.leases && t.settlements == s.settlements && |t.ops| == |s.ops| && t.ops == s.ops[op := t.ops[op]]
    requires t.ops[op].finishedAt.None? && t.ops[op].settlement.None?
    requires t.ops[op].fence == s.ops[op].fence && t.ops[op].lease == s.ops[op].lease
    ensures LeasesOk(t) && SettlementsOk(t)
  {
    forall k | 0 <= k < |t.leases| ensures LeaseOk(t, k) { assert LeaseOk(s, k); }
    forall k | 0 <= k < |t.settlements| ensures SettlementOk(t, k) { assert SettlementOk(s, k); }
  }

  lemma {:induction false} MarkKeepsMarks(s: Db, t: Db, op: nat)
    requires MarksOk(s) && op < |s.ops| && s.ops[op].dispatchAt.None?
    requires |t.ops| == |s.ops| && t.ops[op].dispatchAt.Some?
    requires forall i | 0 <= i < |s.ops| && i != op :: t.ops[i] == s.ops[i]
    requires |t.events| == |s.events| + 1 && t.events[..|s.events|] == s.events
    requires t.events[|s.events|].kind == DispatchMarked && t.events[|s.events|].op == op
    ensures MarksOk(t)
  {
    forall j: nat, x: nat ensures IsMark(t, j, x) <==> IsMark(s, j, x) || (j == |s.events| && x == op) {
      if j < |s.events| { assert t.events[j] == s.events[j]; }
    }
    forall x | 0 <= x < |t.ops| && t.ops[x].dispatchAt.Some?
      ensures exists j: nat :: IsMark(t, j, x)
    {
      if x == op { assert IsMark(t, |s.events|, x); }
      else {
        var j: nat :| IsMark(s, j, x);
        assert IsMark(t, j, x);
      }
    }
  }

  lemma {:induction false} MarkKeepsSubjects(s: Db, t: Db, op: nat)
    requires Inv(s) && Unfinished(s, op) && s.ops[op].status == Acquired
    requires |t.ops| == |s.ops| && t.ops == s.ops[op := t.ops[op]]
    requires t.ops[op].subject == s.ops[op].subject && t.ops[op].finishedAt.None? && t.ops[op].status == PossiblySent
    requires t.subjects == MarkedSubjects(s.subjects, s.ops[op].subject)
    ensures SubjectsOk(t)
  {
    var subject := s.ops[op].subject;
    OpenSubject(s, op);
    OtherSubjectsKeep(s, t, op);
    assert t.ops[op].subject == subject;
    assert InFlight(t, subject, PossiblySent);
    forall i | 0 <= i < |t.ops| && t.ops[i].subject == subject ensures t.ops[i].status != Acquired {
      if i != op { assert OperationOk(s.ops[i]); }
    }
    forall i | 0 <= i < |t.ops| && t.ops[i].subject == subject && t.ops[i].finishedAt.Some? && t.ops[i].dispatchAt.Some?
      ensures t.ops[i].certainty == SettledNotApplied
    {
      assert t.ops[i] == s.ops[i];
    }
    assert Cleared(t, subject);
  }

  /** Closing or adding lease rows, with the operations' other columns unchanged. */
  lemma {:induction false} LeaseMovesKeepInv(s: Db, t: Db)
    requires Inv(s)
    requires |t.ops| == |s.ops| && forall i | 0 <= i < |s.ops| ::
               t.ops[i] == s.ops[i].(fence := t.ops[i].fence, lease := t.ops[i].lease)
    requires forall i | 0 <= i < |s.ops| && s.ops[i].finishedAt.Some? :: t.ops[i] == s.ops[i]
    requires LeasesOk(t)
    requires |s.leases| <= |t.leases|
    requires forall k | 0 <= k < |s.leases| && s.leases[k].status != Active :: t.leases[k] == s.leases[k]
    requires t.settlements == s.settlements && t.subjects == s.subjects && t.bindings == s.bindings
    requires s.events <= t.events
    requires forall j | |s.events| <= j < |t.events| :: t.events[j].kind != DispatchMarked
    ensures Inv(t)
  {
    forall i | 0 <= i < |t.ops| ensures OperationOk(t.ops[i]) && Bound(t, t.ops[i]) {
      assert OperationOk(s.ops[i]) && Bound(s, s.ops[i]);
    }
    forall x | x in t.subjects ensures BoundTarget(t, x).Some? { assert BoundTarget(s, x).Some?; }
    LeaseMovesKeepSettlements(s, t);
    MarksSurvive(s, t);
    LeaseMovesKeepSubjects(s, t);
  }

  lemma {:induction false} LeaseMovesKeepSettlements(s: Db, t: Db)
    requires OperationsOk(s) && SettlementsOk(s) && LeasesOk(t)
    requires |t.ops| == |s.ops| && forall i | 0 <= i < |s.ops| ::
               t.ops[i] == s.ops[i].(fence := t.ops[i].fence, lease := t.ops[i].lease)
    requires forall i | 0 <= i < |s.ops| && s.ops[i].finishedAt.Some? :: t.ops[i] == s.ops[i]
    requires |s.leases| <= |t.leases|
    requires forall k | 0 <= k < |s.leases| && s.leases[k].status != Active :: t.leases[k] == s.leases[k]
    requires t.settlements == s.settlements
    ensures SettlementsOk(t)
  {
    forall k | 0 <= k < |t.settlements| ensures SettlementOk(t, k) {
      assert SettlementOk(s, k);
      assert OperationOk(s.ops[s.settlements[k].op]);
    }
    forall i | 0 <= i < |t.ops| && t.ops[i].settlement.Some?
      ensures t.ops[i].settlement.value < |t.settlements| && t.settlements[t.ops[i].settlement.value].op == i
    {
      assert s.ops[i].settlement.Some?;
    }
  }

  lemma {:induction false} LeaseMovesKeepSubjects(s: Db, t: Db)
    requires SubjectsOk(s)
    requires |t.ops| == |s.ops| && forall i | 0 <= i < |s.ops| ::
               t.ops[i] == s.ops[i].(fence := t.ops[i].fence, lease := t.ops[i].lease)
    requires t.subjects == s.subjects
    ensures SubjectsOk(t)
  {
    forall x, st ensures InFlight(t, x, st) <==> InFlight(s, x, st) {
      if InFlight(s, x, st) {
        var i :| 0 <= i < |s.ops| && s.ops[i].subject == x && s.ops[i].status == st;
        assert t.ops[i].subject == x;
      }
      if InFlight(t, x, st) {
        var i :| 0 <= i < |t.ops| && t.ops[i].subject == x && t.ops[i].status == st;
        assert s.ops[i].subject == x;
      }
    }
    forall x | x in t.subjects && Reopenable(t.subjects[x]) ensures Cleared(t, x) { assert Cleared(s, x); }
  }

  lemma {:induction false} ReleaseKeepsInv(s: Db, l: Lease, kind: EventKind)
    requires Inv(s) && l.id < |s.leases| && s.leases[l.id].status == Active
    ensures Inv(ReleaseLease(s, l, kind))
  {
    var t := ReleaseLease(s, l, kind);
    forall k | 0 <= k < |t.leases| ensures LeaseOk(t, k) { assert LeaseOk(s, k); }
    LeaseMovesKeepInv(s, t);
  }

  lemma {:induction false} RetireKeepsInv(s: Db, op: nat, fence: nat, id: nat, now: int)
    requires Inv(s) && id < |s.leases| && s.leases[id].status == Active && s.leases[id].op == op
    ensures Inv(RetireForProbe(s, op, fence, id, now))
    ensures forall k | 0 <= k < |s.leases| && s.leases[k].op == op ::
              RetireForProbe(s, op, fence, id, now).leases[k].status != Active
  {
    var t := RetireForProbe(s, op, fence, id, now);
    assert LeaseOk(s, id);
    forall k | 0 <= k < |t.leases|
      ensures LeaseOk(t, k) && (s.leases[k].op == op ==> t.leases[k].status != Active)
    {
      assert LeaseOk(s, k);
    }
    LeaseMovesKeepInv(s, t);
  }

  lemma {:induction false} AddProbeKeepsInv(s: Db, op: nat, now: int, expiresAt: int, token: nat)
    requires Inv(s) && Unfinished(s, op)
    requires forall k | 0 <= k < |s.leases| && s.leases[k].op == op :: s.leases[k].status != Active
    ensures Inv(AddProbeLease(s, op, now, expiresAt, token).0)
  {
    var t := AddProbeLease(s, op, now, expiresAt, token).0;
    forall k | 0 <= k < |t.leases| ensures LeaseOk(t, k) {
      if k < |s.leases| { assert LeaseOk(s, k); }
    }
    LeaseMovesKeepInv(s, t);
  }

  lemma {:induction false} AcquireProbeKeepsInv(s: Db, op: nat, expectedFence: nat, now: int, expiresAt: int, token: nat)
    requires Inv(s)
    ensures Inv(AcquireProbe(s, op, expectedFence, now, expiresAt, token).0)
  {
    if Unfinished(s, op) && s.ops[op].fence == expectedFence && s.ops[op].status == PossiblySent {
      var active := FirstActive(s.leases, op, 0);
      if active.None? { AddProbeKeepsInv(s, op, now, expiresAt, token); }
      else if s.leases[active.value].expiresAt <= now {
        RetireKeepsInv(s, op, expectedFence, active.value, now);
        AddProbeKeepsInv(RetireForProbe(s, op, expectedFence, active.value, now), op, now, expiresAt, token);
      }
    }
  }

  lemma {:induction false} RetryKeepsInv(s: Db, op: nat, now: int)
    requires Inv(s)
    ensures Inv(RetryBlocked(s, op, now))
  {
    if CanReopen(s, op) {
      var id := s.ops[op].subject;
      var sub := s.subjects[id];
      var m := AddEvent(s, op, s.ops[op].fence, OperatorCorrected, sub.code, now);
      EventsKeepInv(s, Event(op, s.ops[op].fence, OperatorCorrected, sub.code, now), s.probes);
      var t := RetryBlocked(s, op, now);
      assert t == m.(subjects := m.subjects[id := sub.(status := Retryable, retryAt := Some(now))]);
      ResubjectKeepsInv(m, t, id);
    }
  }

  /** Moving one subject that has no work in flight, to a status without work in flight. */
  lemma {:induction false} ResubjectKeepsInv(s: Db, t: Db, id: SubjectId)
    requires Inv(s) && id in s.subjects && Reopenable(s.subjects[id])
    requires !(s.subjects[id].status in {Working, Ambiguous})
    requires id in t.subjects && t == s.(subjects := s.subjects[id := t.subjects[id]])
    requires !(t.subjects[id].status in {Working, Ambiguous})
    ensures Inv(t)
  {
    forall i | 0 <= i < |t.ops| ensures Bound(t, t.ops[i]) { assert Bound(s, s.ops[i]); }
    forall x | x in t.subjects ensures BoundTarget(t, x).Some? { assert BoundTarget(s, x).Some?; }
    forall k | 0 <= k < |t.leases| ensures LeaseOk(t, k) { assert LeaseOk(s, k); }
    forall k | 0 <= k < |t.settlements| ensures SettlementOk(t, k) { assert SettlementOk(s, k); }
    MarksSurvive(s, t);
    forall x, st ensures InFlight(t, x, st) <==> InFlight(s, x, st) { SameInFlight(s, t, x, st); }
    forall x | x in t.subjects && Reopenable(t.subjects[x]) ensures Cleared(t, x) { assert Cleared(s, x); }
  }

  lemma SameInFlight(s: Db, t: Db, x: SubjectId, st: OpStatus)
    requires t.ops == s.ops
    ensures InFlight(t, x, st) <==> InFlight(s, x, st)
  {
  }

  lemma {:induction false} NewSubjectKeepsInv(s: Db, t: Db, id: SubjectId)
    requires Inv(s) && id !in s.subjects
    requires t == s.(subjects := s.subjects[id := Subject(Fresh, None, None, None)], bindings := t.bindings, controls := t.controls)
    requires forall x | x in s.subjects :: BoundTarget(t, x) == BoundTarget(s, x)
    requires BoundTarget(t, id).Some?
    ensures Inv(t)
  {
    forall i | 0 <= i < |t.ops| ensures Bound(t, t.ops[i]) && t.ops[i].subject != id { assert Bound(s, s.ops[i]); }
    forall k | 0 <= k < |t.leases| ensures LeaseOk(t, k) { assert LeaseOk(s, k); }
    forall k | 0 <= k < |t.settlements| ensures SettlementOk(t, k) { assert SettlementOk(s, k); }
    MarksSurvive(s, t);
    forall x, st ensures InFlight(t, x, st) <==> InFlight(s, x, st) { SameInFlight(s, t, x, st); }
    forall x | x in t.subjects && Reopenable(t.subjects[x]) ensures Cleared(t, x) {
      if x != id { assert Cleared(s, x); }
    }
  }

  lemma {:induction false} AcquireKeepsInv(s: Db, id: SubjectId, asked: Option<nat>, now: int, expiresAt: int, token: nat)
    requires Inv(s)
    ensures Inv(AcquireInitial(s, id, asked, now, expiresAt, token).0)
  {
    var b := BoundTarget(s, id);
    if b.Some? && !(asked.Some? && asked.value != b.value) {
      RecoverKeepsInv(s, b.value, now);
      var s1 := Recover(s, b.value, now);
      if Startable(s1, id, now) && !TargetBusy(s1, b.value) {
        OpenKeepsInv(s1, b.value, id, now, expiresAt, token);
      }
    }
  }

  lemma {:induction false} EnqueueKeepsInv(s: Db, h: nat, target: nat)
    requires Inv(s)
    ensures Inv(Enqueue(s, h, target))
  {
    var t := Enqueue(s, h, target);
    if OnHandoff(h) !in s.subjects {
      forall x | x in s.subjects ensures BoundTarget(t, x) == BoundTarget(s, x) { assert BoundTarget(s, x).Some?; }
      NewSubjectKeepsInv(s, t, OnHandoff(h));
    }
  }

  lemma {:induction false} BootstrapKeepsInv(s: Db, target: nat, fingerprint: nat)
    requires Inv(s)
    ensures Inv(EnsureBootstrap(s, target, fingerprint))
  {
    if OnTarget(target) !in s.subjects { NewSubjectKeepsInv(s, EnsureBootstrap(s, target, fingerprint), OnTarget(target)); }
  }

  lemma {:induction false} EvidenceKeepsInv(s: Db, l: Lease, found: Finding, matching: nat, now: int)
    requires Inv(s)
    ensures Inv(RecordPreflight(s, l, found, now)) && Inv(RecordProbe(s, l, found, matching, now))
  {
    EventsKeepInv(s, Event(l.op, l.fence, Preflight(found), None, now), s.probes);
    EventsKeepInv(s, Event(l.op, l.fence, Probed(found), None, now), s.probes + [Probe(l.op, l.fence, found, matching)]);
  }

  lemma {:induction false} MarkCallKeepsInv(s: Db, l: Lease, p: DispatchProof, now: int)
    requires Inv(s)
    ensures Inv(MarkPossiblySent(s, l, p, now).0)
  {
    if MarkEvidence(s, l, p, now) {
      if s.leases[l.id].expiresAt <= now { RecoverKeepsInv(s, s.ops[l.op].target, now); }
      else if s.ops[l.op].status == Acquired && Unfinished(s, l.op) { MarkKeepsInv(s, l, now); }
    }
  }

  lemma {:induction false} PossiblySentReleaseKeepsInv(s: Db, l: Lease, now: int)
    requires Inv(s)
    ensures Inv(ReleasePossiblySent(s, l, now))
  {
    if Owns(s, l) {
      EventsKeepInv(s, Event(l.op, l.fence, TransportAmbiguous, None, now), s.probes);
      ReleaseKeepsInv(AddEvent(s, l.op, l.fence, TransportAmbiguous, None, now), l, TransportAmbiguous);
    }
  }

  lemma {:induction false} ProbeReleaseKeepsInv(s: Db, l: Lease, found: Finding)
    requires Inv(s)
    ensures Inv(ReleaseProbe(s, l, found))
  {
    if Owns(s, l) { ReleaseKeepsInv(s, l, Probed(found)); }
  }

  lemma {:induction false} RejectionKeepsInv(s: Db, l: Lease, retryable: bool, code: Code, retryAt: Option<int>, now: int)
    requires Inv(s)
    ensures Inv(SettleRejection(s, l, retryable, code, retryAt, now))
  {
    if CanReject(s, l, retryable, code, retryAt, now) {
      SettleKeepsInv(s, l.id, if retryable then RetryableRejection else BlockedRejection, Some(code), retryAt,
                     TrustedRejection, Some(code), Released, now);
    }
  }

  lemma {:induction false} FinishKeepsInv(s: Db, l: Lease, o: Outcome, now: int)
    requires Inv(s)
    ensures Inv(Finish(s, l, o, now))
  {
    if CanFinish(s, l, o) {
      SettleKeepsInv(s, l.id, o, FinishCode(o), None, FinishEvent(o), Some(OutcomeCode(o)), Released, now);
    }
  }

  /** Every service call keeps the invariant, whatever lease object it is given. */
  lemma {:induction false} StepKeepsInv(s: Db, c: Call)
    requires Inv(s)
    ensures Inv(Step(s, c))
  {
    match c
    case CallEnqueue(h, t) => EnqueueKeepsInv(s, h, t);
    case CallEnsureBootstrap(t, f) => BootstrapKeepsInv(s, t, f);
    case CallRetryBlocked(op, now) => RetryKeepsInv(s, op, now);
    case CallAcquireInitial(id, asked, now, expiresAt, token) => AcquireKeepsInv(s, id, asked, now, expiresAt, token);
    case CallRecordPreflight(l, seen, now) => EvidenceKeepsInv(s, l, seen, 0, now);
    case CallMark(l, p, now) => MarkCallKeepsInv(s, l, p, now);
    case CallReleasePossiblySent(l, now) => PossiblySentReleaseKeepsInv(s, l, now);
    case CallAcquireProbe(op, fence, now, expiresAt, token) => AcquireProbeKeepsInv(s, op, fence, now, expiresAt, token);
    case CallRecordProbe(l, found, matching, now) => EvidenceKeepsInv(s, l, found, matching, now);
    case CallReleaseProbe(l, found, _) => ProbeReleaseKeepsInv(s, l, found);
    case CallSettleRejection(l, retryable, code, retryAt, now) => RejectionKeepsInv(s, l, retryable, code, retryAt, now);
    case CallFinish(l, o, now) => FinishKeepsInv(s, l, o, now);
    case CallRecover(t, now) => RecoverKeepsInv(s, t, now);
  }

  lemma {:induction false} RunKeepsInv(s: Db, calls: seq<Call>)
    requires Inv(s)
    ensures Inv(Run(s, calls))
    decreases |calls|
  {
    if calls != [] {
      RunKeepsInv(s, calls[..|calls| - 1]);
      StepKeepsInv(Run(s, calls[..|calls| - 1]), calls[|calls| - 1]);
    }
  }
}
