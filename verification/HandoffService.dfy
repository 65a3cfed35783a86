/**
  SheetHandoffService as it runs: each method is one transaction that updates the rows
  in place, in the order of the source, including the checks that can no longer fail by
  the time they are made.  Every method is proved to leave exactly the database that its
  transition in HandoffModel describes, so the theorems about runs are about these methods.
 */
module HandoffService {
  import opened Common
  import opened HandoffModel
  import opened HandoffInvariant

  class SheetHandoffService {
    var ops: seq<Operation>
    var leases: seq<LeaseRow>
    var events: seq<Event>
    var probes: seq<Probe>
    var settlements: seq<Settlement>
    var subjects: map<SubjectId, Subject>
    var bindings: map<nat, nat>
    var oracles: map<nat, nat>
    var controls: map<nat, nat>

    constructor (targets: map<nat, nat>)
      ensures Rows() == EmptyDb(targets)
    {
      ops, leases, events, probes, settlements := [], [], [], [], [];
      subjects, bindings, oracles, controls := map[], map[], targets, map[];
    }

    function Rows(): Db
      reads this
    {
      Db(ops, leases, events, probes, settlements, subjects, bindings, oracles, controls)
    }

    method InsertEvent(op: nat, fence: nat, kind: EventKind, code: Option<Code>, now: int)
      modifies this`events
      ensures Rows() == AddEvent(old(Rows()), op, fence, kind, code, now)
    {
      events := events + [Event(op, fence, kind, code, now)];
    }

    /** _settle_handoff and _settle_bootstrap: an UPDATE guarded by the subject's status. */
    method UpdateSettledSubject(id: SubjectId, o: Outcome, code: Option<Code>, retryAt: Option<int>, now: int)
      modifies this`subjects
      ensures subjects == SettleSubject(old(subjects), id, o, code, retryAt, now)
    {
      if id !in subjects || !(subjects[id].status in {Working, Ambiguous}) { return; }
      match o {
        case WasApplied => subjects := subjects[id := Subject(Done, None, code, Some(now))];
        case WasReused => subjects := subjects[id := Subject(Done, None, code, Some(now))];
        case RetryableRejection =>
          subjects := subjects[id := Subject(Retryable, if retryAt.Some? then retryAt else Some(now), code, None)];
        case AbandonedPreMarker =>
          subjects := subjects[id := Subject(Retryable, if retryAt.Some? then retryAt else Some(now), code, None)];
        case LocalCorrupt =>
          if id.OnHandoff? { subjects := subjects[id := Subject(CorruptCopy, None, code, None)]; }
          else { subjects := subjects[id := Subject(Blocked, None, code, None)]; }
        case OperatorUnresolved => subjects := subjects[id := Subject(ManualRequired, None, code, None)];
        case _ => subjects := subjects[id := Subject(Blocked, None, code, None)];
      }
    }

    /** The UPDATE that finishes an operation; it answers whether the row still matched. */
    method FinishOperation(op: nat, fence: nat, o: Outcome, code: Option<Code>, settlement: nat, now: int)
      returns (changed: bool)
      modifies this`ops
      ensures changed == old(Unfinished(Rows(), op) && ops[op].fence == fence)
      ensures !changed ==> ops == old(ops)
      ensures changed ==>
                && op < |old(ops)|
                && ops == old(ops)[op := old(ops)[op].(status := StatusOf(o), certainty := CertaintyOf(o),
                   finishedAt := Some(now), outcome := Some(o), code := code, settlement := Some(settlement))]
    {
      changed := op < |ops| && ops[op].finishedAt.None? && ops[op].fence == fence;
      if changed {
        ops := ops[op := ops[op].(status := StatusOf(o), certainty := CertaintyOf(o), finishedAt := Some(now),
                                  outcome := Some(o), code := code, settlement := Some(settlement))];
      }
    }

    /** _finish: close a lease row if it is still active. */
    method CloseLease(id: nat, op: nat, fence: nat, closed: LeaseStatus, reason: EventKind) returns (changed: bool)
      modifies this`leases
      ensures changed == old(id < |leases| && leases[id].op == op && leases[id].fence == fence && leases[id].status == Active)
      ensures !changed ==> leases == old(leases)
      ensures changed ==>
                && id < |old(leases)|
                && leases == old(leases)[id := old(leases)[id].(status := closed, reason := Some(reason))]
    {
      changed := id < |leases| && leases[id].op == op && leases[id].fence == fence && leases[id].status == Active;
      if changed { leases := leases[id := leases[id].(status := closed, reason := Some(reason))]; }
    }

    /** The common tail of finish, settle_trusted_rejection and recovery. */
    method SettleLease(id: nat, op: nat, fence: nat, o: Outcome, code: Option<Code>, retryAt: Option<int>,
                       kind: EventKind, eventCode: Option<Code>, closed: LeaseStatus, now: int)
      returns (done: bool)
      requires id < |leases| && leases[id].op == op && leases[id].fence == fence && leases[id].status == Active
      requires Unfinished(Rows(), op) && ops[op].fence == fence
      modifies this
      ensures done
      ensures Rows() == Settle(old(Rows()), id, o, code, retryAt, kind, eventCode, closed, now)
    {
      var settlement := |settlements|;
      var subject := ops[op].subject;
      InsertEvent(op, fence, kind, eventCode, now);
      var changed := FinishOperation(op, fence, o, code, settlement, now);
      if !changed { return false; }
      UpdateSettledSubject(subject, o, code, retryAt, now);
      changed := CloseLease(id, op, fence, closed, kind);
      if !changed { return false; }
      settlements := settlements +
        [Settlement(op, fence, StatusOf(o), o, SubjectAfter(subject, o), closed, kind)];
      return true;
    }

    method EnqueueSheetHandoff(handoff: nat, target: nat) returns (reply: Reply)
      modifies this
      ensures Rows() == Enqueue(old(Rows()), handoff, target)
      ensures reply == Answer(old(Rows()), CallEnqueue(handoff, target))
    {
      if OnHandoff(handoff) in subjects {
        return if handoff in bindings && bindings[handoff] == target then Yes else Raised;
      }
      subjects := subjects[OnHandoff(handoff) := Subject(Fresh, None, None, None)];
      bindings := bindings[handoff := target];
      return Yes;
    }

    method EnsureBootstrapSubject(target: nat, fingerprint: nat) returns (status: Option<SubjectStatus>)
      modifies this
      ensures Rows() == EnsureBootstrap(old(Rows()), target, fingerprint)
      ensures status.None? <==> Answer(old(Rows()), CallEnsureBootstrap(target, fingerprint)) == Raised
      ensures status.Some? ==> OnTarget(target) in subjects && status.value == subjects[OnTarget(target)].status
    {
      if OnTarget(target) !in subjects {
        subjects := subjects[OnTarget(target) := Subject(Fresh, None, None, None)];
        controls := controls[target := fingerprint];
        return Some(Fresh);
      }
      if target !in controls || controls[target] != fingerprint { return None; }
      return Some(subjects[OnTarget(target)].status);
    }

    method RetryBlockedOperation(op: nat, now: int) returns (reopened: bool)
      modifies this
      ensures Rows() == RetryBlocked(old(Rows()), op, now)
      ensures ReplyOf(reopened) == Answer(old(Rows()), CallRetryBlocked(op, now))
    {
      if op >= |ops| { return false; }
      var o := ops[op];
      if o.finishedAt.None? { return false; }
      if !(o.status == RejectedBlocked
           || (o.status == BlockedOp && o.outcome == Some(SchemaConflict) && o.certainty == SettledNotApplied)) {
        return false;
      }
      if TargetBusy(Rows(), o.target) { return false; }
      if o.subject !in subjects || subjects[o.subject].status != Blocked { return false; }
      var code := subjects[o.subject].code;
      if code.None? || !Correctable(code.value) { return false; }
      InsertEvent(op, o.fence, OperatorCorrected, code, now);
      var changed := subjects[o.subject].status == Blocked;
      if changed { subjects := subjects[o.subject := subjects[o.subject].(status := Retryable, retryAt := Some(now))]; }
      return changed;
    }

    method RecoverExpiredPreMarker(target: nat, now: int)
      modifies this
      ensures Rows() == Recover(old(Rows()), target, now)
    {
      var row := FirstExpired(Rows(), target, now, 0);
      if row.None? { return; }
      var l := leases[row.value];
      var _ := SettleLease(row.value, l.op, l.fence, AbandonedPreMarker, Some(OutcomeCode(AbandonedPreMarker)), None,
                           LeaseExpiredPreMarker, Some(OutcomeCode(AbandonedPreMarker)), Expired, now);
    }

    method AcquireInitialLease(id: SubjectId, asked: Option<nat>, now: int, expiresAt: int, token: nat)
      returns (grant: Grant)
      modifies this
      ensures (Rows(), grant) == AcquireInitial(old(Rows()), id, asked, now, expiresAt, token)
    {
      var target: nat;
      match id {
        case OnHandoff(h) =>
          if h !in bindings { return Refused; }
          target := bindings[h];
        case OnTarget(t) => target := t;
      }
      if asked.Some? && asked.value != target { return Invalid; }
      RecoverExpiredPreMarker(target, now);
      if id !in subjects { return Refused; }
      var sub := subjects[id];
      if !(sub.status == Fresh || (sub.status == Retryable && sub.retryAt.Some? && sub.retryAt.value <= now)) {
        return Refused;
      }
      if TargetBusy(Rows(), target) { return Refused; }
      var op, lease := |ops|, |leases|;
      ops := ops + [Operation(target, id, MaxOrdinal(ops, target) + 1, Acquired, NotDispatched, 1, lease,
                              None, None, None, None, None, None)];
      InsertEvent(op, 1, LeaseAcquired, None, now);
      leases := leases + [LeaseRow(op, 1, token, Mutate, now, expiresAt, Active, None)];
      subjects := subjects[id := Subject(Working, None, None, None)];
      return Granted(Lease(op, 1, lease, token, Mutate));
    }

    method RecordPreflightFinding(l: Lease, seen: Finding, now: int) returns (ok: bool)
      modifies this
      ensures Rows() == RecordPreflight(old(Rows()), l, seen, now)
      ensures ReplyOf(ok) == Answer(old(Rows()), CallRecordPreflight(l, seen, now))
    {
      if l.mode != Mutate { return false; }
      if !Owns(Rows(), l) { return false; }
      if !(l.op < |ops| && ops[l.op].fence == l.fence && ops[l.op].status == Acquired
           && ops[l.op].dispatchAt.None? && ops[l.op].finishedAt.None?
           && leases[l.id].acquiredAt <= now < leases[l.id].expiresAt
           && !HasPreflight(Rows(), l.op, l.fence)) {
        return false;
      }
      InsertEvent(l.op, l.fence, Preflight(seen), None, now);
      return true;
    }

    method MarkDispatch(l: Lease, p: DispatchProof, now: int) returns (reply: Reply)
      modifies this
      ensures (Rows(), reply) == MarkPossiblySent(old(Rows()), l, p, now)
    {
      if l.mode != Mutate || !ProofFresh(p, now) { return No; }
      if !Owns(Rows(), l) { return No; }
      if l.op >= |ops| || ops[l.op].fence != l.fence { return No; }
      var o := ops[l.op];
      if o.target !in oracles || OnTarget(o.target) !in subjects || o.target !in controls { return No; }
      var preflight := NewestEvent(events, |events|, l.op, l.fence, Preflight(Absent));
      if preflight.None? { return No; }
      var expected := if o.subject.OnHandoff? then Done else Working;
      if oracles[o.target] != p.oracle || controls[o.target] != p.controls
         || subjects[OnTarget(o.target)].status != expected {
        return No;
      }
      var seenAt := events[preflight.value].at;
      if seenAt < leases[l.id].acquiredAt || seenAt > now || seenAt >= leases[l.id].expiresAt { return No; }
      if leases[l.id].expiresAt <= now {
        RecoverExpiredPreMarker(o.target, now);
        return No;
      }
      if !(o.status == Acquired && o.finishedAt.None?) { return Raised; }
      InsertEvent(l.op, l.fence, DispatchMarked, None, now);
      ops := ops[l.op := o.(status := PossiblySent, certainty := MaybeSent, dispatchAt := Some(now),
                            preflightEvent := preflight)];
      if o.subject in subjects && subjects[o.subject].status == Working {
        subjects := subjects[o.subject := subjects[o.subject].(status := Ambiguous)];
      }
      return Yes;
    }

    method ReleaseAmbiguous(l: Lease, now: int) returns (ok: bool)
      modifies this
      ensures Rows() == ReleasePossiblySent(old(Rows()), l, now)
      ensures ReplyOf(ok) == Answer(old(Rows()), CallReleasePossiblySent(l, now))
    {
      if l.mode != Mutate { return false; }
      if !Owns(Rows(), l) { return false; }
      InsertEvent(l.op, l.fence, TransportAmbiguous, None, now);
      ok := CloseLease(l.id, l.op, l.fence, Released, TransportAmbiguous);
    }

    method AcquireProbeLease(op: nat, expectedFence: nat, now: int, expiresAt: int, token: nat) returns (grant: Grant)
      modifies this
      ensures (Rows(), grant) == AcquireProbe(old(Rows()), op, expectedFence, now, expiresAt, token)
    {
      if !(op < |ops| && ops[op].fence == expectedFence && ops[op].status == PossiblySent && ops[op].finishedAt.None?) {
        return Refused;
      }
      var active := FirstActive(leases, op, 0);
      if active.Some? {
        if leases[active.value].expiresAt > now { return Refused; }
        InsertEvent(op, expectedFence, Probed(Unavailable), None, now);
        leases := leases[active.value :=
          leases[active.value].(status := Expired, reason := Some(Probed(Unavailable)))];
      }
      var fence, lease := expectedFence + 1, |leases|;
      if !(ops[op].fence == expectedFence && ops[op].finishedAt.None?) { return Refused; }
      ops := ops[op := ops[op].(fence := fence, lease := lease)];
      InsertEvent(op, fence, LeaseAcquired, None, now);
      leases := leases + [LeaseRow(op, fence, token, ReadOnlyProbe, now, expiresAt, Active, None)];
      return Granted(Lease(op, fence, lease, token, ReadOnlyProbe));
    }

    method RecordProbeFinding(l: Lease, found: Finding, matching: nat, now: int) returns (ok: bool)
      modifies this
      ensures Rows() == RecordProbe(old(Rows()), l, found, matching, now)
      ensures ReplyOf(ok) == Answer(old(Rows()), CallRecordProbe(l, found, matching, now))
    {
      if !Owns(Rows(), l) { return false; }
      InsertEvent(l.op, l.fence, Probed(found), None, now);
      probes := probes + [Probe(l.op, l.fence, found, matching)];
      return true;
    }

    method ReleaseProbeUnresolved(l: Lease, found: Finding, now: int) returns (ok: bool)
      modifies this
      ensures Rows() == ReleaseProbe(old(Rows()), l, found)
      ensures ReplyOf(ok) == Answer(old(Rows()), CallReleaseProbe(l, found, now))
    {
      if l.mode != ReadOnlyProbe { return false; }
      if !Owns(Rows(), l) { return false; }
      if !HasEvent(Rows(), l.op, l.fence, Probed(found)) { return false; }
      ok := CloseLease(l.id, l.op, l.fence, Released, Probed(found));
    }

    method SettleTrustedRejection(l: Lease, retryable: bool, code: Code, retryAt: Option<int>, now: int) returns (ok: bool)
      modifies this
      ensures Rows() == SettleRejection(old(Rows()), l, retryable, code, retryAt, now)
      ensures ReplyOf(ok) == Answer(old(Rows()), CallSettleRejection(l, retryable, code, retryAt, now))
    {
      if l.mode != Mutate || !RejectionCodeFits(retryable, code) { return false; }
      if retryable {
        if retryAt.None? || retryAt.value <= now { return false; }
      } else if retryAt.Some? {
        return false;
      }
      if !Owns(Rows(), l) { return false; }
      if !(l.op < |ops| && ops[l.op].fence == l.fence && ops[l.op].status == PossiblySent
           && ops[l.op].certainty == MaybeSent && ops[l.op].finishedAt.None?) {
        return false;
      }
      ok := SettleLease(l.id, l.op, l.fence, if retryable then RetryableRejection else BlockedRejection,
                        Some(code), retryAt, TrustedRejection, Some(code), Released, now);
    }

    method FinishLease(l: Lease, o: Outcome, now: int) returns (ok: bool)
      modifies this
      ensures Rows() == Finish(old(Rows()), l, o, now)
      ensures ReplyOf(ok) == Answer(old(Rows()), CallFinish(l, o, now))
    {
      if o.RetryableRejection? || o.BlockedRejection? { return false; }
      if !Owns(Rows(), l) { return false; }
      if !(l.op < |ops| && ops[l.op].fence == l.fence && ops[l.op].finishedAt.None?) { return false; }
      if !FinishEvidence(Rows(), l, ops[l.op].status, o) { return false; }
      ok := SettleLease(l.id, l.op, l.fence, o, FinishCode(o), None, FinishEvent(o), Some(OutcomeCode(o)), Released, now);
    }
  }
}
