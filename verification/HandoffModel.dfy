/**
  The rows of the Sheets handoff authority and, for every method of
  SheetHandoffService, the database that its transaction leaves behind.

  Row ids are positions in append-only tables (the source counts from one),
  timestamps are integer microseconds, and hashes, fingerprints and tokens are
  opaque numbers.  A handoff and a bootstrap are both "subjects": they move
  through the same statuses under two sets of names
  (pending/uninitialized = Fresh, delivering/configuring = Working,
  delivered/ready = Done).
 */
module HandoffModel {
  import opened Common

  datatype SubjectId = OnHandoff(handoff: nat) | OnTarget(target: nat)

  datatype SubjectStatus = Fresh | Working | Ambiguous | Retryable | Blocked | Done | CorruptCopy | ManualRequired

  datatype OpStatus =
    | Acquired | PossiblySent
    | Applied | RejectedRetryable | RejectedBlocked | Abandoned | BlockedOp | Corrupt | Manual

  datatype Certainty = NotDispatched | MaybeSent | SettledApplied | SettledNotApplied | Unresolved

  datatype Outcome =
    | WasApplied | WasReused | RetryableRejection | BlockedRejection | AbandonedPreMarker
    | DuplicateMetadata | ConflictingMetadata | SchemaConflict | LocalCorrupt | OperatorUnresolved

  datatype Code =
    | TemplateDrift | MetadataConflict | NotFound | InvalidRequest | Unauthenticated | PermissionDenied
    | RateLimited | Aborted | AmbiguousCode
    | OutcomeCode(outcome: Outcome)

  datatype Finding = Exact | Absent | Duplicate | Conflict | Unavailable

  datatype EventKind =
    | LeaseAcquired | Preflight(seen: Finding) | DispatchMarked | TransportAmbiguous | Probed(found: Finding)
    | TrustedRejection | Finalized | OperatorManual | LeaseExpiredPreMarker | OperatorCorrected

  datatype LeaseMode = Mutate | ReadOnlyProbe
  datatype LeaseStatus = Active | Released | Expired

  datatype Operation = Operation(
    target: nat, subject: SubjectId, ordinal: nat,
    status: OpStatus, certainty: Certainty, fence: nat, lease: nat,
    dispatchAt: Option<int>, preflightEvent: Option<nat>,
    finishedAt: Option<int>, outcome: Option<Outcome>, code: Option<Code>, settlement: Option<nat>)

  datatype LeaseRow = LeaseRow(
    op: nat, fence: nat, token: nat, mode: LeaseMode, acquiredAt: int, expiresAt: int,
    status: LeaseStatus, reason: Option<EventKind>)

  datatype Event = Event(op: nat, fence: nat, kind: EventKind, code: Option<Code>, at: int)
  datatype Probe = Probe(op: nat, fence: nat, found: Finding, matching: nat)
  datatype Settlement = Settlement(
    op: nat, fence: nat, opStatus: OpStatus, outcome: Outcome, subjectStatus: SubjectStatus,
    leaseStatus: LeaseStatus, leaseReason: EventKind)

  datatype Subject = Subject(status: SubjectStatus, retryAt: Option<int>, code: Option<Code>, doneAt: Option<int>)

  /** `bindings` maps a handoff to its target; `oracles` and `controls` hold the fingerprints of a target. */
  datatype Db = Db(
    ops: seq<Operation>, leases: seq<LeaseRow>, events: seq<Event>, probes: seq<Probe>,
    settlements: seq<Settlement>, subjects: map<SubjectId, Subject>, bindings: map<nat, nat>,
    oracles: map<nat, nat>, controls: map<nat, nat>)

  /** The lease object that a worker keeps; it may be stale. */
  datatype Lease = Lease(op: nat, fence: nat, id: nat, token: nat, mode: LeaseMode)

  datatype Grant = Granted(lease: Lease) | Refused | Invalid

  /** What a method answers: True, False, or an exception that rolls the transaction back. */
  datatype Reply = Yes | No | Raised

  const CREDENTIAL_MARGIN_US: int := 255_000_000

  // ---------------------------------------------------------------- the tables of outcomes

  function StatusOf(o: Outcome): OpStatus {
    match o
    case WasApplied => Applied
    case WasReused => Applied
    case RetryableRejection => RejectedRetryable
    case BlockedRejection => RejectedBlocked
    case AbandonedPreMarker => Abandoned
    case DuplicateMetadata => BlockedOp
    case ConflictingMetadata => BlockedOp
    case SchemaConflict => BlockedOp
    case LocalCorrupt => Corrupt
    case OperatorUnresolved => Manual
  }

  function CertaintyOf(o: Outcome): Certainty {
    match o
    case WasApplied => SettledApplied
    case WasReused => SettledApplied
    case RetryableRejection => SettledNotApplied
    case BlockedRejection => SettledNotApplied
    case AbandonedPreMarker => NotDispatched
    case DuplicateMetadata => SettledApplied
    case ConflictingMetadata => SettledApplied
    case SchemaConflict => SettledNotApplied
    case LocalCorrupt => SettledNotApplied
    case OperatorUnresolved => Unresolved
  }

  function SubjectAfter(id: SubjectId, o: Outcome): SubjectStatus {
    match o
    case WasApplied => Done
    case WasReused => Done
    case RetryableRejection => Retryable
    case AbandonedPreMarker => Retryable
    case LocalCorrupt => if id.OnHandoff? then CorruptCopy else Blocked
    case OperatorUnresolved => ManualRequired
    case _ => Blocked
  }

  predicate Correctable(c: Code) {
    c in {TemplateDrift, MetadataConflict, NotFound, InvalidRequest, Unauthenticated, PermissionDenied,
          OutcomeCode(SchemaConflict)}
  }

  predicate RejectionCodeFits(retryable: bool, c: Code) {
    if retryable then c in {Aborted, RateLimited}
    else c in {TemplateDrift, MetadataConflict, NotFound, InvalidRequest, Unauthenticated, PermissionDenied}
  }

  /** Absorbing subject statuses. */
  predicate Final(st: SubjectStatus) { st in {Done, CorruptCopy, ManualRequired} }

  // ---------------------------------------------------------------- queries

  predicate Unfinished(s: Db, op: nat) { op < |s.ops| && s.ops[op].finishedAt.None? }

  predicate TargetBusy(s: Db, target: nat) {
    exists i | 0 <= i < |s.ops| :: Unfinished(s, i) && s.ops[i].target == target
  }

  predicate Owns(s: Db, l: Lease) {
    && l.id < |s.leases|
    && s.leases[l.id].op == l.op
    && s.leases[l.id].fence == l.fence
    && s.leases[l.id].status == Active
    && s.leases[l.id].token == l.token
  }

  predicate HasEvent(s: Db, op: nat, fence: nat, kind: EventKind) {
    exists j | 0 <= j < |s.events| :: s.events[j].op == op && s.events[j].fence == fence && s.events[j].kind == kind
  }

  predicate HasPreflight(s: Db, op: nat, fence: nat) {
    || HasEvent(s, op, fence, Preflight(Exact))
    || HasEvent(s, op, fence, Preflight(Absent))
    || HasEvent(s, op, fence, Preflight(Conflict))
  }

  predicate HasProbe(s: Db, op: nat, fence: nat, found: Finding) {
    exists j | 0 <= j < |s.probes| :: s.probes[j].op == op && s.probes[j].fence == fence && s.probes[j].found == found
  }

  /** The newest event of this kind among the first n. */
  function NewestEvent(events: seq<Event>, n: nat, op: nat, fence: nat, kind: EventKind): (r: Option<nat>)
    requires n <= |events|
    ensures r.Some? ==> r.value < n && events[r.value].op == op && events[r.value].fence == fence && events[r.value].kind == kind
    ensures r.None? ==> forall j | 0 <= j < n :: !(events[j].op == op && events[j].fence == fence && events[j].kind == kind)
    ensures r.Some? ==> forall j | r.value < j < n :: !(events[j].op == op && events[j].fence == fence && events[j].kind == kind)
  {
    if n == 0 then None
    else
      var e := events[n - 1];
      if e.op == op && e.fence == fence && e.kind == kind then Some(n - 1)
      else NewestEvent(events, n - 1, op, fence, kind)
  }

  /** A lease row that still guards an acquired, never marked operation of the target and has run out. */
  predicate ExpiredPreMarker(s: Db, id: nat, target: nat, now: int) {
    && id < |s.leases|
    && var l := s.leases[id];
    && l.status == Active && l.mode == Mutate && l.expiresAt <= now
    && Unfinished(s, l.op)
    && var o := s.ops[l.op];
    && o.target == target && o.status == Acquired && o.dispatchAt.None? && o.fence == l.fence
  }

  function FirstExpired(s: Db, target: nat, now: int, from: nat): (r: Option<nat>)
    requires from <= |s.leases|
    ensures r.Some? ==> ExpiredPreMarker(s, r.value, target, now)
    ensures r.None? ==> forall i | from <= i < |s.leases| :: !ExpiredPreMarker(s, i, target, now)
    decreases |s.leases| - from
  {
    if from == |s.leases| then None
    else if ExpiredPreMarker(s, from, target, now) then Some(from)
    else FirstExpired(s, target, now, from + 1)
  }

  predicate Startable(s: Db, id: SubjectId, now: int) {
    && id in s.subjects
    && var sub := s.subjects[id];
    && (sub.status == Fresh || (sub.status == Retryable && sub.retryAt.Some? && sub.retryAt.value <= now))
  }

  // ---------------------------------------------------------------- transitions

  function AddEvent(s: Db, op: nat, fence: nat, kind: EventKind, code: Option<Code>, now: int): Db {
    s.(events := s.events + [Event(op, fence, kind, code, now)])
  }

  /** _settle_handoff and _settle_bootstrap: only a subject with work in flight moves. */
  function SettleSubject(subjects: map<SubjectId, Subject>, id: SubjectId, o: Outcome, code: Option<Code>,
                         retryAt: Option<int>, now: int): map<SubjectId, Subject>
  {
    if id in subjects && subjects[id].status in {Working, Ambiguous} then
      var st := SubjectAfter(id, o);
      subjects[id := Subject(st,
        if st == Retryable then (if retryAt.Some? then retryAt else Some(now)) else None,
        code,
        if st == Done then Some(now) else None)]
    else subjects
  }

  /** Close the operation of a lease row with an outcome: operation, subject, lease and settlement together. */
  function Settle(s: Db, id: nat, o: Outcome, code: Option<Code>, retryAt: Option<int>, kind: EventKind,
                  eventCode: Option<Code>, closed: LeaseStatus, now: int): Db
    requires id < |s.leases| && s.leases[id].op < |s.ops|
  {
    var l := s.leases[id];
    var op := s.ops[l.op];
    var fence := l.fence;
    s.(events := s.events + [Event(l.op, fence, kind, eventCode, now)],
       ops := s.ops[l.op := op.(status := StatusOf(o), certainty := CertaintyOf(o), finishedAt := Some(now),
                                outcome := Some(o), code := code, settlement := Some(|s.settlements|))],
       subjects := SettleSubject(s.subjects, op.subject, o, code, retryAt, now),
       leases := s.leases[id := l.(status := closed, reason := Some(kind))],
       settlements := s.settlements +
         [Settlement(l.op, fence, StatusOf(o), o, SubjectAfter(op.subject, o), closed, kind)])
  }

  function EnsureBootstrap(s: Db, target: nat, controls: nat): Db {
    if OnTarget(target) in s.subjects then s
    else s.(subjects := s.subjects[OnTarget(target) := Subject(Fresh, None, None, None)],
            controls := s.controls[target := controls])
  }

  function Enqueue(s: Db, handoff: nat, target: nat): Db {
    if OnHandoff(handoff) in s.subjects then s
    else s.(subjects := s.subjects[OnHandoff(handoff) := Subject(Fresh, None, None, None)],
            bindings := s.bindings[handoff := target])
  }

  predicate CanReopen(s: Db, op: nat) {
    && op < |s.ops|
    && var o := s.ops[op];
    && o.finishedAt.Some?
    && (o.status == RejectedBlocked
        || (o.status == BlockedOp && o.outcome == Some(SchemaConflict) && o.certainty == SettledNotApplied))
    && !TargetBusy(s, o.target)
    && o.subject in s.subjects
    && s.subjects[o.subject].status == Blocked
    && s.subjects[o.subject].code.Some?
    && Correctable(s.subjects[o.subject].code.value)
  }

  function RetryBlocked(s: Db, op: nat, now: int): Db {
    if !CanReopen(s, op) then s
    else
      var o := s.ops[op];
      var sub := s.subjects[o.subject];
      s.(events := s.events + [Event(op, o.fence, OperatorCorrected, sub.code, now)],
         subjects := s.subjects[o.subject := sub.(status := Retryable, retryAt := Some(now))])
  }

  function Recover(s: Db, target: nat, now: int): Db {
    match FirstExpired(s, target, now, 0)
    case None => s
    case Some(id) =>
      Settle(s, id, AbandonedPreMarker, Some(OutcomeCode(AbandonedPreMarker)), None, LeaseExpiredPreMarker,
             Some(OutcomeCode(AbandonedPreMarker)), Expired, now)
  }

  function MaxOrdinal(ops: seq<Operation>, target: nat): nat {
    if ops == [] then 0
    else
      var rest := MaxOrdinal(ops[..|ops| - 1], target);
      var o := ops[|ops| - 1];
      if o.target == target && o.ordinal > rest then o.ordinal else rest
  }

  /** A new acquired operation with its first lease, fence one. */
  function Open(s: Db, target: nat, id: SubjectId, now: int, expiresAt: int, token: nat): Db
    requires id in s.subjects
  {
    s.(ops := s.ops + [Operation(target, id, MaxOrdinal(s.ops, target) + 1, Acquired, NotDispatched, 1, |s.leases|,
                                 None, None, None, None, None, None)],
       events := s.events + [Event(|s.ops|, 1, LeaseAcquired, None, now)],
       leases := s.leases + [LeaseRow(|s.ops|, 1, token, Mutate, now, expiresAt, Active, None)],
       subjects := s.subjects[id := Subject(Working, None, None, None)])
  }

  /** The target an acquisition works on, or None when the subject has no binding. */
  function BoundTarget(s: Db, id: SubjectId): Option<nat> {
    match id
    case OnHandoff(h) => if h in s.bindings then Some(s.bindings[h]) else None
    case OnTarget(t) => Some(t)
  }

  function AcquireInitial(s: Db, id: SubjectId, asked: Option<nat>, now: int, expiresAt: int, token: nat): (Db, Grant) {
    match BoundTarget(s, id)
    case None => (s, Refused)
    case Some(t) =>
      if asked.Some? && asked.value != t then (s, Invalid)
      else
        var s1 := Recover(s, t, now);
        if !Startable(s1, id, now) || TargetBusy(s1, t) then (s1, Refused)
        else (Open(s1, t, id, now, expiresAt, token), Granted(Lease(|s1.ops|, 1, |s1.leases|, token, Mutate)))
  }

  predicate PreflightAllowed(s: Db, l: Lease, now: int) {
    && l.mode == Mutate && Owns(s, l) && Unfinished(s, l.op)
    && var o := s.ops[l.op];
    && o.fence == l.fence && o.status == Acquired && o.dispatchAt.None?
    && s.leases[l.id].acquiredAt <= now < s.leases[l.id].expiresAt
    && !HasPreflight(s, l.op, l.fence)
  }

  function RecordPreflight(s: Db, l: Lease, seen: Finding, now: int): Db {
    if PreflightAllowed(s, l, now) then AddEvent(s, l.op, l.fence, Preflight(seen), None, now) else s
  }

  /** What the caller presents to mark_possibly_sent. */
  datatype DispatchProof = DispatchProof(oracle: nat, controls: nat, refreshedAt: int, credentialExpiresAt: int,
                                         scopeOk: bool, requestOk: bool)

  predicate ProofFresh(p: DispatchProof, now: int) {
    p.requestOk && p.scopeOk && p.refreshedAt <= now && now + CREDENTIAL_MARGIN_US <= p.credentialExpiresAt
  }

  /** Everything mark_possibly_sent checks before it looks at the lease's own expiry. */
  predicate MarkEvidence(s: Db, l: Lease, p: DispatchProof, now: int) {
    && l.mode == Mutate && ProofFresh(p, now) && Owns(s, l)
    && l.op < |s.ops|
    && var o := s.ops[l.op];
    && o.fence == l.fence
    && o.target in s.oracles && OnTarget(o.target) in s.subjects && o.target in s.controls
    && var e := NewestEvent(s.events, |s.events|, l.op, l.fence, Preflight(Absent));
    && e.Some?
    && s.oracles[o.target] == p.oracle && s.controls[o.target] == p.controls
    && s.subjects[OnTarget(o.target)].status == (if o.subject.OnHandoff? then Done else Working)
    && s.leases[l.id].acquiredAt <= s.events[e.value].at <= now
    && s.events[e.value].at < s.leases[l.id].expiresAt
  }

  function MarkedSubjects(subjects: map<SubjectId, Subject>, id: SubjectId): map<SubjectId, Subject> {
    if id in subjects && subjects[id].status == Working then subjects[id := subjects[id].(status := Ambiguous)]
    else subjects
  }

  function Marked(s: Db, l: Lease, now: int): Db
    requires l.op < |s.ops|
  {
    var o := s.ops[l.op];
    s.(events := s.events + [Event(l.op, l.fence, DispatchMarked, None, now)],
       ops := s.ops[l.op := o.(status := PossiblySent, certainty := MaybeSent, dispatchAt := Some(now),
                               preflightEvent := NewestEvent(s.events, |s.events|, l.op, l.fence, Preflight(Absent)))],
       subjects := MarkedSubjects(s.subjects, o.subject))
  }

  function MarkPossiblySent(s: Db, l: Lease, p: DispatchProof, now: int): (Db, Reply) {
    if !MarkEvidence(s, l, p, now) then (s, No)
    else if s.leases[l.id].expiresAt <= now then (Recover(s, s.ops[l.op].target, now), No)
    else if s.ops[l.op].status == Acquired && Unfinished(s, l.op) then (Marked(s, l, now), Yes)
    else (s, Raised)
  }

  /** Give up a lease without settling its operation. */
  function ReleaseLease(s: Db, l: Lease, kind: EventKind): Db
    requires l.id < |s.leases|
  {
    s.(leases := s.leases[l.id := s.leases[l.id].(status := Released, reason := Some(kind))])
  }

  function ReleasePossiblySent(s: Db, l: Lease, now: int): Db {
    if l.mode == Mutate && Owns(s, l)
    then ReleaseLease(AddEvent(s, l.op, l.fence, TransportAmbiguous, None, now), l, TransportAmbiguous)
    else s
  }

  function FirstActive(leases: seq<LeaseRow>, op: nat, from: nat): (r: Option<nat>)
    requires from <= |leases|
    ensures r.Some? ==> r.value < |leases| && leases[r.value].op == op && leases[r.value].status == Active
    ensures r.None? ==> forall i | from <= i < |leases| :: !(leases[i].op == op && leases[i].status == Active)
    decreases |leases| - from
  {
    if from == |leases| then None
    else if leases[from].op == op && leases[from].status == Active then Some(from)
    else FirstActive(leases, op, from + 1)
  }

  /** Retire the expired lease of a possibly sent operation before a probe takes over. */
  function RetireForProbe(s: Db, op: nat, fence: nat, id: nat, now: int): Db
    requires id < |s.leases|
  {
    s.(events := s.events + [Event(op, fence, Probed(Unavailable), None, now)],
       leases := s.leases[id := s.leases[id].(status := Expired, reason := Some(Probed(Unavailable)))])
  }

  function AddProbeLease(s: Db, op: nat, now: int, expiresAt: int, token: nat): (Db, Grant)
    requires op < |s.ops|
  {
    var o := s.ops[op];
    (s.(ops := s.ops[op := o.(fence := o.fence + 1, lease := |s.leases|)],
        events := s.events + [Event(op, o.fence + 1, LeaseAcquired, None, now)],
        leases := s.leases + [LeaseRow(op, o.fence + 1, token, ReadOnlyProbe, now, expiresAt, Active, None)]),
     Granted(Lease(op, o.fence + 1, |s.leases|, token, ReadOnlyProbe)))
  }

  function AcquireProbe(s: Db, op: nat, expectedFence: nat, now: int, expiresAt: int, token: nat): (Db, Grant) {
    if !(Unfinished(s, op) && s.ops[op].fence == expectedFence && s.ops[op].status == PossiblySent) then (s, Refused)
    else
      match FirstActive(s.leases, op, 0)
      case None => AddProbeLease(s, op, now, expiresAt, token)
      case Some(id) =>
        if s.leases[id].expiresAt > now then (s, Refused)
        else AddProbeLease(RetireForProbe(s, op, expectedFence, id, now), op, now, expiresAt, token)
  }

  function RecordProbe(s: Db, l: Lease, found: Finding, matching: nat, now: int): Db {
    if Owns(s, l)
    then AddEvent(s, l.op, l.fence, Probed(found), None, now).(probes := s.probes + [Probe(l.op, l.fence, found, matching)])
    else s
  }

  function ReleaseProbe(s: Db, l: Lease, found: Finding): Db {
    if l.mode == ReadOnlyProbe && Owns(s, l) && HasEvent(s, l.op, l.fence, Probed(found))
    then ReleaseLease(s, l, Probed(found))
    else s
  }

  predicate CanReject(s: Db, l: Lease, retryable: bool, code: Code, retryAt: Option<int>, now: int) {
    && l.mode == Mutate && RejectionCodeFits(retryable, code)
    && (if retryable then retryAt.Some? && now < retryAt.value else retryAt.None?)
    && Owns(s, l) && Unfinished(s, l.op)
    && s.ops[l.op].fence == l.fence && s.ops[l.op].status == PossiblySent && s.ops[l.op].certainty == MaybeSent
  }

  function SettleRejection(s: Db, l: Lease, retryable: bool, code: Code, retryAt: Option<int>, now: int): Db {
    if CanReject(s, l, retryable, code, retryAt, now)
    then Settle(s, l.id, if retryable then RetryableRejection else BlockedRejection, Some(code), retryAt,
                TrustedRejection, Some(code), Released, now)
    else s
  }

  /** The evidence that finish demands for an outcome in an operation status. */
  predicate FinishEvidence(s: Db, l: Lease, status: OpStatus, o: Outcome) {
    match (status, o)
    case (PossiblySent, OperatorUnresolved) => true
    case (Acquired, WasReused) => HasEvent(s, l.op, l.fence, Preflight(Exact))
    case (Acquired, DuplicateMetadata) => HasEvent(s, l.op, l.fence, Preflight(Conflict))
    case (Acquired, ConflictingMetadata) => HasEvent(s, l.op, l.fence, Preflight(Conflict))
    case (PossiblySent, WasApplied) => HasProbe(s, l.op, l.fence, Exact)
    case (PossiblySent, DuplicateMetadata) => HasProbe(s, l.op, l.fence, Duplicate)
    case (PossiblySent, ConflictingMetadata) => HasProbe(s, l.op, l.fence, Conflict)
    case (PossiblySent, SchemaConflict) => HasProbe(s, l.op, l.fence, Conflict)
    case (PossiblySent, LocalCorrupt) => HasProbe(s, l.op, l.fence, Conflict)
    case _ => false
  }

  predicate CanFinish(s: Db, l: Lease, o: Outcome) {
    && !o.RetryableRejection? && !o.BlockedRejection?
    && Owns(s, l) && Unfinished(s, l.op) && s.ops[l.op].fence == l.fence
    && FinishEvidence(s, l, s.ops[l.op].status, o)
  }

  function FinishEvent(o: Outcome): EventKind { if o.OperatorUnresolved? then OperatorManual else Finalized }

  function FinishCode(o: Outcome): Option<Code> {
    if o.WasApplied? || o.WasReused? then None else Some(OutcomeCode(o))
  }

  function Finish(s: Db, l: Lease, o: Outcome, now: int): Db {
    if CanFinish(s, l, o)
    then Settle(s, l.id, o, FinishCode(o), None, FinishEvent(o), Some(OutcomeCode(o)), Released, now)
    else s
  }

  // ---------------------------------------------------------------- runs

  /** One service call by any worker, with any arguments; each is one transaction. */
  datatype Call =
    | CallEnqueue(handoff: nat, to: nat)
    | CallEnsureBootstrap(target: nat, fingerprint: nat)
    | CallRetryBlocked(op: nat, now: int)
    | CallAcquireInitial(id: SubjectId, asked: Option<nat>, now: int, expiresAt: int, token: nat)
    | CallRecordPreflight(lease: Lease, seen: Finding, now: int)
    | CallMark(lease: Lease, proof: DispatchProof, now: int)
    | CallReleasePossiblySent(lease: Lease, now: int)
    | CallAcquireProbe(op: nat, expectedFence: nat, now: int, expiresAt: int, token: nat)
    | CallRecordProbe(lease: Lease, found: Finding, matching: nat, now: int)
    | CallReleaseProbe(lease: Lease, found: Finding, now: int)
    | CallSettleRejection(lease: Lease, retryable: bool, code: Code, retryAt: Option<int>, now: int)
    | CallFinish(lease: Lease, outcome: Outcome, now: int)
    | CallRecover(target: nat, now: int)

  function Step(s: Db, c: Call): Db {
    match c
    case CallEnqueue(h, t) => Enqueue(s, h, t)
    case CallEnsureBootstrap(t, f) => EnsureBootstrap(s, t, f)
    case CallRetryBlocked(op, now) => RetryBlocked(s, op, now)
    case CallAcquireInitial(id, asked, now, expiresAt, token) => AcquireInitial(s, id, asked, now, expiresAt, token).0
    case CallRecordPreflight(l, seen, now) => RecordPreflight(s, l, seen, now)
    case CallMark(l, p, now) => MarkPossiblySent(s, l, p, now).0
    case CallReleasePossiblySent(l, now) => ReleasePossiblySent(s, l, now)
    case CallAcquireProbe(op, fence, now, expiresAt, token) => AcquireProbe(s, op, fence, now, expiresAt, token).0
    case CallRecordProbe(l, found, matching, now) => RecordProbe(s, l, found, matching, now)
    case CallReleaseProbe(l, found, _) => ReleaseProbe(s, l, found)
    case CallSettleRejection(l, retryable, code, retryAt, now) => SettleRejection(s, l, retryable, code, retryAt, now)
    case CallFinish(l, o, now) => Finish(s, l, o, now)
    case CallRecover(t, now) => Recover(s, t, now)
  }

  function ReplyOf(ok: bool): Reply { if ok then Yes else No }

  function ReplyTo(g: Grant): Reply {
    match g case Granted(_) => Yes case Refused => No case Invalid => Raised
  }

  /** What the call answers: a value or a lease, a refusal, or an exception. */
  function Answer(s: Db, c: Call): Reply {
    match c
    case CallEnqueue(h, t) =>
      if OnHandoff(h) in s.subjects && !(h in s.bindings && s.bindings[h] == t) then Raised else Yes
    case CallEnsureBootstrap(t, f) =>
      if OnTarget(t) in s.subjects && !(t in s.controls && s.controls[t] == f) then Raised else Yes
    case CallRetryBlocked(op, _) => ReplyOf(CanReopen(s, op))
    case CallAcquireInitial(id, asked, now, expiresAt, token) =>
      ReplyTo(AcquireInitial(s, id, asked, now, expiresAt, token).1)
    case CallRecordPreflight(l, _, now) => ReplyOf(PreflightAllowed(s, l, now))
    case CallMark(l, p, now) => MarkPossiblySent(s, l, p, now).1
    case CallReleasePossiblySent(l, _) => ReplyOf(l.mode == Mutate && Owns(s, l))
    case CallAcquireProbe(op, fence, now, expiresAt, token) => ReplyTo(AcquireProbe(s, op, fence, now, expiresAt, token).1)
    case CallRecordProbe(l, _, _, _) => ReplyOf(Owns(s, l))
    case CallReleaseProbe(l, found, _) =>
      ReplyOf(l.mode == ReadOnlyProbe && Owns(s, l) && HasEvent(s, l.op, l.fence, Probed(found)))
    case CallSettleRejection(l, retryable, code, retryAt, now) => ReplyOf(CanReject(s, l, retryable, code, retryAt, now))
    case CallFinish(l, o, _) => ReplyOf(CanFinish(s, l, o))
    case CallRecover(_, _) => Yes
  }

  /** Any number of workers and crashes: a run is any sequence of calls. */
  function Run(s: Db, calls: seq<Call>): Db
    decreases |calls|
  {
    if calls == [] then s else Step(Run(s, calls[..|calls| - 1]), calls[|calls| - 1])
  }

  function EmptyDb(oracles: map<nat, nat>): Db {
    Db([], [], [], [], [], map[], map[], oracles, map[])
  }
}
