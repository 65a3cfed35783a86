/**
  Stream leases and the Telegram outbox of AutomationAuthority.  Each function gives the
  database that one transaction leaves behind.  Row ids are positions in append-only
  tables, a chunk is named by its notification and index, owners are opaque token hashes.
 */
module OutboxModel {
  import opened Common

  datatype Stream = Collect | ApprovalPoll | TelegramDispatch | SheetsDelivery

  datatype NotificationState =
    | Pending | Claimed | Sending | Sent | Canceled | AmbiguousSend | PartialManual
    | ResolvedDelivered | ResolvedAbandoned

  datatype AttemptState = Prepared | PossiblySent | Accepted | TrustedRejected | AmbiguousAttempt | AbandonedPreMarker

  datatype StreamRow = StreamRow(owner: nat, fence: nat, expiresAt: int)
  datatype StreamRun = StreamRun(stream: Stream, owner: nat, fence: nat, finished: bool)
  datatype Notification = Notification(noonDigest: bool, state: NotificationState)
  datatype ChunkMeta = ChunkMeta(utf16Length: int, digest: nat, buttons: bool)
  datatype Attempt = Attempt(notification: nat, index: nat, ordinal: nat, owner: nat, fence: nat, state: AttemptState)

  datatype Db = Db(
    leases: map<Stream, StreamRow>, runs: seq<StreamRun>,
    outbox: seq<Notification>, chunks: map<nat, seq<ChunkMeta>>, attempts: seq<Attempt>)

  /** The lease object a worker keeps. */
  datatype StreamLease = StreamLease(stream: Stream, owner: nat, fence: nat)

  // ---------------------------------------------------------------- queries

  /** The lease row is still this worker's, whatever its clock says. */
  predicate Holds(s: Db, l: StreamLease) {
    && l.stream in s.leases && s.leases[l.stream].owner == l.owner && s.leases[l.stream].fence == l.fence
  }

  /** _current_lease: held and not run out. */
  predicate Current(s: Db, l: StreamLease, now: int) {
    Holds(s, l) && s.leases[l.stream].expiresAt > now
  }

  function MaxFence(runs: seq<StreamRun>, stream: Stream): (m: nat)
    ensures forall i | 0 <= i < |runs| && runs[i].stream == stream :: runs[i].fence <= m
  {
    if runs == [] then 0
    else
      var rest := MaxFence(runs[..|runs| - 1], stream);
      var r := runs[|runs| - 1];
      if r.stream == stream && r.fence > rest then r.fence else rest
  }

  predicate IsOpen(a: Attempt) { a.state == Prepared || a.state == PossiblySent }

  predicate HasAccepted(s: Db, n: nat) {
    exists a | 0 <= a < |s.attempts| :: s.attempts[a].notification == n && s.attempts[a].state == Accepted
  }

  predicate ChunkAccepted(s: Db, n: nat, index: nat) {
    exists a | 0 <= a < |s.attempts| ::
      s.attempts[a].notification == n && s.attempts[a].index == index && s.attempts[a].state == Accepted
  }

  predicate AllAccepted(s: Db, n: nat) {
    n in s.chunks && forall i | 0 <= i < |s.chunks[n]| :: ChunkAccepted(s, n, i)
  }

  /** next_chunk: the first chunk from `index` on without an accepted attempt. */
  function FirstUnaccepted(s: Db, n: nat, index: nat): (r: Option<nat>)
    requires n in s.chunks && index <= |s.chunks[n]|
    ensures r.Some? ==> index <= r.value < |s.chunks[n]| && !ChunkAccepted(s, n, r.value)
    ensures r.Some? ==> forall i | index <= i < r.value :: ChunkAccepted(s, n, i)
    ensures r.None? ==> forall i | index <= i < |s.chunks[n]| :: ChunkAccepted(s, n, i)
    decreases |s.chunks[n]| - index
  {
    if index == |s.chunks[n]| then None
    else if !ChunkAccepted(s, n, index) then Some(index)
    else FirstUnaccepted(s, n, index + 1)
  }

  predicate Dispatchable(st: NotificationState) { st in {Pending, Claimed, Sending} }

  function OldestDispatchable(outbox: seq<Notification>, from: nat): (r: Option<nat>)
    requires from <= |outbox|
    ensures r.Some? ==> from <= r.value < |outbox| && Dispatchable(outbox[r.value].state)
    ensures r.Some? ==> forall i | from <= i < r.value :: !Dispatchable(outbox[i].state)
    ensures r.None? ==> forall i | from <= i < |outbox| :: !Dispatchable(outbox[i].state)
    decreases |outbox| - from
  {
    if from == |outbox| then None
    else if Dispatchable(outbox[from].state) then Some(from)
    else OldestDispatchable(outbox, from + 1)
  }

  function FirstPossiblySent(attempts: seq<Attempt>, n: nat, from: nat): (r: Option<nat>)
    requires from <= |attempts|
    ensures r.Some? ==> r.value < |attempts| && attempts[r.value].notification == n && attempts[r.value].state == PossiblySent
    ensures r.None? ==> forall a | from <= a < |attempts| :: !(attempts[a].notification == n && attempts[a].state == PossiblySent)
    decreases |attempts| - from
  {
    if from == |attempts| then None
    else if attempts[from].notification == n && attempts[from].state == PossiblySent then Some(from)
    else FirstPossiblySent(attempts, n, from + 1)
  }

  function MaxOrdinal(attempts: seq<Attempt>, n: nat, index: nat): nat {
    if attempts == [] then 0
    else
      var rest := MaxOrdinal(attempts[..|attempts| - 1], n, index);
      var a := attempts[|attempts| - 1];
      if a.notification == n && a.index == index && a.ordinal > rest then a.ordinal else rest
  }

  // ---------------------------------------------------------------- recovery of unmarked attempts

  /** An attempt of this owner and fence that was prepared but never marked. */
  predicate Unmarked(s: Db, a: nat, owner: nat, fence: nat) {
    && a < |s.attempts|
    && s.attempts[a].owner == owner && s.attempts[a].fence == fence && s.attempts[a].state == Prepared
    && s.attempts[a].notification < |s.outbox| && s.outbox[s.attempts[a].notification].state == Sending
  }

  predicate HasUnmarked(s: Db, n: nat, owner: nat, fence: nat) {
    exists a | 0 <= a < |s.attempts| :: s.attempts[a].notification == n && Unmarked(s, a, owner, fence)
  }

  function RecoveredAttempts(s: Db, owner: nat, fence: nat): (r: seq<Attempt>)
    ensures |r| == |s.attempts|
  {
    seq(|s.attempts|, a requires 0 <= a < |s.attempts| =>
      if Unmarked(s, a, owner, fence) then s.attempts[a].(state := AbandonedPreMarker) else s.attempts[a])
  }

  function RecoveredOutbox(s: Db, owner: nat, fence: nat): (r: seq<Notification>)
    ensures |r| == |s.outbox|
  {
    seq(|s.outbox|, n requires 0 <= n < |s.outbox| =>
      if HasUnmarked(s, n, owner, fence)
      then s.outbox[n].(state := if HasAccepted(s, n) then PartialManual else Pending)
      else s.outbox[n])
  }

  function RecoverPrepared(s: Db, owner: nat, fence: nat): Db {
    s.(attempts := RecoveredAttempts(s, owner, fence), outbox := RecoveredOutbox(s, owner, fence))
  }

  // ---------------------------------------------------------------- leases

  function FinishRuns(runs: seq<StreamRun>, stream: Stream, fence: nat, owner: Option<nat>): (r: seq<StreamRun>)
    ensures |r| == |runs|
  {
    seq(|runs|, i requires 0 <= i < |runs| =>
      if runs[i].stream == stream && runs[i].fence == fence && (owner.Some? ==> runs[i].owner == owner.value)
      then runs[i].(finished := true) else runs[i])
  }

  /** What a takeover does with the lease row it finds. */
  function Retire(s: Db, stream: Stream): Db
    requires stream in s.leases
  {
    var row := s.leases[stream];
    var s1 := if stream == TelegramDispatch then RecoverPrepared(s, row.owner, row.fence) else s;
    s1.(runs := FinishRuns(s.runs, stream, row.fence, None))
  }

  function Install(s: Db, stream: Stream, owner: nat, expiresAt: int): Db {
    var fence := MaxFence(s.runs, stream) + 1;
    s.(leases := s.leases[stream := StreamRow(owner, fence, expiresAt)],
       runs := s.runs + [StreamRun(stream, owner, fence, false)])
  }

  function AcquireLease(s: Db, stream: Stream, owner: nat, now: int, seconds: int): (Db, Option<StreamLease>) {
    if seconds < 1 then (s, None)
    else if stream in s.leases && s.leases[stream].expiresAt > now then (s, None)
    else
      var s1 := if stream in s.leases then Retire(s, stream) else s;
      (Install(s1, stream, owner, now + seconds * 1_000_000),
       Some(StreamLease(stream, owner, MaxFence(s1.runs, stream) + 1)))
  }

  function ReleaseLease(s: Db, l: StreamLease, now: int, done: bool): Db {
    var s1 := if l.stream == TelegramDispatch && !done then RecoverPrepared(s, l.owner, l.fence) else s;
    s1.(leases := if Current(s, l, now) then s.leases - {l.stream} else s.leases,
        runs := FinishRuns(s.runs, l.stream, l.fence, Some(l.owner)))
  }

  // ---------------------------------------------------------------- the outbox

  /** A transaction answers, finds nothing to do, or raises and is rolled back. */
  datatype Answer<+T> = Raised | Nothing | Got(value: T)

  function SetState(outbox: seq<Notification>, n: nat, st: NotificationState): (r: seq<Notification>)
    requires n < |outbox|
    ensures |r| == |outbox|
  {
    outbox[n := outbox[n].(state := st)]
  }

  /** UPDATE ... WHERE id=? AND state='sending'. */
  function MoveSending(outbox: seq<Notification>, n: nat, st: NotificationState): (r: seq<Notification>)
    ensures |r| == |outbox|
  {
    if n < |outbox| && outbox[n].state == Sending then SetState(outbox, n, st) else outbox
  }

  function Enqueue(s: Db, noonDigest: bool): Db {
    s.(outbox := s.outbox + [Notification(noonDigest, Pending)])
  }

  function ClaimNext(s: Db, l: StreamLease, now: int): (Db, Answer<nat>) {
    if !Current(s, l, now) then (s, Raised)
    else
      match OldestDispatchable(s.outbox, 0)
      case None => (s, Nothing)
      case Some(n) =>
        if s.outbox[n].state == Pending then (s.(outbox := SetState(s.outbox, n, Claimed)), Got(n)) else (s, Got(n))
  }

  function RecoverPossiblySent(s: Db, n: nat, l: StreamLease, now: int): (Db, Answer<nat>) {
    if !Current(s, l, now) then (s, Raised)
    else
      match FirstPossiblySent(s.attempts, n, 0)
      case None => (s, Nothing)
      case Some(a) =>
        (s.(attempts := s.attempts[a := s.attempts[a].(state := AmbiguousAttempt)],
            outbox := MoveSending(s.outbox, n, AmbiguousSend)), Got(a))
  }

  predicate ChunksWellFormed(metas: seq<ChunkMeta>) {
    && |metas| > 0
    && (forall i | 0 <= i < |metas| :: 1 <= metas[i].utf16Length <= 4096)
    && (forall i | 0 <= i < |metas| - 1 :: !metas[i].buttons)
  }

  function CreateChunks(s: Db, n: nat, metas: seq<ChunkMeta>): (Db, Answer<nat>) {
    if !ChunksWellFormed(metas) || n >= |s.outbox| || !Dispatchable(s.outbox[n].state) then (s, Raised)
    else if n in s.chunks then (if s.chunks[n] == metas then (s, Got(n)) else (s, Raised))
    else (s.(chunks := s.chunks[n := metas]), Got(n))
  }

  function NextChunk(s: Db, n: nat, l: StreamLease, now: int): Answer<nat> {
    if !Current(s, l, now) then Raised
    else if n !in s.chunks then Nothing
    else match FirstUnaccepted(s, n, 0) case None => Nothing case Some(i) => Got(i)
  }

  function PrepareAttempt(s: Db, n: nat, index: nat, l: StreamLease, now: int): (Db, Answer<nat>) {
    if !Current(s, l, now) || n >= |s.outbox| || !(s.outbox[n].state in {Claimed, Sending}) then (s, Raised)
    else
      (s.(outbox := SetState(s.outbox, n, Sending),
          attempts := s.attempts +
            [Attempt(n, index, MaxOrdinal(s.attempts, n, index) + 1, l.owner, l.fence, Prepared)]),
       Got(|s.attempts|))
  }

  predicate OwnAttempt(s: Db, a: nat, l: StreamLease) {
    a < |s.attempts| && s.attempts[a].owner == l.owner && s.attempts[a].fence == l.fence
  }

  function MarkAttempt(s: Db, a: nat, l: StreamLease, now: int): (Db, Answer<nat>) {
    if !Current(s, l, now) || !OwnAttempt(s, a, l) || s.attempts[a].state != Prepared then (s, Raised)
    else (s.(attempts := s.attempts[a := s.attempts[a].(state := PossiblySent)]), Got(a))
  }

  datatype Verdict = Accept | Reject(retryable: bool) | Unknown | Abandon

  function AttemptAfter(v: Verdict): AttemptState {
    match v case Accept => Accepted case Reject(_) => TrustedRejected case Unknown => AmbiguousAttempt case Abandon => AbandonedPreMarker
  }

  /** The notification's state after a verdict that is not an acceptance, given what was accepted before. */
  function StateAfter(noonDigest: bool, accepted: bool, v: Verdict): NotificationState {
    match v
    case Abandon => if accepted then PartialManual else Pending
    case Reject(retryable) =>
      if retryable && (!accepted || noonDigest) then Pending
      else if accepted then PartialManual else Canceled
    case _ => if accepted then PartialManual else AmbiguousSend
  }

  function SettleAttempt(s: Db, a: nat, v: Verdict, l: StreamLease, now: int): (Db, Answer<nat>) {
    if !Current(s, l, now) || !OwnAttempt(s, a, l) || !IsOpen(s.attempts[a])
       || s.attempts[a].notification >= |s.outbox| then (s, Raised)
    else
      var n := s.attempts[a].notification;
      var s1 := s.(attempts := s.attempts[a := s.attempts[a].(state := AttemptAfter(v))]);
      if v.Accept? then
        (if AllAccepted(s1, n) || n !in s1.chunks then s1.(outbox := MoveSending(s1.outbox, n, Sent)) else s1, Got(a))
      else
        (s1.(outbox := MoveSending(s1.outbox, n, StateAfter(s.outbox[n].noonDigest, HasAccepted(s1, n), v))), Got(a))
  }

  function Resolve(s: Db, n: nat, expected: NotificationState, delivered: bool): Db {
    if n < |s.outbox| && expected in {AmbiguousSend, PartialManual} && s.outbox[n].state == expected
    then s.(outbox := SetState(s.outbox, n, if delivered then ResolvedDelivered else ResolvedAbandoned))
    else s
  }

  const EMPTY: Db := Db(map[], [], [], map[], [])
}
