/**
  The dispatch half of telegram_tick as a state machine.  Any number of ticks run at
  once, each holding a lease object that may be stale; between any two transactions a
  tick may stop for ever (a crash) or be overtaken.  A tick that raises goes to Ending
  with outcome "failed", as the finally block does.
 */
module OutboxTick {
  import opened Common
  import opened OutboxModel

  datatype Tick =
    | Holding(l: StreamLease)
    | Resumed(l: StreamLease)
    | Picked(l: StreamLease, n: nat, seen: NotificationState)
    | Checked(l: StreamLease, n: nat)
    | Chunked(l: StreamLease, n: nat)
    | Chosen(l: StreamLease, n: nat, index: nat)
    | PreparedAt(l: StreamLease, n: nat, index: nat, a: nat)
    | Unlinked(l: StreamLease, n: nat, index: nat, a: nat)
    | MarkedAt(l: StreamLease, n: nat, index: nat, a: nat)
    | SentAt(l: StreamLease, a: nat)
    | Ending(l: StreamLease, done: bool)
    | Over(l: StreamLease)

  /** What the world decides for a tick: go on, raise, the computed chunks, a callback not linked, or the attempt's outcome. */
  datatype Choice = Proceed | Fail | AdmissionOnly | Chunks(metas: seq<ChunkMeta>) | LinkFailed | Resolved(v: Verdict)

  predicate HasButtons(s: Db, n: nat, index: nat) {
    n in s.chunks && index < |s.chunks[n]| && s.chunks[n][index].buttons
  }

  /** The next database, the next tick state, and the attempt whose message is sent, if any. */
  function Advance(s: Db, t: Tick, now: int, c: Choice): (Db, Tick, Option<nat>) {
    if t.Over? then (s, t, None)
    else if t.Ending? then (ReleaseLease(s, t.l, now, t.done), Over(t.l), None)
    else if c == Fail then (s, Ending(t.l, false), None)
    else
      match t
      case Holding(l) =>
        if c == AdmissionOnly then (s, Ending(l, true), None)
        else if Current(s, l, now) then (s, Resumed(l), None) else (s, Ending(l, false), None)
      case Resumed(l) =>
        var (s1, got) := ClaimNext(s, l, now);
        (match got
         case Raised => (s1, Ending(l, false), None)
         case Nothing => (s1, Ending(l, true), None)
         case Got(n) => (s1, if n < |s1.outbox| then Picked(l, n, s1.outbox[n].state) else Ending(l, false), None))
      case Picked(l, n, seen) =>
        if seen != Sending then (s, Checked(l, n), None)
        else
          var (s1, got) := RecoverPossiblySent(s, n, l, now);
          (s1, match got case Raised => Ending(l, false) case Nothing => Checked(l, n) case Got(_) => Ending(l, true), None)
      case Checked(l, n) =>
        if !c.Chunks? then (s, Ending(l, false), None)
        else
          var (s1, got) := CreateChunks(s, n, c.metas);
          (s1, if got.Got? then Chunked(l, n) else Ending(l, false), None)
      case Chunked(l, n) =>
        (match NextChunk(s, n, l, now)
         case Raised => (s, Ending(l, false), None)
         case Nothing => (s, Ending(l, true), None)
         case Got(i) => (s, Chosen(l, n, i), None))
      case Chosen(l, n, i) =>
        var (s1, got) := PrepareAttempt(s, n, i, l, now);
        (s1, if got.Got? then PreparedAt(l, n, i, got.value) else Ending(l, false), None)
      case PreparedAt(l, n, i, a) =>
        if c == Resolved(Abandon) then
          var (s1, got) := SettleAttempt(s, a, Abandon, l, now);
          (s1, Ending(l, got.Got?), None)
        else if c == LinkFailed && HasButtons(s, n, i) then (s, Unlinked(l, n, i, a), None)
        else
          var (s1, got) := MarkAttempt(s, a, l, now);
          (s1, if got.Got? then MarkedAt(l, n, i, a) else Ending(l, false), None)
      case Unlinked(l, n, i, a) =>
        var (s1, got) := SettleAttempt(s, a, Abandon, l, now);
        (s1, Ending(l, got.Got?), None)
      case MarkedAt(l, n, i, a) => (s, SentAt(l, a), Some(a))
      case SentAt(l, a) =>
        if !c.Resolved? || c.v.Abandon? then (s, Ending(l, false), None)
        else
          var (s1, got) := SettleAttempt(s, a, c.v, l, now);
          (s1, Ending(l, got.Got?), None)
  }

  /** `log` lists the attempts whose message was handed to the remote service, in order. */
  datatype World = World(db: Db, ticks: seq<Tick>, log: seq<nat>)

  datatype Action =
    | Begin(owner: nat, now: int, seconds: int)
    | Move(tick: nat, now: int, choice: Choice)
    | Intent(noonDigest: bool)
    | Operator(n: nat, expected: NotificationState, delivered: bool)
    | OtherAcquire(stream: Stream, owner: nat, now: int, seconds: int)
    | OtherRelease(lease: StreamLease, now: int, done: bool)

  function Act(w: World, act: Action): World {
    match act
    case Begin(owner, now, seconds) =>
      var (s1, lease) := AcquireLease(w.db, TelegramDispatch, owner, now, seconds);
      if lease.None? then w else w.(db := s1, ticks := w.ticks + [Holding(lease.value)])
    case Move(t, now, c) =>
      if t >= |w.ticks| then w
      else
        var (s1, t1, sent) := Advance(w.db, w.ticks[t], now, c);
        World(s1, w.ticks[t := t1], if sent.Some? then w.log + [sent.value] else w.log)
    case Intent(noon) => w.(db := Enqueue(w.db, noon))
    case Operator(n, expected, delivered) => w.(db := Resolve(w.db, n, expected, delivered))
    case OtherAcquire(stream, owner, now, seconds) =>
      if stream == TelegramDispatch then w else w.(db := AcquireLease(w.db, stream, owner, now, seconds).0)
    case OtherRelease(l, now, done) =>
      if l.stream == TelegramDispatch then w else w.(db := ReleaseLease(w.db, l, now, done))
  }

  function Run(w: World, acts: seq<Action>): World
    decreases |acts|
  {
    if acts == [] then w else Act(Run(w, acts[..|acts| - 1]), acts[|acts| - 1])
  }

  const START: World := World(EMPTY, [], [])

  // ---------------------------------------------------------------- invariants of the database

  ghost predicate RunsOk(s: Db) {
    && (forall i, j | 0 <= i < j < |s.runs| && s.runs[i].stream == s.runs[j].stream :: s.runs[i].fence < s.runs[j].fence)
    && (forall st | st in s.leases :: s.leases[st].fence == MaxFence(s.runs, st))
    && (forall i | 0 <= i < |s.runs| && !s.runs[i].finished ::
          && s.runs[i].stream in s.leases
          && s.leases[s.runs[i].stream].fence == s.runs[i].fence
          && s.leases[s.runs[i].stream].owner == s.runs[i].owner)
  }

  ghost predicate ChunksOk(s: Db) {
    forall n | n in s.chunks :: n < |s.outbox| && |s.chunks[n]| > 0
  }

  ghost predicate AttemptOk(s: Db, a: nat)
    requires a < |s.attempts|
  {
    var t := s.attempts[a];
    && t.notification in s.chunks && t.notification < |s.outbox| && t.index < |s.chunks[t.notification]|
    && t.fence <= MaxFence(s.runs, TelegramDispatch)
    && (IsOpen(t) ==> s.outbox[t.notification].state == Sending)
    && (t.state == Prepared ==> Holds(s, StreamLease(TelegramDispatch, t.owner, t.fence)))
    && (t.state == AmbiguousAttempt ==>
          s.outbox[t.notification].state in {AmbiguousSend, PartialManual, ResolvedDelivered, ResolvedAbandoned})
    && (IsOpen(t) || t.state == Accepted ==> forall j | 0 <= j < t.index :: ChunkAccepted(s, t.notification, j))
  }

  ghost predicate AttemptsOk(s: Db) {
    forall a | 0 <= a < |s.attempts| :: AttemptOk(s, a)
  }

  ghost predicate SameChunk(s: Db, a: nat, b: nat)
    requires a < |s.attempts| && b < |s.attempts|
  {
    s.attempts[a].notification == s.attempts[b].notification && s.attempts[a].index == s.attempts[b].index
  }

  predicate Harmless(st: AttemptState) { st == TrustedRejected || st == AbandonedPreMarker }

  /** An earlier attempt on the same chunk was rejected for certain or never marked. */
  ghost predicate ChunkOrder(s: Db) {
    forall a, b | 0 <= a < b < |s.attempts| && SameChunk(s, a, b) :: Harmless(s.attempts[a].state)
  }

  ghost predicate OneOpen(s: Db) {
    forall a, b | 0 <= a < b < |s.attempts| && IsOpen(s.attempts[a]) && IsOpen(s.attempts[b]) ::
      s.attempts[a].notification != s.attempts[b].notification
  }

  ghost predicate SentIff(s: Db) {
    forall n | 0 <= n < |s.outbox| :: s.outbox[n].state == Sent <==> AllAccepted(s, n)
  }

  ghost predicate DbInv(s: Db) {
    RunsOk(s) && ChunksOk(s) && AttemptsOk(s) && ChunkOrder(s) && OneOpen(s) && SentIff(s)
  }

  // ---------------------------------------------------------------- what a tick knows

  ghost predicate NoPrepared(s: Db, l: StreamLease) {
    forall a | 0 <= a < |s.attempts| && OwnAttempt(s, a, l) :: s.attempts[a].state != Prepared
  }

  ghost predicate NoOpen(s: Db, n: nat) {
    forall a | 0 <= a < |s.attempts| && s.attempts[a].notification == n :: !IsOpen(s.attempts[a])
  }

  ghost predicate Ready(s: Db, n: nat) {
    n < |s.outbox| && s.outbox[n].state in {Claimed, Sending} && NoOpen(s, n)
  }

  predicate WasMarked(st: AttemptState) { !(st in {Prepared, AbandonedPreMarker}) }

  /** The attempt is prepared, and no other one of the lease is. */
  ghost predicate OnlyPrepared(s: Db, l: StreamLease, n: nat, a: nat) {
    && OwnAttempt(s, a, l) && s.attempts[a].state == Prepared && s.attempts[a].notification == n
    && forall b | 0 <= b < |s.attempts| && b != a && OwnAttempt(s, b, l) :: s.attempts[b].state != Prepared
  }

  /** True as long as the tick's lease row is still its own. */
  ghost predicate Knows(s: Db, t: Tick) {
    match t
    case Holding(l) => NoPrepared(s, l)
    case Resumed(l) => NoPrepared(s, l)
    case Picked(l, n, seen) =>
      NoPrepared(s, l) && n < |s.outbox| && s.outbox[n].state == seen && seen in {Claimed, Sending}
    case Checked(l, n) => NoPrepared(s, l) && Ready(s, n)
    case Chunked(l, n) => NoPrepared(s, l) && Ready(s, n) && n in s.chunks
    case Chosen(l, n, i) =>
      && NoPrepared(s, l) && Ready(s, n) && n in s.chunks
      && i < |s.chunks[n]| && !ChunkAccepted(s, n, i) && forall j | 0 <= j < i :: ChunkAccepted(s, n, j)
    case PreparedAt(l, n, i, a) => OnlyPrepared(s, l, n, a)
    case Unlinked(l, n, i, a) => OnlyPrepared(s, l, n, a)
    case MarkedAt(l, n, i, a) => NoPrepared(s, l) && OwnAttempt(s, a, l) && s.attempts[a].state == PossiblySent
    case SentAt(l, a) => NoPrepared(s, l) && OwnAttempt(s, a, l) && s.attempts[a].state == PossiblySent
    case Ending(l, done) => done ==> NoPrepared(s, l)
    case Over(_) => true
  }

  ghost predicate TickOk(s: Db, t: Tick) {
    && t.l.stream == TelegramDispatch
    && t.l.fence <= MaxFence(s.runs, TelegramDispatch)
    && (Holds(s, t.l) && !t.Over? ==> Knows(s, t))
    && (t.MarkedAt? || t.SentAt? ==> OwnAttempt(s, t.a, t.l) && WasMarked(s.attempts[t.a].state))
  }

  ghost predicate TicksOk(w: World) {
    && (forall t | 0 <= t < |w.ticks| :: TickOk(w.db, w.ticks[t]))
    && (forall t, u | 0 <= t < u < |w.ticks| :: w.ticks[t].l.fence != w.ticks[u].l.fence)
  }

  /** A message is sent once for each marked attempt. */
  ghost predicate LogOk(w: World) {
    && (forall k | 0 <= k < |w.log| :: w.log[k] < |w.db.attempts| && WasMarked(w.db.attempts[w.log[k]].state))
    && (forall k, m | 0 <= k < m < |w.log| :: w.log[k] != w.log[m])
    && (forall t, k | 0 <= t < |w.ticks| && w.ticks[t].MarkedAt? && 0 <= k < |w.log| :: w.log[k] != w.ticks[t].a)
  }

  ghost predicate Inv(w: World) {
    DbInv(w.db) && TicksOk(w) && LogOk(w)
  }
}
