/**
  The rows that ride along in the same transactions: the events of notifications and attempts, the
  operator's resolutions, and the callback tokens behind the buttons of a message.
 */
module OutboxJournal {
  import opened Common
  import opened OutboxModel
  import opened OutboxTick

  datatype EventKind =
    | EClaimed | EPrepared | ELinked | EAccepted | ERejected | EAmbiguous | EPartial | ECanceled | EDelivered | EAbandoned

  /** telegram_notification_events and telegram_chunk_attempt_events. */
  datatype Event = Event(notification: nat, attempt: Option<nat>, kind: EventKind)
  datatype AttemptEvent = AttemptEvent(attempt: nat, state: AttemptState)

  datatype Resolution = Resolution(notification: nat, prior: NotificationState, delivered: bool)

  datatype Link = Link(notification: nat, attempt: nat)
  datatype Callback = Callback(link: Option<Link>, consumed: bool, revoked: bool)

  datatype Journal = Journal(
    events: seq<Event>, attemptEvents: seq<AttemptEvent>, resolutions: seq<Resolution>, callbacks: seq<Callback>)

  const BLANK: Journal := Journal([], [], [], [])

  // ---------------------------------------------------------------- callback tokens

  /** Unconsumed tokens of an attempt are revoked. */
  function RevokeAttempt(cs: seq<Callback>, a: nat): (r: seq<Callback>)
    ensures |r| == |cs|
  {
    seq(|cs|, k requires 0 <= k < |cs| =>
      if cs[k].link.Some? && cs[k].link.value.attempt == a && !cs[k].consumed then cs[k].(revoked := true) else cs[k])
  }

  function RevokeNotification(cs: seq<Callback>, n: nat): (r: seq<Callback>)
    ensures |r| == |cs|
  {
    seq(|cs|, k requires 0 <= k < |cs| =>
      if cs[k].link.Some? && cs[k].link.value.notification == n && !cs[k].consumed then cs[k].(revoked := true) else cs[k])
  }

  function RevokeUnmarked(s: Db, cs: seq<Callback>, owner: nat, fence: nat): (r: seq<Callback>)
    ensures |r| == |cs|
  {
    seq(|cs|, k requires 0 <= k < |cs| =>
      if cs[k].link.Some? && Unmarked(s, cs[k].link.value.attempt, owner, fence) && !cs[k].consumed
      then cs[k].(revoked := true) else cs[k])
  }

  predicate Linkable(j: Journal, k: nat) { k < |j.callbacks| && j.callbacks[k].link.None? }

  /** link_callback, once the lease was found current. */
  function LinkJournal(j: Journal, k: nat, n: nat, a: nat): Journal
    requires Linkable(j, k)
  {
    j.(callbacks := j.callbacks[k := j.callbacks[k].(link := Some(Link(n, a)))], events := j.events + [Event(n, Some(a), ELinked)])
  }

  /** A press of the button takes effect: the token is live, and its notification may have reached the chat. */
  predicate Actable(s: Db, j: Journal, k: nat) {
    && k < |j.callbacks| && j.callbacks[k].link.Some? && !j.callbacks[k].consumed && !j.callbacks[k].revoked
    && j.callbacks[k].link.value.notification < |s.outbox|
    && s.outbox[j.callbacks[k].link.value.notification].state in {Sent, AmbiguousSend, ResolvedDelivered}
  }

  // ---------------------------------------------------------------- recovery of unmarked attempts

  function AbandonEvents(s: Db, owner: nat, fence: nat, n: nat): seq<AttemptEvent> {
    if n == 0 then []
    else AbandonEvents(s, owner, fence, n - 1) + if Unmarked(s, n - 1, owner, fence) then [AttemptEvent(n - 1, AbandonedPreMarker)] else []
  }

  /** The first unmarked attempt of a notification among the first n attempts. */
  function FirstUnmarked(s: Db, m: nat, owner: nat, fence: nat, n: nat): (r: Option<nat>)
    requires n <= |s.attempts|
    ensures r.Some? ==> r.value < n && Unmarked(s, r.value, owner, fence) && s.attempts[r.value].notification == m
  {
    if n == 0 then None
    else
      var rest := FirstUnmarked(s, m, owner, fence, n - 1);
      if rest.Some? then rest
      else if Unmarked(s, n - 1, owner, fence) && s.attempts[n - 1].notification == m then Some(n - 1) else None
  }

  /** The event of a notification that was delivered in part. */
  function PartialEvent(s: Db, owner: nat, fence: nat, m: nat): seq<Event> {
    if HasUnmarked(s, m, owner, fence) && HasAccepted(s, m)
    then [Event(m, FirstUnmarked(s, m, owner, fence, |s.attempts|), EPartial)] else []
  }

  function PartialEvents(s: Db, owner: nat, fence: nat, n: nat): seq<Event> {
    if n == 0 then [] else PartialEvents(s, owner, fence, n - 1) + PartialEvent(s, owner, fence, n - 1)
  }

  function RecoverJournal(s: Db, j: Journal, owner: nat, fence: nat): Journal {
    j.(attemptEvents := j.attemptEvents + AbandonEvents(s, owner, fence, |s.attempts|),
       callbacks := RevokeUnmarked(s, j.callbacks, owner, fence),
       events := j.events + PartialEvents(s, owner, fence, |s.outbox|))
  }

  function AcquireJournal(s: Db, j: Journal, stream: Stream, owner: nat, now: int, seconds: int): Journal {
    if stream == TelegramDispatch && stream in s.leases && AcquireLease(s, stream, owner, now, seconds).1.Some?
    then RecoverJournal(s, j, s.leases[stream].owner, s.leases[stream].fence) else j
  }

  function ReleaseJournal(s: Db, j: Journal, l: StreamLease, done: bool): Journal {
    if l.stream == TelegramDispatch && !done then RecoverJournal(s, j, l.owner, l.fence) else j
  }

  // ---------------------------------------------------------------- the outbox

  function ClaimJournal(s: Db, j: Journal, l: StreamLease, now: int): Journal {
    var (_, got) := ClaimNext(s, l, now);
    if got.Got? && got.value < |s.outbox| && s.outbox[got.value].state == Pending
    then j.(events := j.events + [Event(got.value, None, EClaimed)]) else j
  }

  function RecoverSentJournal(s: Db, j: Journal, n: nat, l: StreamLease, now: int): Journal {
    var (_, got) := RecoverPossiblySent(s, n, l, now);
    if got.Got?
    then j.(attemptEvents := j.attemptEvents + [AttemptEvent(got.value, AmbiguousAttempt)],
            events := j.events + [Event(n, Some(got.value), EAmbiguous)])
    else j
  }

  function PrepareJournal(s: Db, j: Journal, n: nat, index: nat, l: StreamLease, now: int): Journal {
    var (_, got) := PrepareAttempt(s, n, index, l, now);
    if got.Got? then j.(events := j.events + [Event(n, Some(got.value), EPrepared)]) else j
  }

  function StateEvents(n: nat, a: nat, st: NotificationState): seq<Event> {
    match st
    case PartialManual => [Event(n, Some(a), EPartial)]
    case AmbiguousSend => [Event(n, Some(a), EAmbiguous)]
    case Canceled => [Event(n, Some(a), ECanceled)]
    case _ => []
  }

  function OutcomeEvents(n: nat, a: nat, v: Verdict): seq<Event> {
    match v
    case Accept => [Event(n, Some(a), EAccepted)]
    case Reject(_) => [Event(n, Some(a), ERejected)]
    case Unknown => [Event(n, Some(a), EAmbiguous)]
    case Abandon => []
  }

  /** An acceptance writes its outcome; every other verdict also the state it leaves, unless that is pending. */
  function SettleJournal(s: Db, j: Journal, a: nat, v: Verdict, l: StreamLease, now: int): Journal {
    if !SettleAttempt(s, a, v, l, now).1.Got? then j
    else
      var n := s.attempts[a].notification;
      var s1 := s.(attempts := s.attempts[a := s.attempts[a].(state := AttemptAfter(v))]);
      var after := if v.Accept? then [] else StateEvents(n, a, StateAfter(s.outbox[n].noonDigest, HasAccepted(s1, n), v));
      j.(events := j.events + OutcomeEvents(n, a, v) + after,
         attemptEvents := j.attemptEvents + if v.Abandon? then [AttemptEvent(a, AbandonedPreMarker)] else [],
         callbacks := if v.Abandon? || v.Reject? then RevokeAttempt(j.callbacks, a) else j.callbacks)
  }

  function ResolveJournal(s: Db, j: Journal, n: nat, expected: NotificationState, delivered: bool): Journal {
    if n < |s.outbox| && expected in {AmbiguousSend, PartialManual} && s.outbox[n].state == expected
    then j.(resolutions := j.resolutions + [Resolution(n, expected, delivered)],
            callbacks := if delivered then j.callbacks else RevokeNotification(j.callbacks, n),
            events := j.events + [Event(n, None, if delivered then EDelivered else EAbandoned)])
    else j
  }

  // ---------------------------------------------------------------- runs

  function AdvanceJournal(s: Db, j: Journal, t: Tick, now: int, c: Choice): Journal {
    if t.Over? then j
    else if t.Ending? then ReleaseJournal(s, j, t.l, t.done)
    else if c == Fail then j
    else
      match t
      case Resumed(l) => ClaimJournal(s, j, l, now)
      case Picked(l, n, seen) => if seen == Sending then RecoverSentJournal(s, j, n, l, now) else j
      case Chosen(l, n, i) => PrepareJournal(s, j, n, i, l, now)
      case PreparedAt(l, _, _, a) => if c == Resolved(Abandon) then SettleJournal(s, j, a, Abandon, l, now) else j
      case Unlinked(l, _, _, a) => SettleJournal(s, j, a, Abandon, l, now)
      case SentAt(l, a) => if c.Resolved? && !c.v.Abandon? then SettleJournal(s, j, a, c.v, l, now) else j
      case _ => j
  }

  function Note(w: World, j: Journal, act: Action): Journal {
    match act
    case Begin(owner, now, seconds) => AcquireJournal(w.db, j, TelegramDispatch, owner, now, seconds)
    case Move(t, now, c) => if t < |w.ticks| then AdvanceJournal(w.db, j, w.ticks[t], now, c) else j
    case Operator(n, expected, delivered) => ResolveJournal(w.db, j, n, expected, delivered)
    case _ => j
  }

  datatype Office = Office(world: World, journal: Journal)

  /** Tokens are issued, revoked and pressed elsewhere; a tick links them to the attempt it has prepared. */
  datatype Doing = Core(act: Action) | LinkNext(tick: nat, k: nat, now: int) | Issue | Revoke(k: nat) | Press(k: nat)

  /** A token that cannot be linked sends the tick to abandon its attempt; a stale lease makes it fail. */
  function LinkStep(o: Office, t: nat, k: nat, now: int): Office {
    if t >= |o.world.ticks| || !o.world.ticks[t].PreparedAt? then o
    else
      var me := o.world.ticks[t];
      if !HasButtons(o.world.db, me.n, me.index) then o
      else if !Current(o.world.db, me.l, now) then o.(world := Act(o.world, Move(t, now, Fail)))
      else if Linkable(o.journal, k) then o.(journal := LinkJournal(o.journal, k, me.n, me.a))
      else o.(world := Act(o.world, Move(t, now, LinkFailed)))
  }

  function Do(o: Office, d: Doing): Office {
    match d
    case Core(act) => Office(Act(o.world, act), Note(o.world, o.journal, act))
    case LinkNext(t, k, now) => LinkStep(o, t, k, now)
    case Issue => o.(journal := o.journal.(callbacks := o.journal.callbacks + [Callback(None, false, false)]))
    case Revoke(k) =>
      if k < |o.journal.callbacks|
      then o.(journal := o.journal.(callbacks := o.journal.callbacks[k := o.journal.callbacks[k].(revoked := true)])) else o
    case Press(k) =>
      if Actable(o.world.db, o.journal, k)
      then o.(journal := o.journal.(callbacks := o.journal.callbacks[k := o.journal.callbacks[k].(consumed := true)])) else o
  }

  const OPENED: Office := Office(START, BLANK)

  function Days(doings: seq<Doing>): Office
    decreases |doings|
  {
    if doings == [] then OPENED else Do(Days(doings[..|doings| - 1]), doings[|doings| - 1])
  }
}
