/** What each transaction writes down beside its rows: no transition goes unnoted, and nothing is noted that did not happen. */
module OutboxNotes {
  import opened Common
  import opened OutboxModel
  import opened OutboxTick
  import opened OutboxInvariant
  import opened OutboxOutcomes
  import opened OutboxJournal

  /** The tokens of one attempt that nobody pressed are revoked, or of one notification; the others stay. */
  ghost predicate Strips(j: Journal, u: Journal, these: Link -> bool) {
    && |u.callbacks| == |j.callbacks|
    && forall k | 0 <= k < |j.callbacks| ::
         u.callbacks[k] == if j.callbacks[k].link.Some? && these(j.callbacks[k].link.value) && !j.callbacks[k].consumed
                           then j.callbacks[k].(revoked := true) else j.callbacks[k]
  }

  /** What is noted of a verdict: itself, and the state in which it leaves its notification if an operator or nobody may send on. */
  ghost function VerdictNotes(n: nat, a: nat, v: Verdict, after: NotificationState): seq<Event> {
    (match v
     case Accept => [Event(n, Some(a), EAccepted)]
     case Reject(_) => [Event(n, Some(a), ERejected)]
     case Unknown => [Event(n, Some(a), EAmbiguous)]
     case Abandon => [])
    + (if v.Accept? then []
       else if after == PartialManual then [Event(n, Some(a), EPartial)]
       else if after == AmbiguousSend then [Event(n, Some(a), EAmbiguous)]
       else if after == Canceled then [Event(n, Some(a), ECanceled)]
       else [])
  }

  /** A verdict that is taken is noted with what it did; an attempt that is certainly not in the chat loses its buttons. */
  lemma {:induction false} VerdictIsNoted(s: Db, j: Journal, a: nat, v: Verdict, l: StreamLease, now: int)
    requires DbInv(s)
    ensures var (t, got) := SettleAttempt(s, a, v, l, now);
            var u := SettleJournal(s, j, a, v, l, now);
            if got.Got? then
              && a < |s.attempts| && s.attempts[a].notification < |t.outbox|
              && u.events == j.events + VerdictNotes(s.attempts[a].notification, a, v, t.outbox[s.attempts[a].notification].state)
              && u.attemptEvents == j.attemptEvents + (if v.Abandon? then [AttemptEvent(a, AbandonedPreMarker)] else [])
              && (if v.Reject? || v.Abandon? then Strips(j, u, (x: Link) => x.attempt == a) else u.callbacks == j.callbacks)
              && u.resolutions == j.resolutions
            else u == j
  {
    if SettleAttempt(s, a, v, l, now).1.Got? { assert AttemptOk(s, a); }
  }

  /** A claim of a pending notification, a preparation, and an ambiguity found after a stop are noted, each once. */
  lemma {:induction false} ClaimsAndAttemptsAreNoted(s: Db, j: Journal, n: nat, i: nat, l: StreamLease, now: int)
    ensures var (t, got) := ClaimNext(s, l, now);
            ClaimJournal(s, j, l, now) ==
            if got.Got? && t.outbox != s.outbox then j.(events := j.events + [Event(got.value, None, EClaimed)]) else j
    ensures var (t, got) := PrepareAttempt(s, n, i, l, now);
            PrepareJournal(s, j, n, i, l, now) ==
            if got.Got? then j.(events := j.events + [Event(n, Some(|s.attempts|), EPrepared)]) else j
    ensures var (t, got) := RecoverPossiblySent(s, n, l, now);
            RecoverSentJournal(s, j, n, l, now) ==
            if got.Got? then j.(attemptEvents := j.attemptEvents + [AttemptEvent(got.value, AmbiguousAttempt)],
                                events := j.events + [Event(n, Some(got.value), EAmbiguous)])
            else j
  {
    var got := ClaimNext(s, l, now).1;
    if got.Got? && s.outbox[got.value].state == Pending { assert ClaimNext(s, l, now).0.outbox[got.value].state == Claimed; }
  }

  /** An operator's decision is noted with the state it ended; an abandoned notification loses its buttons. */
  lemma ResolutionIsNoted(s: Db, j: Journal, n: nat, expected: NotificationState, delivered: bool)
    ensures var t, u := Resolve(s, n, expected, delivered), ResolveJournal(s, j, n, expected, delivered);
            if t == s then u == j
            else
              && n < |s.outbox| && u.resolutions == j.resolutions + [Resolution(n, s.outbox[n].state, delivered)]
              && u.events == j.events + [Event(n, None, if delivered then EDelivered else EAbandoned)]
              && u.attemptEvents == j.attemptEvents
              && (if delivered then u.callbacks == j.callbacks else Strips(j, u, (x: Link) => x.notification == n))
  {
  }

  /** A press takes effect, once, if and only if the button is live and its message was sent, may have been, or was confirmed. */
  lemma PressActsExactly(o: Office, k: nat)
    ensures var p := Do(o, Press(k));
            && p.world == o.world
            && (p != o <==>
                  && k < |o.journal.callbacks| && o.journal.callbacks[k].link.Some?
                  && !o.journal.callbacks[k].consumed && !o.journal.callbacks[k].revoked
                  && var n := o.journal.callbacks[k].link.value.notification;
                  n < |o.world.db.outbox| && o.world.db.outbox[n].state in {Sent, AmbiguousSend, ResolvedDelivered})
            && (p != o ==> p.journal == o.journal.(callbacks := p.journal.callbacks)
                           && p.journal.callbacks == o.journal.callbacks[k := o.journal.callbacks[k].(consumed := true)])
  {
    var p := Do(o, Press(k));
    if Actable(o.world.db, o.journal, k) { assert p.journal.callbacks[k].consumed && !o.journal.callbacks[k].consumed; }
  }

  /** A tick links a free token to the attempt that it has prepared on a chunk with buttons, while its lease runs. */
  lemma LinkedExactly(o: Office, t: nat, k: nat, now: int)
    requires t < |o.world.ticks| && o.world.ticks[t].PreparedAt?
    ensures var me, p := o.world.ticks[t], Do(o, LinkNext(t, k, now));
            var s := o.world.db;
            if me.n in s.chunks && me.index < |s.chunks[me.n]| && s.chunks[me.n][me.index].buttons
               && me.l.stream in s.leases && s.leases[me.l.stream].owner == me.l.owner && s.leases[me.l.stream].fence == me.l.fence
               && s.leases[me.l.stream].expiresAt > now && k < |o.journal.callbacks| && o.journal.callbacks[k].link.None?
            then && p.world == o.world && p.journal.events == o.journal.events + [Event(me.n, Some(me.a), ELinked)]
                 && p.journal.callbacks == o.journal.callbacks[k := o.journal.callbacks[k].(link := Some(Link(me.n, me.a)))]
                 && p.journal == o.journal.(events := p.journal.events, callbacks := p.journal.callbacks)
            else p.journal == o.journal
  {
  }

  // ---------------------------------------------------------------- takeovers

  /** An unmarked attempt of this lease, whose notification is being sent. */
  ghost predicate Unsent(s: Db, a: nat, owner: nat, fence: nat) {
    && a < |s.attempts| && s.attempts[a].owner == owner && s.attempts[a].fence == fence && s.attempts[a].state == Prepared
    && s.attempts[a].notification < |s.outbox| && s.outbox[s.attempts[a].notification].state == Sending
  }

  ghost predicate Occurs<T>(x: T, es: seq<T>) { exists i :: 0 <= i < |es| && es[i] == x }

  lemma {:induction false} AbandonsAreNoted(s: Db, owner: nat, fence: nat, n: nat)
    ensures var es := AbandonEvents(s, owner, fence, n);
            && (forall a: nat :: Occurs(AttemptEvent(a, AbandonedPreMarker), es) <==> a < n && Unsent(s, a, owner, fence))
            && (forall i | 0 <= i < |es| :: es[i].state == AbandonedPreMarker)
            && (forall i, k | 0 <= i < k < |es| :: es[i].attempt < es[k].attempt)
            && (forall i | 0 <= i < |es| :: es[i].attempt < n)
  {
    if n > 0 {
      AbandonsAreNoted(s, owner, fence, n - 1);
      var front := AbandonEvents(s, owner, fence, n - 1);
      var last := if Unmarked(s, n - 1, owner, fence) then [AttemptEvent(n - 1, AbandonedPreMarker)] else [];
      assert Unmarked(s, n - 1, owner, fence) <==> Unsent(s, n - 1, owner, fence);
      forall a: nat ensures Occurs(AttemptEvent(a, AbandonedPreMarker), front + last) <==> a < n && Unsent(s, a, owner, fence) {
        OccursAppended(AttemptEvent(a, AbandonedPreMarker), front, last);
        assert a == n - 1 && last != [] ==> last[0] == AttemptEvent(a, AbandonedPreMarker);
      }
    }
  }

  lemma OccursAppended<T>(x: T, a: seq<T>, b: seq<T>)
    ensures Occurs(x, a + b) <==> Occurs(x, a) || Occurs(x, b)
  {
    if Occurs(x, a) {
      var i :| 0 <= i < |a| && a[i] == x;
      assert (a + b)[i] == x;
    }
    if Occurs(x, b) {
      var i :| 0 <= i < |b| && b[i] == x;
      assert (a + b)[|a| + i] == x;
    }
  }

  /** A notification that goes to the operator in part, with one of its unmarked attempts. */
  ghost predicate PartNoted(s: Db, owner: nat, fence: nat, e: Event) {
    && e.kind == EPartial && e.attempt.Some? && Unsent(s, e.attempt.value, owner, fence)
    && s.attempts[e.attempt.value].notification == e.notification && PartTaken(s, e.notification)
  }

  lemma {:induction false} FirstUnmarkedIsThere(s: Db, m: nat, owner: nat, fence: nat, n: nat)
    requires n <= |s.attempts|
    ensures FirstUnmarked(s, m, owner, fence, n).None? ==>
              forall a | 0 <= a < n :: !(Unmarked(s, a, owner, fence) && s.attempts[a].notification == m)
  {
    if n > 0 { FirstUnmarkedIsThere(s, m, owner, fence, n - 1); }
  }

  /** Unsent parts of this notification go to the operator. */
  ghost predicate GoesInPart(s: Db, owner: nat, fence: nat, m: nat) {
    PartTaken(s, m) && exists a: nat :: Unsent(s, a, owner, fence) && s.attempts[a].notification == m
  }

  lemma OnePartIsNoted(s: Db, owner: nat, fence: nat, m: nat)
    ensures var es := PartialEvent(s, owner, fence, m);
            |es| == (if GoesInPart(s, owner, fence, m) then 1 else 0)
            && (es != [] ==> es[0].notification == m && PartNoted(s, owner, fence, es[0]))
  {
    FirstUnmarkedIsThere(s, m, owner, fence, |s.attempts|);
    forall a: nat ensures Unmarked(s, a, owner, fence) <==> Unsent(s, a, owner, fence) {}
    assert HasAccepted(s, m) <==> PartTaken(s, m);
  }

  /** These are, in order, one note for each of the first n notifications that goes in part. */
  ghost predicate PartNotes(s: Db, owner: nat, fence: nat, n: nat, es: seq<Event>) {
    && (forall i | 0 <= i < |es| :: PartNoted(s, owner, fence, es[i]) && es[i].notification < n)
    && (forall i, k | 0 <= i < k < |es| :: es[i].notification < es[k].notification)
    && (forall m: nat | m < n && GoesInPart(s, owner, fence, m) :: exists i :: 0 <= i < |es| && es[i].notification == m)
  }

  lemma OneMoreNoted(s: Db, owner: nat, fence: nat, n: nat, front: seq<Event>, last: seq<Event>)
    requires n > 0 && PartNotes(s, owner, fence, n - 1, front) && |last| == (if GoesInPart(s, owner, fence, n - 1) then 1 else 0)
    requires last != [] ==> last[0].notification == n - 1 && PartNoted(s, owner, fence, last[0])
    ensures PartNotes(s, owner, fence, n, front + last)
  {
    var es := front + last;
    forall m: nat | m < n && GoesInPart(s, owner, fence, m) ensures exists i :: 0 <= i < |es| && es[i].notification == m {
      if m < n - 1 {
        var i :| 0 <= i < |front| && front[i].notification == m;
        assert es[i].notification == m;
      } else {
        assert es[|front|].notification == m;
      }
    }
  }

  lemma {:induction false} PartsAreNoted(s: Db, owner: nat, fence: nat, n: nat)
    requires n <= |s.outbox|
    ensures PartNotes(s, owner, fence, n, PartialEvents(s, owner, fence, n))
  {
    if n > 0 {
      PartsAreNoted(s, owner, fence, n - 1);
      OnePartIsNoted(s, owner, fence, n - 1);
      OneMoreNoted(s, owner, fence, n, PartialEvents(s, owner, fence, n - 1), PartialEvent(s, owner, fence, n - 1));
    }
  }

  /**
    A takeover notes each attempt that it abandons once, and each notification that goes to the operator in part once;
    it strips exactly the buttons of the attempts that it abandons.
   */
  lemma {:induction false} TakeoverIsNoted(s: Db, j: Journal, owner: nat, fence: nat)
    ensures var u := RecoverJournal(s, j, owner, fence);
            && j.attemptEvents <= u.attemptEvents && j.events <= u.events && u.resolutions == j.resolutions
            && var notes, events := u.attemptEvents[|j.attemptEvents|..], u.events[|j.events|..];
            && (forall a: nat :: Occurs(AttemptEvent(a, AbandonedPreMarker), notes) <==> Unsent(s, a, owner, fence))
            && (forall i, k | 0 <= i < k < |notes| :: notes[i].attempt < notes[k].attempt)
            && PartNotes(s, owner, fence, |s.outbox|, events)
            && Strips(j, u, (x: Link) => Unsent(s, x.attempt, owner, fence))
  {
    var u := RecoverJournal(s, j, owner, fence);
    AbandonsAreNoted(s, owner, fence, |s.attempts|);
    PartsAreNoted(s, owner, fence, |s.outbox|);
    assert u.attemptEvents[|j.attemptEvents|..] == AbandonEvents(s, owner, fence, |s.attempts|);
    assert u.events[|j.events|..] == PartialEvents(s, owner, fence, |s.outbox|);
  }
}
