/**
  AutomationAuthority as it runs: one transaction per method, rows updated in place.
  Each method is proved to leave the database of its transition in OutboxModel and the
  journal of its transition in OutboxJournal, which the theorems reason about.
 */
module OutboxService {
  import opened Common
  import opened OutboxModel
  import opened OutboxJournal

  class AutomationAuthority {
    var leases: map<Stream, StreamRow>
    var runs: seq<StreamRun>
    var outbox: seq<Notification>
    var chunks: map<nat, seq<ChunkMeta>>
    var attempts: seq<Attempt>
    var events: seq<Event>
    var attemptEvents: seq<AttemptEvent>
    var resolutions: seq<Resolution>
    var callbacks: seq<Callback>

    constructor ()
      ensures Rows() == EMPTY && Book() == BLANK
    {
      leases, runs, outbox, chunks, attempts := map[], [], [], map[], [];
      events, attemptEvents, resolutions, callbacks := [], [], [], [];
    }

    function Rows(): Db
      reads this
    {
      Db(leases, runs, outbox, chunks, attempts)
    }

    function Book(): Journal
      reads this
    {
      Journal(events, attemptEvents, resolutions, callbacks)
    }

    /** The attempts of this owner and fence that were never marked, and the first of them for each notification. */
    method UnmarkedAttempts(owner: nat, fence: nat) returns (ids: set<nat>, first: map<nat, nat>)
      ensures forall a: nat :: a in ids <==> Unmarked(Rows(), a, owner, fence)
      ensures forall n: nat :: n in first <==> HasUnmarked(Rows(), n, owner, fence)
      ensures forall n: nat | n in first :: FirstUnmarked(Rows(), n, owner, fence, |attempts|) == Some(first[n])
    {
      ids, first := {}, map[];
      for a := 0 to |attempts|
        invariant forall b: nat :: b in ids <==> b < a && Unmarked(Rows(), b, owner, fence)
        invariant forall n: nat :: n in first <==> FirstUnmarked(Rows(), n, owner, fence, a).Some?
        invariant forall n: nat | n in first :: FirstUnmarked(Rows(), n, owner, fence, a) == Some(first[n])
      {
        var t := attempts[a];
        if t.owner == owner && t.fence == fence && t.state == Prepared
           && t.notification < |outbox| && outbox[t.notification].state == Sending {
          ids := ids + {a};
          if t.notification !in first { first := first[t.notification := a]; }
        }
      }
      forall n: nat ensures n in first <==> HasUnmarked(Rows(), n, owner, fence) {
        FirstUnmarkedFinds(Rows(), n, owner, fence, |attempts|);
      }
    }

    static lemma {:induction false} FirstUnmarkedFinds(s: Db, m: nat, owner: nat, fence: nat, n: nat)
      requires n <= |s.attempts|
      ensures FirstUnmarked(s, m, owner, fence, n).Some? <==>
                exists a | 0 <= a < n :: s.attempts[a].notification == m && Unmarked(s, a, owner, fence)
    {
      if n > 0 { FirstUnmarkedFinds(s, m, owner, fence, n - 1); }
    }

    /** They are abandoned, with an event for each. */
    method Abandon(ghost owner: nat, ghost fence: nat, ids: set<nat>)
      requires forall a: nat :: a in ids <==> Unmarked(Rows(), a, owner, fence)
      modifies this`attempts, this`attemptEvents
      ensures attempts == RecoveredAttempts(old(Rows()), owner, fence)
      ensures attemptEvents == old(attemptEvents) + AbandonEvents(old(Rows()), owner, fence, |old(attempts)|)
    {
      ghost var s := Rows();
      ghost var r := RecoveredAttempts(s, owner, fence);
      for a := 0 to |attempts|
        invariant |attempts| == |s.attempts|
        invariant forall k | 0 <= k < a :: attempts[k] == r[k]
        invariant forall k | a <= k < |attempts| :: attempts[k] == s.attempts[k]
        invariant attemptEvents == old(attemptEvents) + AbandonEvents(s, owner, fence, a)
      {
        if a in ids {
          attempts := attempts[a := attempts[a].(state := AbandonedPreMarker)];
          attemptEvents := attemptEvents + [AttemptEvent(a, AbandonedPreMarker)];
        }
      }
      assert attempts == r;
    }

    /** Unconsumed callback tokens of these attempts are revoked. */
    method RevokeLinked(ids: set<nat>)
      modifies this`callbacks
      ensures |callbacks| == |old(callbacks)|
      ensures forall k | 0 <= k < |callbacks| ::
                var cb := old(callbacks)[k];
                callbacks[k] == if cb.link.Some? && cb.link.value.attempt in ids && !cb.consumed then cb.(revoked := true) else cb
    {
      ghost var cs := callbacks;
      for k := 0 to |callbacks|
        invariant |callbacks| == |cs|
        invariant forall i | k <= i < |callbacks| :: callbacks[i] == cs[i]
        invariant forall i | 0 <= i < k ::
                    callbacks[i] == if cs[i].link.Some? && cs[i].link.value.attempt in ids && !cs[i].consumed
                                    then cs[i].(revoked := true) else cs[i]
      {
        var cb := callbacks[k];
        if cb.link.Some? && cb.link.value.attempt in ids && !cb.consumed { callbacks := callbacks[k := cb.(revoked := true)]; }
      }
    }

    /** Each affected notification goes back to pending, or to an operator when part of it was delivered. */
    method PutBack(first: map<nat, nat>)
      modifies this`outbox, this`events
      ensures |outbox| == |old(outbox)| && forall n | 0 <= n < |outbox| :: outbox[n] == Back(old(Rows()), first, n)
      ensures events == old(events) + BackEvents(old(Rows()), first, |outbox|)
    {
      var before := Rows();
      for n := 0 to |outbox|
        invariant |outbox| == |before.outbox|
        invariant forall k | 0 <= k < n :: outbox[k] == Back(before, first, k)
        invariant forall k | n <= k < |outbox| :: outbox[k] == before.outbox[k]
        invariant events == old(events) + BackEvents(before, first, n)
      {
        if n in first {
          var accepted := HasAccepted(before, n);
          outbox := outbox[n := outbox[n].(state := if accepted then PartialManual else Pending)];
          if accepted { events := events + [Event(n, Some(first[n]), EPartial)]; }
        }
      }
    }

    static function Back(before: Db, first: map<nat, nat>, n: nat): Notification
      requires n < |before.outbox|
    {
      if n in first then before.outbox[n].(state := if HasAccepted(before, n) then PartialManual else Pending) else before.outbox[n]
    }

    static function BackEvents(before: Db, first: map<nat, nat>, n: nat): seq<Event> {
      if n == 0 then []
      else
        BackEvents(before, first, n - 1)
        + if n - 1 in first && HasAccepted(before, n - 1) then [Event(n - 1, Some(first[n - 1]), EPartial)] else []
    }

    /** Read off the attempts before they were abandoned, the events are those of the recovery. */
    static lemma {:induction false} BackEventsArePartial(s: Db, before: Db, owner: nat, fence: nat, first: map<nat, nat>, n: nat)
      requires forall m: nat | m < n :: HasAccepted(before, m) == HasAccepted(s, m)
      requires forall m: nat | m < n :: m in first <==> HasUnmarked(s, m, owner, fence)
      requires forall m: nat | m in first :: FirstUnmarked(s, m, owner, fence, |s.attempts|) == Some(first[m])
      ensures BackEvents(before, first, n) == PartialEvents(s, owner, fence, n)
    {
      if n > 0 { BackEventsArePartial(s, before, owner, fence, first, n - 1); }
    }

    /** _recover_expired_prepared_attempts. */
    method RecoverExpiredPreparedAttempts(owner: nat, fence: nat)
      modifies this`attempts, this`attemptEvents, this`callbacks, this`outbox, this`events
      ensures Rows() == RecoverPrepared(old(Rows()), owner, fence)
      ensures Book() == RecoverJournal(old(Rows()), old(Book()), owner, fence)
    {
      ghost var s := Rows();
      var ids, first := UnmarkedAttempts(owner, fence);
      Abandon(owner, fence, ids);
      RevokeLinked(ids);
      assert callbacks == RevokeUnmarked(s, old(callbacks), owner, fence);
      ghost var m := Rows();
      PutBack(first);
      PutBackRecovers(s, m, owner, fence, first);
    }

    static lemma PutBackRecovers(s: Db, m: Db, owner: nat, fence: nat, first: map<nat, nat>)
      requires m == s.(attempts := RecoveredAttempts(s, owner, fence))
      requires forall n: nat :: n in first <==> HasUnmarked(s, n, owner, fence)
      requires forall n: nat | n in first :: FirstUnmarked(s, n, owner, fence, |s.attempts|) == Some(first[n])
      ensures forall n | 0 <= n < |s.outbox| :: Back(m, first, n) == RecoveredOutbox(s, owner, fence)[n]
      ensures BackEvents(m, first, |s.outbox|) == PartialEvents(s, owner, fence, |s.outbox|)
    {
      forall n: nat ensures HasAccepted(m, n) == HasAccepted(s, n) { AcceptedUnmoved(s, owner, fence, n); }
      BackEventsArePartial(s, m, owner, fence, first, |s.outbox|);
    }

    /** Abandoning unmarked attempts accepts nothing and un-accepts nothing. */
    static lemma AcceptedUnmoved(s: Db, owner: nat, fence: nat, n: nat)
      ensures HasAccepted(s, n) <==>
                exists b | 0 <= b < |s.attempts| ::
                  RecoveredAttempts(s, owner, fence)[b].notification == n && RecoveredAttempts(s, owner, fence)[b].state == Accepted
    {
      var r := RecoveredAttempts(s, owner, fence);
      if HasAccepted(s, n) {
        var b :| 0 <= b < |s.attempts| && s.attempts[b].notification == n && s.attempts[b].state == Accepted;
        assert r[b].notification == n && r[b].state == Accepted;
      }
    }

    method FinishRun(stream: Stream, fence: nat, owner: Option<nat>)
      modifies this`runs
      ensures runs == FinishRuns(old(runs), stream, fence, owner)
    {
      ghost var finished := FinishRuns(runs, stream, fence, owner);
      var i := 0;
      while i < |runs|
        invariant 0 <= i <= |runs| == |finished|
        invariant forall k | 0 <= k < i :: runs[k] == finished[k]
        invariant forall k | i <= k < |runs| :: runs[k] == old(runs)[k]
      {
        if runs[i].stream == stream && runs[i].fence == fence && (owner.Some? ==> runs[i].owner == owner.value) {
          runs := runs[i := runs[i].(finished := true)];
        }
        i := i + 1;
      }
    }

    method Acquire(stream: Stream, owner: nat, now: int, seconds: int) returns (l: Option<StreamLease>)
      modifies this
      ensures (Rows(), l) == AcquireLease(old(Rows()), stream, owner, now, seconds)
      ensures Book() == AcquireJournal(old(Rows()), old(Book()), stream, owner, now, seconds)
    {
      if seconds < 1 { return None; }
      if stream in leases && leases[stream].expiresAt > now { return None; }
      if stream in leases {
        var row := leases[stream];
        if stream == TelegramDispatch { RecoverExpiredPreparedAttempts(row.owner, row.fence); }
        FinishRun(stream, row.fence, None);
      }
      var fence := MaxFence(runs, stream) + 1;
      leases := leases[stream := StreamRow(owner, fence, now + seconds * 1_000_000)];
      runs := runs + [StreamRun(stream, owner, fence, false)];
      return Some(StreamLease(stream, owner, fence));
    }

    method Release(l: StreamLease, now: int, done: bool) returns (dropped: bool)
      modifies this
      ensures Rows() == ReleaseLease(old(Rows()), l, now, done)
      ensures Book() == ReleaseJournal(old(Rows()), old(Book()), l, done)
      ensures dropped == Current(old(Rows()), l, now)
    {
      if l.stream == TelegramDispatch && !done { RecoverExpiredPreparedAttempts(l.owner, l.fence); }
      dropped := Current(Rows(), l, now);
      if dropped { leases := leases - {l.stream}; }
      FinishRun(l.stream, l.fence, Some(l.owner));
    }

    method ClaimNextNotification(l: StreamLease, now: int) returns (got: Answer<nat>)
      modifies this
      ensures (Rows(), got) == ClaimNext(old(Rows()), l, now)
      ensures Book() == ClaimJournal(old(Rows()), old(Book()), l, now)
    {
      if !Current(Rows(), l, now) { return Raised; }
      var row := OldestDispatchable(outbox, 0);
      if row.None? { return Nothing; }
      if outbox[row.value].state == Pending {
        outbox := outbox[row.value := outbox[row.value].(state := Claimed)];
        events := events + [Event(row.value, None, EClaimed)];
      }
      return Got(row.value);
    }

    method RecoverAfterMarker(n: nat, l: StreamLease, now: int) returns (got: Answer<nat>)
      modifies this
      ensures (Rows(), got) == RecoverPossiblySent(old(Rows()), n, l, now)
      ensures Book() == RecoverSentJournal(old(Rows()), old(Book()), n, l, now)
    {
      if !Current(Rows(), l, now) { return Raised; }
      var row := FirstPossiblySent(attempts, n, 0);
      if row.None? { return Nothing; }
      attempts := attempts[row.value := attempts[row.value].(state := AmbiguousAttempt)];
      attemptEvents := attemptEvents + [AttemptEvent(row.value, AmbiguousAttempt)];
      if n < |outbox| && outbox[n].state == Sending { outbox := outbox[n := outbox[n].(state := AmbiguousSend)]; }
      events := events + [Event(n, Some(row.value), EAmbiguous)];
      return Got(row.value);
    }

    method CreateNotificationChunks(n: nat, metas: seq<ChunkMeta>) returns (got: Answer<nat>)
      modifies this`chunks
      ensures (Rows(), got) == CreateChunks(old(Rows()), n, metas)
    {
      if !ChunksWellFormed(metas) { return Raised; }
      if n >= |outbox| || !Dispatchable(outbox[n].state) { return Raised; }
      if n in chunks {
        if chunks[n] != metas { return Raised; }
        return Got(n);
      }
      chunks := chunks[n := metas];
      return Got(n);
    }

    /** The search for the next chunk, as an ordered scan; it changes nothing. */
    method NextUnacceptedChunk(n: nat, l: StreamLease, now: int) returns (got: Answer<nat>)
      ensures got == NextChunk(Rows(), n, l, now)
    {
      if !Current(Rows(), l, now) { return Raised; }
      if n !in chunks { return Nothing; }
      var first := FirstUnaccepted(Rows(), n, 0);
      if first.None? { return Nothing; }
      return Got(first.value);
    }

    method PrepareChunkAttempt(n: nat, index: nat, l: StreamLease, now: int) returns (got: Answer<nat>)
      modifies this
      ensures (Rows(), got) == PrepareAttempt(old(Rows()), n, index, l, now)
      ensures Book() == PrepareJournal(old(Rows()), old(Book()), n, index, l, now)
    {
      if !Current(Rows(), l, now) { return Raised; }
      if n >= |outbox| || !(outbox[n].state in {Claimed, Sending}) { return Raised; }
      var ordinal := MaxOrdinal(attempts, n, index) + 1;
      outbox := outbox[n := outbox[n].(state := Sending)];
      attempts := attempts + [Attempt(n, index, ordinal, l.owner, l.fence, Prepared)];
      events := events + [Event(n, Some(|attempts| - 1), EPrepared)];
      return Got(|attempts| - 1);
    }

    /** A token is linked once, and to one attempt. */
    method LinkCallback(k: nat, n: nat, a: nat, l: StreamLease, now: int) returns (got: Answer<nat>)
      modifies this`callbacks, this`events
      ensures got.Raised? <==> !Current(old(Rows()), l, now)
      ensures got.Got? <==> Current(old(Rows()), l, now) && Linkable(old(Book()), k)
      ensures Book() == if got.Got? then LinkJournal(old(Book()), k, n, a) else old(Book())
    {
      if !Current(Rows(), l, now) { return Raised; }
      if k >= |callbacks| || callbacks[k].link.Some? { return Nothing; }
      callbacks := callbacks[k := callbacks[k].(link := Some(Link(n, a)))];
      events := events + [Event(n, Some(a), ELinked)];
      return Got(k);
    }

    method MarkPossiblySent(a: nat, l: StreamLease, now: int) returns (got: Answer<nat>)
      modifies this`attempts
      ensures (Rows(), got) == MarkAttempt(old(Rows()), a, l, now)
    {
      if !Current(Rows(), l, now) { return Raised; }
      if !OwnAttempt(Rows(), a, l) || attempts[a].state != Prepared { return Raised; }
      attempts := attempts[a := attempts[a].(state := PossiblySent)];
      return Got(a);
    }

    method Settle(a: nat, v: Verdict, l: StreamLease, now: int) returns (got: Answer<nat>)
      modifies this
      ensures (Rows(), got) == SettleAttempt(old(Rows()), a, v, l, now)
      ensures Book() == SettleJournal(old(Rows()), old(Book()), a, v, l, now)
    {
      if !Current(Rows(), l, now) { return Raised; }
      if !OwnAttempt(Rows(), a, l) || !IsOpen(attempts[a]) || attempts[a].notification >= |outbox| { return Raised; }
      attempts := attempts[a := attempts[a].(state := AttemptAfter(v))];
      var n := attempts[a].notification;
      if v.Abandon? {
        SettleAbandoned(a, n);
        return Got(a);
      }
      events := events + OutcomeEvents(n, a, v);
      if v.Reject? || v.Unknown? { SettleUndelivered(a, n, v); }
      if v.Accept? {
        if AllAccepted(Rows(), n) || n !in chunks {
          if outbox[n].state == Sending { outbox := outbox[n := outbox[n].(state := Sent)]; }
        }
      }
      return Got(a);
    }

    method SettleAbandoned(a: nat, n: nat)
      requires n < |outbox|
      modifies this`attemptEvents, this`callbacks, this`outbox, this`events
      ensures outbox == MoveSending(old(outbox), n, if old(HasAccepted(Rows(), n)) then PartialManual else Pending)
      ensures attemptEvents == old(attemptEvents) + [AttemptEvent(a, AbandonedPreMarker)]
      ensures callbacks == RevokeAttempt(old(callbacks), a)
      ensures events == old(events) + StateEvents(n, a, if old(HasAccepted(Rows(), n)) then PartialManual else Pending)
    {
      attemptEvents := attemptEvents + [AttemptEvent(a, AbandonedPreMarker)];
      RevokeLinked({a});
      var accepted := HasAccepted(Rows(), n);
      assert accepted == old(HasAccepted(Rows(), n));
      if outbox[n].state == Sending { outbox := outbox[n := outbox[n].(state := if accepted then PartialManual else Pending)]; }
      if accepted { events := events + [Event(n, Some(a), EPartial)]; }
    }

    /** A rejection or an unknown outcome: where the notification goes, and what is written about it. */
    method SettleUndelivered(a: nat, n: nat, v: Verdict)
      requires n < |outbox| && (v.Reject? || v.Unknown?)
      modifies this`callbacks, this`outbox, this`events
      ensures var st := StateAfter(old(outbox)[n].noonDigest, old(HasAccepted(Rows(), n)), v);
              && outbox == MoveSending(old(outbox), n, st)
              && events == old(events) + StateEvents(n, a, st)
      ensures callbacks == if v.Reject? then RevokeAttempt(old(callbacks), a) else old(callbacks)
    {
      var accepted := HasAccepted(Rows(), n);
      var state;
      if v.Reject? && v.retryable && (!accepted || outbox[n].noonDigest) { state := Pending; }
      else if accepted { state := PartialManual; }
      else if v.Unknown? { state := AmbiguousSend; }
      else { state := Canceled; }
      if outbox[n].state == Sending { outbox := outbox[n := outbox[n].(state := state)]; }
      if v.Reject? { RevokeLinked({a}); }
      if state != Pending { events := events + StateEvents(n, a, state); }
    }

    /** Unconsumed callback tokens of a notification are revoked. */
    method RevokeOf(n: nat)
      modifies this`callbacks
      ensures callbacks == RevokeNotification(old(callbacks), n)
    {
      ghost var cs := callbacks;
      for k := 0 to |callbacks|
        invariant |callbacks| == |cs|
        invariant forall i | 0 <= i < k :: callbacks[i] == RevokeNotification(cs, n)[i]
        invariant forall i | k <= i < |callbacks| :: callbacks[i] == cs[i]
      {
        var cb := callbacks[k];
        if cb.link.Some? && cb.link.value.notification == n && !cb.consumed { callbacks := callbacks[k := cb.(revoked := true)]; }
      }
    }

    method ResolveNotification(n: nat, expected: NotificationState, delivered: bool) returns (changed: bool)
      modifies this
      ensures Rows() == Resolve(old(Rows()), n, expected, delivered)
      ensures Book() == ResolveJournal(old(Rows()), old(Book()), n, expected, delivered)
      ensures changed <==> Rows() != old(Rows())
    {
      changed := n < |outbox| && expected in {AmbiguousSend, PartialManual} && outbox[n].state == expected;
      if !changed { return; }
      outbox := outbox[n := outbox[n].(state := if delivered then ResolvedDelivered else ResolvedAbandoned)];
      resolutions := resolutions + [Resolution(n, expected, delivered)];
      if !delivered { RevokeOf(n); }
      events := events + [Event(n, None, if delivered then EDelivered else EAbandoned)];
      assert outbox[n].state != old(outbox)[n].state;
    }
  }
}
