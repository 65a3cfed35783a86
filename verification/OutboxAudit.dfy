/** Over every run the journal tells the state of every attempt, and buttons act only through messages that may have arrived. */
module OutboxAudit {
  import opened Common
  import opened OutboxModel
  import opened OutboxTick
  import opened OutboxInvariant
  import opened OutboxTheorems
  import opened OutboxJournal

  // ---------------------------------------------------------------- what holds at every moment

  predicate Final(st: AttemptState) { st == Accepted || st == AmbiguousAttempt }

  /** A token that took effect belongs to an attempt that was or may have been delivered; a live one to none that was not. */
  ghost predicate CallbackOk(s: Db, cb: Callback) {
    if cb.link.None? then !cb.consumed
    else
      var n, a := cb.link.value.notification, cb.link.value.attempt;
      && a < |s.attempts| && n < |s.outbox| && s.attempts[a].notification == n
      && (cb.consumed ==> Final(s.attempts[a].state))
      && (!cb.consumed && !cb.revoked ==> !Harmless(s.attempts[a].state) && s.outbox[n].state != ResolvedAbandoned)
  }

  ghost predicate CallbacksOk(s: Db, cs: seq<Callback>) { forall k | 0 <= k < |cs| :: CallbackOk(s, cs[k]) }

  ghost predicate Says(es: seq<Event>, a: nat, kind: EventKind) {
    exists i :: 0 <= i < |es| && es[i].attempt == Some(a) && es[i].kind == kind
  }

  ghost predicate Notes(es: seq<AttemptEvent>, a: nat, st: AttemptState) {
    exists i :: 0 <= i < |es| && es[i] == AttemptEvent(a, st)
  }

  /** The events of an attempt tell how it ended. */
  ghost predicate Told(s: Db, j: Journal, a: nat)
    requires a < |s.attempts|
  {
    var st := s.attempts[a].state;
    && Says(j.events, a, EPrepared)
    && (Says(j.events, a, EAccepted) <==> st == Accepted)
    && (Says(j.events, a, ERejected) <==> st == TrustedRejected)
    && (Says(j.events, a, EAmbiguous) <==> st == AmbiguousAttempt)
    && (Notes(j.attemptEvents, a, AbandonedPreMarker) <==> st == AbandonedPreMarker)
  }

  ghost predicate EventOk(s: Db, e: Event) {
    e.attempt.Some? ==> e.attempt.value < |s.attempts| && s.attempts[e.attempt.value].notification == e.notification
  }

  ghost predicate TrailOk(s: Db, j: Journal) {
    && (forall i | 0 <= i < |j.events| :: EventOk(s, j.events[i]))
    && (forall i | 0 <= i < |j.attemptEvents| :: j.attemptEvents[i].attempt < |s.attempts|)
    && (forall a | 0 <= a < |s.attempts| :: Told(s, j, a))
  }

  ghost predicate Resolves(rs: seq<Resolution>, n: nat, delivered: bool) {
    exists i :: 0 <= i < |rs| && rs[i].notification == n && rs[i].delivered == delivered
  }

  /** Resolved notifications are those with a resolution, which there is only one of. */
  ghost predicate ResolutionsOk(s: Db, rs: seq<Resolution>) {
    && (forall i | 0 <= i < |rs| :: rs[i].notification < |s.outbox| && rs[i].prior in {AmbiguousSend, PartialManual})
    && (forall i, k | 0 <= i < k < |rs| :: rs[i].notification != rs[k].notification)
    && (forall n | 0 <= n < |s.outbox| :: Resolves(rs, n, true) <==> s.outbox[n].state == ResolvedDelivered)
    && (forall n | 0 <= n < |s.outbox| :: Resolves(rs, n, false) <==> s.outbox[n].state == ResolvedAbandoned)
  }

  ghost predicate JournalOk(s: Db, j: Journal) {
    CallbacksOk(s, j.callbacks) && TrailOk(s, j) && ResolutionsOk(s, j.resolutions)
  }

  // ---------------------------------------------------------------- appending

  lemma SaysAppend(es: seq<Event>, more: seq<Event>, a: nat, kind: EventKind)
    ensures Says(es + more, a, kind) <==> Says(es, a, kind) || Says(more, a, kind)
  {
    if Says(es, a, kind) {
      var i :| 0 <= i < |es| && es[i].attempt == Some(a) && es[i].kind == kind;
      assert (es + more)[i] == es[i];
    }
    if Says(more, a, kind) {
      var i :| 0 <= i < |more| && more[i].attempt == Some(a) && more[i].kind == kind;
      assert (es + more)[|es| + i] == more[i];
    }
  }

  lemma NotesAppend(es: seq<AttemptEvent>, more: seq<AttemptEvent>, a: nat, st: AttemptState)
    ensures Notes(es + more, a, st) <==> Notes(es, a, st) || Notes(more, a, st)
  {
    if Notes(es, a, st) {
      var i :| 0 <= i < |es| && es[i] == AttemptEvent(a, st);
      assert (es + more)[i] == es[i];
    }
    if Notes(more, a, st) {
      var i :| 0 <= i < |more| && more[i] == AttemptEvent(a, st);
      assert (es + more)[|es| + i] == more[i];
    }
  }

  /** What appended rows must say for the trail to stay in order. */
  ghost predicate Tells(s: Db, t: Db, es: seq<Event>, ns: seq<AttemptEvent>, a: nat)
    requires a < |s.attempts| && a < |t.attempts|
  {
    var st, now := s.attempts[a].state, t.attempts[a].state;
    && (Says(es, a, EAccepted) || st == Accepted <==> now == Accepted)
    && (Says(es, a, ERejected) || st == TrustedRejected <==> now == TrustedRejected)
    && (Says(es, a, EAmbiguous) || st == AmbiguousAttempt <==> now == AmbiguousAttempt)
    && (Notes(ns, a, AbandonedPreMarker) || st == AbandonedPreMarker <==> now == AbandonedPreMarker)
  }

  lemma {:induction false} TrailAppend(s: Db, t: Db, j: Journal, k: Journal, es: seq<Event>, ns: seq<AttemptEvent>)
    requires TrailOk(s, j) && k.events == j.events + es && k.attemptEvents == j.attemptEvents + ns
    requires |t.attempts| == |s.attempts|
    requires forall a | 0 <= a < |s.attempts| :: t.attempts[a].notification == s.attempts[a].notification
    requires forall i | 0 <= i < |es| :: EventOk(s, es[i])
    requires forall i | 0 <= i < |ns| :: ns[i].attempt < |s.attempts|
    requires forall a | 0 <= a < |s.attempts| :: Tells(s, t, es, ns, a)
    ensures TrailOk(t, k)
  {
    forall i | 0 <= i < |k.events| ensures EventOk(t, k.events[i]) {
      if i < |j.events| { assert EventOk(s, j.events[i]); } else { assert EventOk(s, es[i - |j.events|]); }
    }
    forall a | 0 <= a < |t.attempts| ensures Told(t, k, a) {
      assert Told(s, j, a) && Tells(s, t, es, ns, a);
      SaysAppend(j.events, es, a, EPrepared);
      SaysAppend(j.events, es, a, EAccepted);
      SaysAppend(j.events, es, a, ERejected);
      SaysAppend(j.events, es, a, EAmbiguous);
      NotesAppend(j.attemptEvents, ns, a, AbandonedPreMarker);
    }
  }

  /** Tokens stay in order when the attempts and notifications of live ones do. */
  lemma CallbacksFollow(s: Db, t: Db, cs: seq<Callback>, ds: seq<Callback>)
    requires CallbacksOk(s, cs) && |ds| == |cs| && |s.attempts| <= |t.attempts| && |s.outbox| <= |t.outbox|
    requires forall a | 0 <= a < |s.attempts| ::
               t.attempts[a].notification == s.attempts[a].notification
               && (Final(s.attempts[a].state) ==> t.attempts[a].state == s.attempts[a].state)
    requires forall k | 0 <= k < |cs| :: ds[k] == cs[k] || ds[k] == cs[k].(revoked := true)
    requires forall k | 0 <= k < |cs| && cs[k].link.Some? && !ds[k].consumed && !ds[k].revoked ::
               var n, a := cs[k].link.value.notification, cs[k].link.value.attempt;
               a < |s.attempts| && n < |s.outbox| ==>
                 (Harmless(t.attempts[a].state) ==> Harmless(s.attempts[a].state))
                 && (t.outbox[n].state == ResolvedAbandoned ==> s.outbox[n].state == ResolvedAbandoned)
    ensures CallbacksOk(t, ds)
  {
    forall k | 0 <= k < |ds| ensures CallbackOk(t, ds[k]) { assert CallbackOk(s, cs[k]); }
  }

  /** Resolutions stand as long as no notification enters or leaves a resolved state. */
  ghost predicate SameResolved(s: Db, t: Db) {
    && |s.outbox| <= |t.outbox|
    && (forall n | 0 <= n < |s.outbox| ::
          (t.outbox[n].state in {ResolvedDelivered, ResolvedAbandoned} || s.outbox[n].state in {ResolvedDelivered, ResolvedAbandoned})
          ==> t.outbox[n].state == s.outbox[n].state)
    && (forall n | |s.outbox| <= n < |t.outbox| :: t.outbox[n].state == Pending)
  }

  lemma ResolutionsStand(s: Db, t: Db, rs: seq<Resolution>)
    requires ResolutionsOk(s, rs) && SameResolved(s, t)
    ensures ResolutionsOk(t, rs)
  {
  }

  lemma Nothing(a: nat)
    ensures forall kind :: !Says([], a, kind)
    ensures forall st :: !Notes([], a, st)
  {
  }

  /** Steps that leave the attempts alone. */
  lemma {:induction false} AttemptsStay(s: Db, t: Db, j: Journal, k: Journal, es: seq<Event>)
    requires JournalOk(s, j) && t.attempts == s.attempts && SameResolved(s, t)
    requires k == j.(events := j.events + es)
    requires forall i | 0 <= i < |es| :: es[i].attempt.None?
    ensures JournalOk(t, k)
  {
    forall a | 0 <= a < |s.attempts| ensures Tells(s, t, es, [], a) { Nothing(a); }
    assert k.attemptEvents == j.attemptEvents + [];
    TrailAppend(s, t, j, k, es, []);
    CallbacksFollow(s, t, j.callbacks, k.callbacks);
    ResolutionsStand(s, t, j.resolutions);
  }

  // ---------------------------------------------------------------- one transaction each

  lemma {:induction false} ClaimAudit(s: Db, j: Journal, l: StreamLease, now: int)
    requires JournalOk(s, j)
    ensures JournalOk(ClaimNext(s, l, now).0, ClaimJournal(s, j, l, now))
  {
    var t, k := ClaimNext(s, l, now).0, ClaimJournal(s, j, l, now);
    var es := k.events[|j.events|..];
    assert k.events == j.events + es;
    AttemptsStay(s, t, j, k, es);
  }

  lemma {:induction false} MarkAudit(s: Db, j: Journal, a: nat, l: StreamLease, now: int)
    requires JournalOk(s, j)
    ensures JournalOk(MarkAttempt(s, a, l, now).0, j)
  {
    var t := MarkAttempt(s, a, l, now).0;
    forall b | 0 <= b < |s.attempts| ensures Tells(s, t, [], [], b) { Nothing(b); }
    assert j.events == j.events + [] && j.attemptEvents == j.attemptEvents + [];
    TrailAppend(s, t, j, j, [], []);
    CallbacksFollow(s, t, j.callbacks, j.callbacks);
    ResolutionsStand(s, t, j.resolutions);
  }

  lemma {:induction false} RecoverSentAudit(s: Db, j: Journal, n: nat, l: StreamLease, now: int)
    requires JournalOk(s, j)
    ensures JournalOk(RecoverPossiblySent(s, n, l, now).0, RecoverSentJournal(s, j, n, l, now))
  {
    var (t, got) := RecoverPossiblySent(s, n, l, now);
    var k := RecoverSentJournal(s, j, n, l, now);
    if got.Got? {
      var e, x := Event(n, Some(got.value), EAmbiguous), AttemptEvent(got.value, AmbiguousAttempt);
      forall b | 0 <= b < |s.attempts| ensures Tells(s, t, [e], [x], b) {
        assert [e][0] == e;
        assert Told(s, j, b);
      }
      TrailAppend(s, t, j, k, [e], [x]);
      CallbacksFollow(s, t, j.callbacks, k.callbacks);
      ResolutionsStand(s, t, j.resolutions);
    }
  }

  lemma {:induction false} PrepareAudit(s: Db, j: Journal, n: nat, i: nat, l: StreamLease, now: int)
    requires JournalOk(s, j)
    ensures JournalOk(PrepareAttempt(s, n, i, l, now).0, PrepareJournal(s, j, n, i, l, now))
  {
    var (t, got) := PrepareAttempt(s, n, i, l, now);
    var k := PrepareJournal(s, j, n, i, l, now);
    if got.Got? {
      var a := |s.attempts|;
      var e := Event(n, Some(a), EPrepared);
      assert k.events[|j.events|] == e;
      forall b | 0 <= b < |t.attempts| ensures Told(t, k, b) {
        SaysAppend(j.events, [e], b, EPrepared);
        SaysAppend(j.events, [e], b, EAccepted);
        SaysAppend(j.events, [e], b, ERejected);
        SaysAppend(j.events, [e], b, EAmbiguous);
        if b < a { assert Told(s, j, b); } else { NotYet(s, j, a); }
      }
      forall x | 0 <= x < |k.events| ensures EventOk(t, k.events[x]) {
        if x < |j.events| { assert EventOk(s, j.events[x]); }
      }
      CallbacksFollow(s, t, j.callbacks, k.callbacks);
      ResolutionsStand(s, t, j.resolutions);
    }
  }

  /** Nothing was written about an attempt before it is prepared. */
  lemma NotYet(s: Db, j: Journal, a: nat)
    requires TrailOk(s, j) && a >= |s.attempts|
    ensures forall kind :: !Says(j.events, a, kind)
    ensures forall st :: !Notes(j.attemptEvents, a, st)
  {
    forall i | 0 <= i < |j.events| ensures j.events[i].attempt != Some(a) { assert EventOk(s, j.events[i]); }
  }

  lemma {:induction false} SettleTrail(s: Db, j: Journal, a: nat, v: Verdict, l: StreamLease, now: int)
    requires TrailOk(s, j) && SettleAttempt(s, a, v, l, now).1.Got?
    ensures TrailOk(SettleAttempt(s, a, v, l, now).0, SettleJournal(s, j, a, v, l, now))
  {
    var t, k := SettleAttempt(s, a, v, l, now).0, SettleJournal(s, j, a, v, l, now);
    var es, ns := k.events[|j.events|..], k.attemptEvents[|j.attemptEvents|..];
    assert k.events == j.events + es && k.attemptEvents == j.attemptEvents + ns;
    VerdictSays(s.attempts[a].notification, a, v, es, ns, t, k, s, j, l, now);
    forall b | 0 <= b < |s.attempts| ensures Tells(s, t, es, ns, b) {}
    TrailAppend(s, t, j, k, es, ns);
  }

  lemma SettleTokens(s: Db, j: Journal, a: nat, v: Verdict, l: StreamLease, now: int)
    requires CallbacksOk(s, j.callbacks) && SettleAttempt(s, a, v, l, now).1.Got?
    ensures CallbacksOk(SettleAttempt(s, a, v, l, now).0, SettleJournal(s, j, a, v, l, now).callbacks)
  {
    CallbacksFollow(s, SettleAttempt(s, a, v, l, now).0, j.callbacks, SettleJournal(s, j, a, v, l, now).callbacks);
  }

  lemma {:induction false} SettleAudit(s: Db, j: Journal, a: nat, v: Verdict, l: StreamLease, now: int)
    requires JournalOk(s, j)
    ensures JournalOk(SettleAttempt(s, a, v, l, now).0, SettleJournal(s, j, a, v, l, now))
  {
    var (t, got) := SettleAttempt(s, a, v, l, now);
    var k := SettleJournal(s, j, a, v, l, now);
    if got.Got? {
      SettleTrail(s, j, a, v, l, now);
      SettleTokens(s, j, a, v, l, now);
      ResolutionsStand(s, t, j.resolutions);
    }
  }

  lemma Appended<T>(s: seq<T>, a: seq<T>, b: seq<T>)
    ensures s + a == s + b ==> a == b
  {
    assert (s + a)[|s|..] == a && (s + b)[|s|..] == b;
  }

  /** The rows of a verdict name its attempt and its outcome, and no other attempt or outcome. */
  lemma VerdictSays(n: nat, a: nat, v: Verdict, es: seq<Event>, ns: seq<AttemptEvent>, t: Db, k: Journal, s: Db, j: Journal,
                    l: StreamLease, now: int)
    requires k == SettleJournal(s, j, a, v, l, now) && SettleAttempt(s, a, v, l, now).1.Got? && n == s.attempts[a].notification
    requires k.events == j.events + es && k.attemptEvents == j.attemptEvents + ns
    ensures forall i | 0 <= i < |es| :: es[i].attempt == Some(a) && es[i].notification == n
    ensures forall i | 0 <= i < |ns| :: ns[i] == AttemptEvent(a, AbandonedPreMarker)
    ensures Says(es, a, EAccepted) <==> v.Accept?
    ensures Says(es, a, ERejected) <==> v.Reject?
    ensures Says(es, a, EAmbiguous) <==> v.Unknown?
    ensures Notes(ns, a, AbandonedPreMarker) <==> v.Abandon?
  {
    var s1 := s.(attempts := s.attempts[a := s.attempts[a].(state := AttemptAfter(v))]);
    var after := if v.Accept? then [] else StateEvents(n, a, StateAfter(s.outbox[n].noonDigest, HasAccepted(s1, n), v));
    Appended(j.events, es, OutcomeEvents(n, a, v) + after);
    Appended(j.attemptEvents, ns, if v.Abandon? then [AttemptEvent(a, AbandonedPreMarker)] else []);
    if !v.Abandon? { assert es[0] == OutcomeEvents(n, a, v)[0]; }
    if v.Abandon? { assert ns[0] == AttemptEvent(a, AbandonedPreMarker); }
  }

  ghost predicate AllUnmarked(s: Db, owner: nat, fence: nat, ns: seq<AttemptEvent>) {
    forall i | 0 <= i < |ns| :: Unmarked(s, ns[i].attempt, owner, fence)
  }

  lemma {:induction false} AbandonNotes(s: Db, owner: nat, fence: nat, n: nat)
    ensures AllUnmarked(s, owner, fence, AbandonEvents(s, owner, fence, n))
    ensures forall a: nat | a < n && Unmarked(s, a, owner, fence) :: Notes(AbandonEvents(s, owner, fence, n), a, AbandonedPreMarker)
  {
    if n > 0 {
      AbandonNotes(s, owner, fence, n - 1);
      var front := AbandonEvents(s, owner, fence, n - 1);
      var last: seq<AttemptEvent> := if Unmarked(s, n - 1, owner, fence) then [AttemptEvent(n - 1, AbandonedPreMarker)] else [];
      assert AbandonEvents(s, owner, fence, n) == front + last;
      assert AllUnmarked(s, owner, fence, last);
      forall a: nat | a < n && Unmarked(s, a, owner, fence) ensures Notes(front + last, a, AbandonedPreMarker) {
        NotesAppend(front, last, a, AbandonedPreMarker);
        if a == n - 1 { assert last[0] == AttemptEvent(a, AbandonedPreMarker); }
      }
    }
  }

  ghost predicate AllPartial(s: Db, es: seq<Event>) {
    forall i | 0 <= i < |es| :: es[i].kind == EPartial && EventOk(s, es[i])
  }

  lemma {:induction false} PartialSays(s: Db, owner: nat, fence: nat, n: nat)
    ensures AllPartial(s, PartialEvents(s, owner, fence, n))
  {
    if n > 0 {
      PartialSays(s, owner, fence, n - 1);
      var front := PartialEvents(s, owner, fence, n - 1);
      var last := PartialEvent(s, owner, fence, n - 1);
      assert PartialEvents(s, owner, fence, n) == front + last;
      assert AllPartial(s, last);
    }
  }

  lemma RecoverTrail(s: Db, j: Journal, owner: nat, fence: nat)
    requires TrailOk(s, j)
    ensures TrailOk(RecoverPrepared(s, owner, fence), RecoverJournal(s, j, owner, fence))
  {
    var t, k := RecoverPrepared(s, owner, fence), RecoverJournal(s, j, owner, fence);
    var es, ns := PartialEvents(s, owner, fence, |s.outbox|), AbandonEvents(s, owner, fence, |s.attempts|);
    AbandonNotes(s, owner, fence, |s.attempts|);
    assert AllUnmarked(s, owner, fence, ns);
    forall i | 0 <= i < |ns| ensures Unmarked(s, ns[i].attempt, owner, fence) {}
    PartialSays(s, owner, fence, |s.outbox|);
    assert AllPartial(s, es);
    forall i | 0 <= i < |es| ensures EventOk(s, es[i]) && es[i].kind == EPartial {}
    forall a | 0 <= a < |s.attempts| ensures Tells(s, t, es, ns, a) {}
    TrailAppend(s, t, j, k, es, ns);
  }

  lemma {:induction false} RecoverAudit(s: Db, j: Journal, owner: nat, fence: nat)
    requires JournalOk(s, j)
    ensures JournalOk(RecoverPrepared(s, owner, fence), RecoverJournal(s, j, owner, fence))
  {
    var t, k := RecoverPrepared(s, owner, fence), RecoverJournal(s, j, owner, fence);
    RecoverTrail(s, j, owner, fence);
    forall n: nat ensures HasUnmarked(s, n, owner, fence) ==> n < |s.outbox| && s.outbox[n].state == Sending {
      UnmarkedIsSending(s, n, owner, fence);
    }
    CallbacksFollow(s, t, j.callbacks, k.callbacks);
    ResolutionsStand(s, t, j.resolutions);
  }

  lemma {:induction false} ResolveAudit(s: Db, j: Journal, n: nat, expected: NotificationState, delivered: bool)
    requires JournalOk(s, j)
    ensures JournalOk(Resolve(s, n, expected, delivered), ResolveJournal(s, j, n, expected, delivered))
  {
    var t, k := Resolve(s, n, expected, delivered), ResolveJournal(s, j, n, expected, delivered);
    if n < |s.outbox| && expected in {AmbiguousSend, PartialManual} && s.outbox[n].state == expected {
      var e := Event(n, None, if delivered then EDelivered else EAbandoned);
      forall a | 0 <= a < |s.attempts| ensures Tells(s, t, [e], [], a) { Nothing(a); }
      assert k.attemptEvents == j.attemptEvents + [];
      TrailAppend(s, t, j, k, [e], []);
      CallbacksFollow(s, t, j.callbacks, k.callbacks);
      OneMoreResolution(s, t, j.resolutions, Resolution(n, expected, delivered));
    }
  }

  lemma OneMoreResolution(s: Db, t: Db, rs: seq<Resolution>, r: Resolution)
    requires ResolutionsOk(s, rs) && r.notification < |s.outbox| && r.prior in {AmbiguousSend, PartialManual}
    requires s.outbox[r.notification].state == r.prior
    requires t.outbox == SetState(s.outbox, r.notification, if r.delivered then ResolvedDelivered else ResolvedAbandoned)
    ensures ResolutionsOk(t, rs + [r])
  {
    var more := rs + [r];
    forall i | 0 <= i < |rs| ensures rs[i].notification != r.notification {
      assert Resolves(rs, rs[i].notification, rs[i].delivered);
    }
    forall n: nat, d | n < |t.outbox| ensures Resolves(more, n, d) <==> Resolves(rs, n, d) || (n == r.notification && d == r.delivered) {
      if Resolves(rs, n, d) {
        var i :| 0 <= i < |rs| && rs[i].notification == n && rs[i].delivered == d;
        assert more[i] == rs[i];
      }
      if n == r.notification && d == r.delivered { assert more[|rs|] == r; }
    }
  }

  // ---------------------------------------------------------------- actions

  lemma {:induction false} AcquireAudit(s: Db, j: Journal, stream: Stream, owner: nat, now: int, seconds: int)
    requires JournalOk(s, j)
    ensures JournalOk(AcquireLease(s, stream, owner, now, seconds).0, AcquireJournal(s, j, stream, owner, now, seconds))
  {
    var t, k := AcquireLease(s, stream, owner, now, seconds).0, AcquireJournal(s, j, stream, owner, now, seconds);
    var m := if stream == TelegramDispatch && stream in s.leases && AcquireLease(s, stream, owner, now, seconds).1.Some?
             then RecoverPrepared(s, s.leases[stream].owner, s.leases[stream].fence) else s;
    if m != s || k != j { RecoverAudit(s, j, s.leases[stream].owner, s.leases[stream].fence); }
    assert t.attempts == m.attempts && t.outbox == m.outbox;
    assert k == k.(events := k.events + []);
    AttemptsStay(m, t, k, k, []);
  }

  lemma {:induction false} ReleaseAudit(s: Db, j: Journal, l: StreamLease, now: int, done: bool)
    requires JournalOk(s, j)
    ensures JournalOk(ReleaseLease(s, l, now, done), ReleaseJournal(s, j, l, done))
  {
    var t, k := ReleaseLease(s, l, now, done), ReleaseJournal(s, j, l, done);
    var m := if l.stream == TelegramDispatch && !done then RecoverPrepared(s, l.owner, l.fence) else s;
    if l.stream == TelegramDispatch && !done { RecoverAudit(s, j, l.owner, l.fence); }
    assert k == k.(events := k.events + []);
    AttemptsStay(m, t, k, k, []);
  }

  lemma {:induction false} PreparedAudit(s: Db, j: Journal, t: Tick, now: int, c: Choice)
    requires JournalOk(s, j) && t.PreparedAt?
    ensures JournalOk(Advance(s, t, now, c).0, AdvanceJournal(s, j, t, now, c))
  {
    if c == Resolved(Abandon) { SettleAudit(s, j, t.a, Abandon, t.l, now); } else { MarkAudit(s, j, t.a, t.l, now); }
  }

  lemma {:induction false} AdvanceAudit(s: Db, j: Journal, t: Tick, now: int, c: Choice)
    requires JournalOk(s, j)
    ensures JournalOk(Advance(s, t, now, c).0, AdvanceJournal(s, j, t, now, c))
  {
    assert j == j.(events := j.events + []);
    match t
    case Resumed(l) => ClaimAudit(s, j, l, now);
    case Picked(l, n, _) => RecoverSentAudit(s, j, n, l, now);
    case Checked(_, n) => AttemptsStay(s, Advance(s, t, now, c).0, j, j, []);
    case Chosen(l, n, i) => PrepareAudit(s, j, n, i, l, now);
    case PreparedAt(_, _, _, _) => PreparedAudit(s, j, t, now, c);
    case Unlinked(l, _, _, a) => SettleAudit(s, j, a, Abandon, l, now);
    case SentAt(l, a) => if c.Resolved? { SettleAudit(s, j, a, c.v, l, now); }
    case Ending(l, done) => ReleaseAudit(s, j, l, now, done);
    case _ =>
  }

  lemma {:induction false} NoteAudit(w: World, j: Journal, act: Action)
    requires JournalOk(w.db, j)
    ensures JournalOk(Act(w, act).db, Note(w, j, act))
  {
    assert j == j.(events := j.events + []);
    match act
    case Begin(owner, now, seconds) => AcquireAudit(w.db, j, TelegramDispatch, owner, now, seconds);
    case Move(t, now, c) => if t < |w.ticks| { AdvanceAudit(w.db, j, w.ticks[t], now, c); }
    case Intent(_) => AttemptsStay(w.db, Act(w, act).db, j, j, []);
    case Operator(n, expected, delivered) => ResolveAudit(w.db, j, n, expected, delivered);
    case OtherAcquire(stream, owner, now, seconds) =>
      if stream != TelegramDispatch { AcquireAudit(w.db, j, stream, owner, now, seconds); }
    case OtherRelease(l, now, done) =>
      if l.stream != TelegramDispatch { ReleaseAudit(w.db, j, l, now, done); }
  }

  // ---------------------------------------------------------------- tokens

  lemma TokensKeep(s: Db, j: Journal, k: Journal)
    requires JournalOk(s, j) && k == j.(callbacks := k.callbacks) && CallbacksOk(s, k.callbacks)
    ensures JournalOk(s, k)
  {
    forall a | 0 <= a < |s.attempts| ensures Told(s, k, a) { assert Told(s, j, a); }
  }

  /** A tick links tokens to the attempt it has just prepared. */
  lemma {:induction false} LinkAudit(o: Office, t: nat, k: nat, now: int)
    requires Inv(o.world) && JournalOk(o.world.db, o.journal)
    ensures Inv(LinkStep(o, t, k, now).world) && JournalOk(LinkStep(o, t, k, now).world.db, LinkStep(o, t, k, now).journal)
  {
    if t < |o.world.ticks| && o.world.ticks[t].PreparedAt? && HasButtons(o.world.db, o.world.ticks[t].n, o.world.ticks[t].index) {
      var me, s, j := o.world.ticks[t], o.world.db, o.journal;
      if !Current(s, me.l, now) {
        ActKeepsInv(o.world, Move(t, now, Fail));
        NoteAudit(o.world, j, Move(t, now, Fail));
      } else if !Linkable(j, k) {
        ActKeepsInv(o.world, Move(t, now, LinkFailed));
        NoteAudit(o.world, j, Move(t, now, LinkFailed));
      } else {
        assert TickOk(s, me) && AttemptOk(s, me.a);
        LinkedJournal(s, j, k, me.n, me.a);
      }
    }
  }

  lemma LinkedJournal(s: Db, j: Journal, k: nat, n: nat, a: nat)
    requires JournalOk(s, j) && Linkable(j, k) && a < |s.attempts| && s.attempts[a].notification == n && n < |s.outbox|
    requires s.attempts[a].state == Prepared && s.outbox[n].state == Sending
    ensures JournalOk(s, LinkJournal(j, k, n, a))
  {
    var m := LinkJournal(j, k, n, a);
    var e := Event(n, Some(a), ELinked);
    forall b | 0 <= b < |s.attempts| ensures Tells(s, s, [e], [], b) { Nothing(b); }
    assert m.attemptEvents == j.attemptEvents + [];
    TrailAppend(s, s, j, m, [e], []);
    assert CallbackOk(s, j.callbacks[k]);
  }

  /** A button that acts belongs to a message that was accepted or may have arrived. */
  lemma PressAudit(s: Db, j: Journal, k: nat)
    requires DbInv(s) && JournalOk(s, j) && Actable(s, j, k)
    ensures JournalOk(s, j.(callbacks := j.callbacks[k := j.callbacks[k].(consumed := true)]))
  {
    var cb := j.callbacks[k];
    assert CallbackOk(s, cb) && AttemptOk(s, cb.link.value.attempt);
    TokensKeep(s, j, j.(callbacks := j.callbacks[k := cb.(consumed := true)]));
  }

  ghost predicate OfficeInv(o: Office) { Inv(o.world) && JournalOk(o.world.db, o.journal) }

  lemma {:induction false} DoKeepsInv(o: Office, d: Doing)
    requires OfficeInv(o)
    ensures OfficeInv(Do(o, d))
  {
    match d
    case Core(act) =>
      ActKeepsInv(o.world, act);
      NoteAudit(o.world, o.journal, act);
    case LinkNext(t, k, now) => LinkAudit(o, t, k, now);
    case Issue => TokensKeep(o.world.db, o.journal, Do(o, d).journal);
    case Revoke(k) =>
      if k < |o.journal.callbacks| {
        assert CallbackOk(o.world.db, o.journal.callbacks[k]);
        TokensKeep(o.world.db, o.journal, Do(o, d).journal);
      }
    case Press(k) => if Actable(o.world.db, o.journal, k) { PressAudit(o.world.db, o.journal, k); }
  }

  lemma {:induction false} DaysKeepInv(doings: seq<Doing>)
    ensures OfficeInv(Days(doings))
    decreases |doings|
  {
    if doings != [] {
      DaysKeepInv(doings[..|doings| - 1]);
      DoKeepsInv(Days(doings[..|doings| - 1]), doings[|doings| - 1]);
    }
  }

  /** The outbox under the journal goes through a run of the ticks, so whatever holds of those holds here. */
  lemma {:induction false} DaysAreRuns(doings: seq<Doing>) returns (acts: seq<Action>)
    ensures Days(doings).world == Run(START, acts)
    decreases |doings|
  {
    if doings == [] { return []; }
    var front, last := doings[..|doings| - 1], doings[|doings| - 1];
    acts := DaysAreRuns(front);
    var w, v := Days(front).world, Days(doings).world;
    var act := match last
      case Core(a) => a
      case LinkNext(t, _, now) => Move(t, now, if v == Act(w, Move(t, now, Fail)) then Fail else LinkFailed)
      case _ => Intent(false);
    if v != w || last.Core? {
      assert v == Act(w, act);
      assert (acts + [act])[..|acts|] == acts;
      acts := acts + [act];
    }
  }

  // ---------------------------------------------------------------- the guarantees

  /**
    Over every run: a button takes effect only through an attempt that was accepted or whose outcome is unknown, and
    no live button is left on an attempt that was rejected or abandoned, or on a notification given up.
   */
  lemma {:induction false} ButtonsFollowMessages(doings: seq<Doing>, k: nat)
    requires k < |Days(doings).journal.callbacks| && Days(doings).journal.callbacks[k].link.Some?
    ensures var o := Days(doings);
            var cb := o.journal.callbacks[k];
            var n, a := cb.link.value.notification, cb.link.value.attempt;
            && a < |o.world.db.attempts| && n < |o.world.db.outbox| && o.world.db.attempts[a].notification == n
            && (cb.consumed ==> o.world.db.attempts[a].state in {Accepted, AmbiguousAttempt})
            && (o.world.db.attempts[a].state in {TrustedRejected, AbandonedPreMarker} ==> cb.revoked)
            && (o.world.db.outbox[n].state == ResolvedAbandoned ==> cb.revoked || cb.consumed)
  {
    DaysKeepInv(doings);
    assert CallbackOk(Days(doings).world.db, Days(doings).journal.callbacks[k]);
  }

  /** Over every run: the journal alone tells which attempts were accepted, rejected, left unknown or abandoned. */
  lemma {:induction false} JournalTellsAttempts(doings: seq<Doing>, a: nat)
    requires a < |Days(doings).world.db.attempts|
    ensures Told(Days(doings).world.db, Days(doings).journal, a)
  {
    DaysKeepInv(doings);
  }

  /** Over every run: an operator resolves a notification at most once, and its state is that of its resolution. */
  lemma {:induction false} OneResolution(doings: seq<Doing>, n: nat)
    requires n < |Days(doings).world.db.outbox|
    ensures var s, rs := Days(doings).world.db, Days(doings).journal.resolutions;
            && (forall i, k | 0 <= i < k < |rs| :: rs[i].notification != rs[k].notification)
            && (Resolves(rs, n, true) <==> s.outbox[n].state == ResolvedDelivered)
            && (Resolves(rs, n, false) <==> s.outbox[n].state == ResolvedAbandoned)
  {
    DaysKeepInv(doings);
  }

  // ---------------------------------------------------------------- live buttons

  predicate Live(cb: Callback) { cb.link.Some? && !cb.consumed && !cb.revoked }

  /** The message of the token was certainly not delivered, or given up by the operator. */
  ghost predicate Dead(s: Db, cb: Callback) {
    && cb.link.Some?
    && ((cb.link.value.attempt < |s.attempts| && Harmless(s.attempts[cb.link.value.attempt].state))
        || (cb.link.value.notification < |s.outbox| && s.outbox[cb.link.value.notification].state == ResolvedAbandoned))
  }

  /** A transaction takes a live token away only with its message. */
  ghost predicate TakesOnlyDead(t: Db, cs: seq<Callback>, ds: seq<Callback>) {
    && |ds| >= |cs|
    && forall k | 0 <= k < |cs| && Live(cs[k]) :: ds[k].link == cs[k].link && (Live(ds[k]) || Dead(t, ds[k]))
  }

  lemma RecoveryTakesOnlyDead(s: Db, j: Journal, owner: nat, fence: nat)
    ensures TakesOnlyDead(RecoverPrepared(s, owner, fence), j.callbacks, RecoverJournal(s, j, owner, fence).callbacks)
  {
  }

  lemma AcquireTakesOnlyDead(s: Db, j: Journal, stream: Stream, owner: nat, now: int, seconds: int)
    ensures TakesOnlyDead(AcquireLease(s, stream, owner, now, seconds).0, j.callbacks, AcquireJournal(s, j, stream, owner, now, seconds).callbacks)
  {
    if stream == TelegramDispatch && stream in s.leases {
      RecoveryTakesOnlyDead(s, j, s.leases[stream].owner, s.leases[stream].fence);
    }
  }

  lemma ReleaseTakesOnlyDead(s: Db, j: Journal, l: StreamLease, now: int, done: bool)
    ensures TakesOnlyDead(ReleaseLease(s, l, now, done), j.callbacks, ReleaseJournal(s, j, l, done).callbacks)
  {
    RecoveryTakesOnlyDead(s, j, l.owner, l.fence);
  }

  lemma SettleTakesOnlyDead(s: Db, j: Journal, a: nat, v: Verdict, l: StreamLease, now: int)
    ensures TakesOnlyDead(SettleAttempt(s, a, v, l, now).0, j.callbacks, SettleJournal(s, j, a, v, l, now).callbacks)
  {
  }

  lemma ResolveTakesOnlyDead(s: Db, j: Journal, n: nat, expected: NotificationState, delivered: bool)
    ensures TakesOnlyDead(Resolve(s, n, expected, delivered), j.callbacks, ResolveJournal(s, j, n, expected, delivered).callbacks)
  {
  }

  lemma AdvanceTakesOnlyDead(s: Db, j: Journal, t: Tick, now: int, c: Choice)
    ensures TakesOnlyDead(Advance(s, t, now, c).0, j.callbacks, AdvanceJournal(s, j, t, now, c).callbacks)
  {
    match t
    case PreparedAt(l, _, _, a) => SettleTakesOnlyDead(s, j, a, Abandon, l, now);
    case Unlinked(l, _, _, a) => SettleTakesOnlyDead(s, j, a, Abandon, l, now);
    case SentAt(l, a) => if c.Resolved? { SettleTakesOnlyDead(s, j, a, c.v, l, now); }
    case Ending(l, done) => ReleaseTakesOnlyDead(s, j, l, now, done);
    case _ => QuietAdvance(s, j, t, now, c);
  }

  lemma QuietAdvance(s: Db, j: Journal, t: Tick, now: int, c: Choice)
    requires !t.PreparedAt? && !t.Unlinked? && !t.SentAt? && !t.Ending?
    ensures AdvanceJournal(s, j, t, now, c).callbacks == j.callbacks
  {
  }

  lemma NoteTakesOnlyDead(w: World, j: Journal, act: Action)
    ensures TakesOnlyDead(Act(w, act).db, j.callbacks, Note(w, j, act).callbacks)
  {
    match act
    case Begin(owner, now, seconds) => AcquireTakesOnlyDead(w.db, j, TelegramDispatch, owner, now, seconds);
    case Move(t, now, c) => if t < |w.ticks| { AdvanceTakesOnlyDead(w.db, j, w.ticks[t], now, c); }
    case Operator(n, expected, delivered) => ResolveTakesOnlyDead(w.db, j, n, expected, delivered);
    case _ =>
  }

  /**
    A live button is taken away only when it is revoked elsewhere, pressed, or when its message is certainly not in
    the chat: whatever else happens, it stays live.
   */
  lemma {:induction false} LiveButtonsStay(o: Office, d: Doing, k: nat)
    requires OfficeInv(o) && k < |o.journal.callbacks| && Live(o.journal.callbacks[k]) && d != Revoke(k) && d != Press(k)
    ensures var p := Do(o, d);
            && k < |p.journal.callbacks| && p.journal.callbacks[k].link == o.journal.callbacks[k].link
            && (Live(p.journal.callbacks[k]) <==> !Dead(p.world.db, p.journal.callbacks[k]))
  {
    DoKeepsInv(o, d);
    DoTakesOnlyDead(o, d, k);
    LiveIsNotDead(Do(o, d).world.db, Do(o, d).journal.callbacks[k]);
  }

  lemma LiveIsNotDead(s: Db, cb: Callback)
    requires CallbackOk(s, cb)
    ensures Live(cb) ==> !Dead(s, cb)
  {
  }

  lemma DoTakesOnlyDead(o: Office, d: Doing, k: nat)
    requires k < |o.journal.callbacks| && Live(o.journal.callbacks[k]) && d != Revoke(k) && d != Press(k)
    ensures var p := Do(o, d);
            && k < |p.journal.callbacks| && p.journal.callbacks[k].link == o.journal.callbacks[k].link
            && (Live(p.journal.callbacks[k]) || Dead(p.world.db, p.journal.callbacks[k]))
  {
    if d.Core? { NoteTakesOnlyDead(o.world, o.journal, d.act); }
  }
}
