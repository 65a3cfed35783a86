/** Where every transaction of the outbox leaves its rows, that what is closed stays closed, and that an undisturbed tick sends. */
module OutboxOutcomes {
  import opened Common
  import opened OutboxModel
  import opened OutboxTick
  import opened OutboxInvariant
  import opened OutboxTheorems

  // ---------------------------------------------------------------- verdicts

  ghost predicate PartTaken(s: Db, n: nat) {
    exists a :: 0 <= a < |s.attempts| && s.attempts[a].notification == n && s.attempts[a].state == Accepted
  }

  ghost predicate ChunkTaken(s: Db, n: nat, i: nat) {
    exists a :: 0 <= a < |s.attempts| && s.attempts[a].notification == n && s.attempts[a].index == i && s.attempts[a].state == Accepted
  }

  ghost predicate EveryChunkTaken(s: Db, n: nat) { n in s.chunks && forall i: nat | i < |s.chunks[n]| :: ChunkTaken(s, n, i) }

  /** Where a verdict sends a notification, given whether part of it was delivered before. */
  ghost predicate SentTo(v: Verdict, noonDigest: bool, partly: bool, whole: bool, st: NotificationState) {
    match v
    case Accept => st == (if whole then Sent else Sending)
    case Reject(retryable) =>
      if retryable && (noonDigest || !partly) then st == Pending else st == (if partly then PartialManual else Canceled)
    case Unknown => st == (if partly then PartialManual else AmbiguousSend)
    case Abandon => st == (if partly then PartialManual else Pending)
  }

  ghost predicate EndsAs(v: Verdict, st: AttemptState) {
    match v
    case Accept => st == Accepted
    case Reject(_) => st == TrustedRejected
    case Unknown => st == AmbiguousAttempt
    case Abandon => st == AbandonedPreMarker
  }

  /** Only this attempt and its notification differ. */
  ghost predicate OnlyAt(s: Db, t: Db, a: nat)
    requires a < |s.attempts|
  {
    var n := s.attempts[a].notification;
    && t == s.(attempts := t.attempts, outbox := t.outbox) && |t.attempts| == |s.attempts| && |t.outbox| == |s.outbox|
    && t.attempts[a] == s.attempts[a].(state := t.attempts[a].state)
    && (forall b | 0 <= b < |s.attempts| && b != a :: t.attempts[b] == s.attempts[b])
    && (forall m | 0 <= m < |s.outbox| && m != n :: t.outbox[m] == s.outbox[m])
    && (n < |s.outbox| ==> t.outbox[n] == s.outbox[n].(state := t.outbox[n].state))
  }

  /** A verdict is taken exactly from the current holder, on an open attempt of its own; and this is where it leads. */
  lemma {:induction false} VerdictLeads(s: Db, a: nat, v: Verdict, l: StreamLease, now: int)
    requires DbInv(s)
    ensures var (t, got) := SettleAttempt(s, a, v, l, now);
            && (got.Got? <==>
                  && l.stream in s.leases && s.leases[l.stream].owner == l.owner && s.leases[l.stream].fence == l.fence
                  && s.leases[l.stream].expiresAt > now
                  && a < |s.attempts| && s.attempts[a].owner == l.owner && s.attempts[a].fence == l.fence
                  && s.attempts[a].state in {Prepared, PossiblySent})
            && (!got.Got? ==> t == s)
            && (got.Got? ==>
                  && OnlyAt(s, t, a) && EndsAs(v, t.attempts[a].state)
                  && var n := s.attempts[a].notification;
                  && n < |s.outbox|
                  && SentTo(v, s.outbox[n].noonDigest, PartTaken(s, n), EveryChunkTaken(t, n), t.outbox[n].state))
  {
    var (t, got) := SettleAttempt(s, a, v, l, now);
    if a < |s.attempts| && IsOpen(s.attempts[a]) { assert AttemptOk(s, a); }
    if got.Got? {
      OpenAttemptIsLast(s, a);
      var n := s.attempts[a].notification;
      var m := s.(attempts := s.attempts[a := s.attempts[a].(state := AttemptAfter(v))]);
      if !v.Accept? { AcceptedAlike(s, m, a, n); }
      if v.Accept? { AllAcceptedMeans(m, t, n); }
    }
  }

  lemma AcceptedAlike(s: Db, m: Db, a: nat, n: nat)
    requires a < |s.attempts| == |m.attempts| && s.attempts[a].state != Accepted && m.attempts[a].state != Accepted
    requires m.attempts == s.attempts[a := m.attempts[a]]
    ensures HasAccepted(m, n) <==> PartTaken(s, n)
  {
    if HasAccepted(m, n) {
      var b :| 0 <= b < |m.attempts| && m.attempts[b].notification == n && m.attempts[b].state == Accepted;
      assert s.attempts[b].state == Accepted;
    }
    if PartTaken(s, n) {
      var b :| 0 <= b < |s.attempts| && s.attempts[b].notification == n && s.attempts[b].state == Accepted;
      assert m.attempts[b].state == Accepted;
    }
  }

  lemma AllAcceptedMeans(m: Db, t: Db, n: nat)
    requires t.attempts == m.attempts && t.chunks == m.chunks
    ensures AllAccepted(m, n) <==> EveryChunkTaken(t, n)
  {
    forall i: nat ensures ChunkAccepted(m, n, i) <==> ChunkTaken(t, n, i) {}
    if n in m.chunks && EveryChunkTaken(t, n) {
      forall i | 0 <= i < |m.chunks[n]| ensures ChunkAccepted(m, n, i) { assert ChunkTaken(t, n, i); }
    }
  }

  // ---------------------------------------------------------------- recoveries

  /** An attempt of a lease that was never marked. */
  ghost predicate NeverMarked(s: Db, a: nat, owner: nat, fence: nat) {
    a < |s.attempts| && s.attempts[a].owner == owner && s.attempts[a].fence == fence && s.attempts[a].state == Prepared
  }

  /**
    A takeover abandons exactly the unmarked attempts of the lease, and sends exactly their notifications back: to
    pending, or to an operator where part was delivered.
   */
  lemma {:induction false} RecoveryLeads(s: Db, owner: nat, fence: nat)
    requires DbInv(s)
    ensures var t := RecoverPrepared(s, owner, fence);
            && t == s.(attempts := t.attempts, outbox := t.outbox) && |t.attempts| == |s.attempts| && |t.outbox| == |s.outbox|
            && (forall a | 0 <= a < |s.attempts| ::
                  t.attempts[a] == if NeverMarked(s, a, owner, fence) then s.attempts[a].(state := AbandonedPreMarker) else s.attempts[a])
            && (forall n | 0 <= n < |s.outbox| ::
                  t.outbox[n] == if exists a: nat :: NeverMarked(s, a, owner, fence) && s.attempts[a].notification == n
                                 then s.outbox[n].(state := if PartTaken(s, n) then PartialManual else Pending) else s.outbox[n])
  {
    forall a: nat ensures Unmarked(s, a, owner, fence) <==> NeverMarked(s, a, owner, fence) {
      if a < |s.attempts| { assert AttemptOk(s, a); }
    }
    forall n: nat ensures HasUnmarked(s, n, owner, fence) <==> exists a: nat :: NeverMarked(s, a, owner, fence) && s.attempts[a].notification == n {
      if HasUnmarked(s, n, owner, fence) {
        var a :| 0 <= a < |s.attempts| && s.attempts[a].notification == n && Unmarked(s, a, owner, fence);
        assert NeverMarked(s, a, owner, fence);
      }
    }
  }

  /** A request that may have been sent is never repeated: its attempt and its notification become ambiguous. */
  lemma {:induction false} PossiblySentIsAmbiguous(s: Db, n: nat, l: StreamLease, now: int, a: nat)
    requires DbInv(s) && Current(s, l, now)
    requires a < |s.attempts| && s.attempts[a].notification == n && s.attempts[a].state == PossiblySent
    ensures var (t, got) := RecoverPossiblySent(s, n, l, now);
            && got == Got(a) && OnlyAt(s, t, a) && t.attempts[a].state == AmbiguousAttempt
            && n < |s.outbox| && t.outbox[n].state == AmbiguousSend
  {
    assert AttemptOk(s, a);
    var r := FirstPossiblySent(s.attempts, n, 0);
    assert r.Some? && IsOpen(s.attempts[r.value]) && IsOpen(s.attempts[a]);
  }

  /** The operator's word is the end of an ambiguous or partly delivered notification. */
  lemma OperatorDecides(s: Db, n: nat, expected: NotificationState, delivered: bool)
    ensures var t := Resolve(s, n, expected, delivered);
            if n < |s.outbox| && s.outbox[n].state == expected && expected in {AmbiguousSend, PartialManual}
            then t == s.(outbox := s.outbox[n := s.outbox[n].(state := if delivered then ResolvedDelivered else ResolvedAbandoned)])
            else t == s
  {
  }

  // ---------------------------------------------------------------- closed notifications

  predicate Closed(st: NotificationState) {
    st in {Sent, Canceled, AmbiguousSend, PartialManual, ResolvedDelivered, ResolvedAbandoned}
  }

  /** The notification is closed, and no tick is about to send a message of it. */
  ghost predicate Quiet(w: World, n: nat) {
    && n < |w.db.outbox| && Closed(w.db.outbox[n].state)
    && forall t | 0 <= t < |w.ticks| && w.ticks[t].MarkedAt? && w.ticks[t].a < |w.db.attempts| ::
         w.db.attempts[w.ticks[t].a].notification != n
  }

  /** A tick before its send has an attempt that no verdict has closed yet. */
  ghost predicate MarkedFresh(w: World) {
    forall t | 0 <= t < |w.ticks| && w.ticks[t].MarkedAt? && w.ticks[t].a < |w.db.attempts| ::
      w.db.attempts[w.ticks[t].a].state in {PossiblySent, AmbiguousAttempt}
  }

  /** One step of one tick changes, of other leases' attempts, at most a possibly sent one to ambiguous. */
  ghost predicate SparesOthers(s: Db, t: Db, l: StreamLease) {
    && |s.attempts| <= |t.attempts|
    && forall a | 0 <= a < |s.attempts| && !(s.attempts[a].owner == l.owner && s.attempts[a].fence == l.fence) ::
         t.attempts[a] == s.attempts[a] || (s.attempts[a].state == PossiblySent && t.attempts[a] == s.attempts[a].(state := AmbiguousAttempt))
  }

  lemma AdvanceSparesOthers(s: Db, t: Tick, now: int, c: Choice)
    ensures SparesOthers(s, Advance(s, t, now, c).0, t.l)
  {
    match t
    case Ending(l, done) =>
    case Resumed(l) =>
    case Picked(l, n, seen) =>
    case Checked(l, n) =>
    case Chosen(l, n, i) =>
    case PreparedAt(l, n, i, a) =>
    case Unlinked(l, n, i, a) =>
    case SentAt(l, a) =>
    case _ =>
  }

  /** No step of a tick opens a closed notification again. */
  lemma AdvanceKeepsClosed(s: Db, t: Tick, now: int, c: Choice, n: nat)
    requires DbInv(s) && TickOk(s, t) && n < |s.outbox| && Closed(s.outbox[n].state)
    ensures n < |Advance(s, t, now, c).0.outbox| && Closed(Advance(s, t, now, c).0.outbox[n].state)
  {
    match t
    case Ending(l, done) => UnmarkedIsSending(s, n, l.owner, l.fence);
    case Resumed(l) =>
    case Picked(l, m, seen) =>
    case Checked(l, m) =>
    case Chosen(l, m, i) =>
    case PreparedAt(l, m, i, a) =>
    case Unlinked(l, m, i, a) =>
    case SentAt(l, a) =>
    case _ =>
  }

  lemma AdvanceStops(s: Db, t: Tick, now: int, c: Choice)
    requires DbInv(s) && TickOk(s, t)
    ensures Advance(s, t, now, c).1.MarkedAt? ==>
              t.PreparedAt? && Advance(s, t, now, c).1.a == t.a && t.a < |s.attempts| && s.attempts[t.a].state == Prepared
              && t.a < |Advance(s, t, now, c).0.attempts| && Advance(s, t, now, c).0.attempts[t.a].state == PossiblySent
    ensures Advance(s, t, now, c).2.Some? <==> t.MarkedAt? && c != Fail
    ensures Advance(s, t, now, c).2.Some? ==> Advance(s, t, now, c).2.value == t.a && !Advance(s, t, now, c).1.MarkedAt?
  {
  }

  lemma MoveKeepsFresh(w: World, t: nat, now: int, c: Choice)
    requires Inv(w) && MarkedFresh(w) && t < |w.ticks|
    ensures MarkedFresh(Act(w, Move(t, now, c)))
  {
    var me := w.ticks[t];
    var v := Act(w, Move(t, now, c));
    assert TickOk(w.db, me);
    AdvanceSparesOthers(w.db, me, now, c);
    AdvanceStops(w.db, me, now, c);
    forall u | 0 <= u < |v.ticks| && v.ticks[u].MarkedAt? && v.ticks[u].a < |v.db.attempts|
      ensures v.db.attempts[v.ticks[u].a].state in {PossiblySent, AmbiguousAttempt}
    {
      if u != t {
        assert TickOk(w.db, w.ticks[u]) && w.ticks[u].l.fence != me.l.fence;
      }
    }
  }

  lemma BeginKeepsFresh(w: World, owner: nat, now: int, seconds: int)
    requires Inv(w) && MarkedFresh(w)
    ensures MarkedFresh(Act(w, Begin(owner, now, seconds)))
  {
    var v := Act(w, Begin(owner, now, seconds));
    forall u | 0 <= u < |v.ticks| && v.ticks[u].MarkedAt? && v.ticks[u].a < |v.db.attempts|
      ensures v.db.attempts[v.ticks[u].a].state in {PossiblySent, AmbiguousAttempt}
    {
      assert v.ticks[u] == w.ticks[u] && TickOk(w.db, w.ticks[u]);
    }
  }

  lemma ActKeepsFresh(w: World, act: Action)
    requires Inv(w) && MarkedFresh(w)
    ensures MarkedFresh(Act(w, act))
  {
    match act
    case Begin(owner, now, seconds) => BeginKeepsFresh(w, owner, now, seconds);
    case Move(t, now, c) => if t < |w.ticks| { MoveKeepsFresh(w, t, now, c); }
    case Intent(_) =>
    case Operator(_, _, _) =>
    case OtherAcquire(stream, owner, now, seconds) => if stream != TelegramDispatch { AcquireElsewhere(w.db, stream, owner, now, seconds); }
    case OtherRelease(l, now, done) => if l.stream != TelegramDispatch { ReleaseElsewhere(w.db, l, now, done); }
  }

  lemma {:induction false} RunKeepsFresh(acts: seq<Action>)
    ensures Inv(Run(START, acts)) && MarkedFresh(Run(START, acts))
    decreases |acts|
  {
    RunKeepsInv(acts);
    if acts != [] {
      RunKeepsFresh(acts[..|acts| - 1]);
      ActKeepsFresh(Run(START, acts[..|acts| - 1]), acts[|acts| - 1]);
    }
  }

  /** Nothing of this notification is added to the log. */
  ghost predicate SendsNothingOf(w: World, v: World, n: nat) {
    && w.log <= v.log
    && forall k | |w.log| <= k < |v.log| && v.log[k] < |v.db.attempts| :: v.db.attempts[v.log[k]].notification != n
  }

  lemma QuietMove(w: World, t: nat, now: int, c: Choice, n: nat)
    requires Inv(w) && Quiet(w, n) && t < |w.ticks|
    ensures Quiet(Act(w, Move(t, now, c)), n) && SendsNothingOf(w, Act(w, Move(t, now, c)), n)
  {
    var me := w.ticks[t];
    var v := Act(w, Move(t, now, c));
    assert TickOk(w.db, me);
    AdvanceKeepsClosed(w.db, me, now, c, n);
    AdvanceSparesOthers(w.db, me, now, c);
    AdvanceStops(w.db, me, now, c);
    AdvanceGrows(w, t, now, c);
    forall u | 0 <= u < |v.ticks| && v.ticks[u].MarkedAt? && v.ticks[u].a < |v.db.attempts|
      ensures v.db.attempts[v.ticks[u].a].notification != n
    {
      assert TickOk(w.db, w.ticks[u]);
      if u == t { assert AttemptOk(w.db, me.a); }
    }
  }

  lemma AdvanceGrows(w: World, t: nat, now: int, c: Choice)
    requires Inv(w) && t < |w.ticks|
    ensures Grows(w.db, Act(w, Move(t, now, c)).db)
  {
    var me := w.ticks[t];
    assert TickOk(w.db, me);
    if !me.Over? && !me.Ending? { AdvanceIsGood(w.db, me, now, c); }
  }

  lemma QuietAct(w: World, act: Action, n: nat)
    requires Inv(w) && Quiet(w, n)
    ensures Quiet(Act(w, act), n) && SendsNothingOf(w, Act(w, act), n)
  {
    match act
    case Begin(owner, now, seconds) => QuietBegin(w, owner, now, seconds, n);
    case Move(t, now, c) => if t < |w.ticks| { QuietMove(w, t, now, c, n); }
    case Intent(_) =>
    case Operator(_, _, _) =>
    case OtherAcquire(stream, owner, now, seconds) => if stream != TelegramDispatch { AcquireElsewhere(w.db, stream, owner, now, seconds); }
    case OtherRelease(l, now, done) => if l.stream != TelegramDispatch { ReleaseElsewhere(w.db, l, now, done); }
  }

  lemma QuietBegin(w: World, owner: nat, now: int, seconds: int, n: nat)
    requires Inv(w) && Quiet(w, n)
    ensures Quiet(Act(w, Begin(owner, now, seconds)), n) && SendsNothingOf(w, Act(w, Begin(owner, now, seconds)), n)
  {
    var v := Act(w, Begin(owner, now, seconds));
    if TelegramDispatch in w.db.leases {
      UnmarkedIsSending(w.db, n, w.db.leases[TelegramDispatch].owner, w.db.leases[TelegramDispatch].fence);
    }
    forall u | 0 <= u < |v.ticks| && v.ticks[u].MarkedAt? && v.ticks[u].a < |v.db.attempts|
      ensures v.db.attempts[v.ticks[u].a].notification != n
    {
      assert v.ticks[u] == w.ticks[u] && TickOk(w.db, w.ticks[u]);
    }
  }

  lemma ActGrows(w: World, act: Action)
    requires Inv(w)
    ensures Grows(w.db, Act(w, act).db)
  {
    match act
    case Begin(owner, now, seconds) => AcquireGrows(w.db, owner, now, seconds);
    case Move(t, now, c) => if t < |w.ticks| { AdvanceGrows(w, t, now, c); }
    case Intent(_) =>
    case Operator(_, _, _) =>
    case OtherAcquire(stream, owner, now, seconds) => if stream != TelegramDispatch { AcquireElsewhere(w.db, stream, owner, now, seconds); }
    case OtherRelease(l, now, done) => if l.stream != TelegramDispatch { ReleaseElsewhere(w.db, l, now, done); }
  }

  lemma NothingMore(w: World, v: World, x: World, n: nat)
    requires SendsNothingOf(w, v, n) && SendsNothingOf(v, x, n) && Grows(v.db, x.db) && LogOk(v)
    ensures SendsNothingOf(w, x, n)
  {
    forall k | |w.log| <= k < |x.log| && x.log[k] < |x.db.attempts| ensures x.db.attempts[x.log[k]].notification != n {
      if k < |v.log| { assert x.log[k] == v.log[k]; }
    }
  }

  lemma {:induction false} QuietForGood(w: World, acts: seq<Action>, n: nat)
    requires Inv(w) && Quiet(w, n)
    ensures Inv(Run(w, acts)) && Quiet(Run(w, acts), n) && SendsNothingOf(w, Run(w, acts), n)
    decreases |acts|
  {
    if acts != [] {
      var v := Run(w, acts[..|acts| - 1]);
      var act := acts[|acts| - 1];
      QuietForGood(w, acts[..|acts| - 1], n);
      ActKeepsInv(v, act);
      QuietAct(v, act, n);
      ActGrows(v, act);
      NothingMore(w, v, Act(v, act), n);
    }
  }

  /** A tick that closes the notification of its open attempt leaves it quiet. */
  lemma ClosingIsQuiet(w: World, t: nat, now: int, c: Choice, a: nat)
    requires Inv(w) && MarkedFresh(w) && t < |w.ticks| && OwnAttempt(w.db, a, w.ticks[t].l) && IsOpen(w.db.attempts[a])
    requires w.db.attempts[a].notification < |w.db.outbox| && !Act(w, Move(t, now, c)).ticks[t].MarkedAt?
    requires var v := Act(w, Move(t, now, c)); var n := w.db.attempts[a].notification;
             n < |v.db.outbox| && Closed(v.db.outbox[n].state)
    ensures Quiet(Act(w, Move(t, now, c)), w.db.attempts[a].notification)
  {
    var v := Act(w, Move(t, now, c));
    var n := w.db.attempts[a].notification;
    AdvanceGrows(w, t, now, c);
    assert AttemptOk(w.db, a);
    forall u | 0 <= u < |v.ticks| && v.ticks[u].MarkedAt? && v.ticks[u].a < |v.db.attempts|
      ensures v.db.attempts[v.ticks[u].a].notification != n
    {
      assert u != t && v.ticks[u] == w.ticks[u] && TickOk(w.db, w.ticks[u]) && w.ticks[u].l.fence != w.ticks[t].l.fence;
      var b := w.ticks[u].a;
      assert AttemptOk(w.db, b);
      assert b < a || a < b;
    }
  }

  /** What the settlement of a sent message does, tick and all. */
  lemma SettlingMove(w: World, t: nat, now: int, v: Verdict)
    requires Inv(w) && t < |w.ticks| && w.ticks[t].SentAt? && Current(w.db, w.ticks[t].l, now) && !v.Abandon?
    ensures var a := w.ticks[t].a;
            var u := Act(w, Move(t, now, Resolved(v)));
            && a < |w.db.attempts| && IsOpen(w.db.attempts[a]) && OwnAttempt(w.db, a, w.ticks[t].l)
            && (u.db, Got(a)) == SettleAttempt(w.db, a, v, w.ticks[t].l, now)
            && u.ticks == w.ticks[t := Ending(w.ticks[t].l, true)] && u.log == w.log
  {
    assert TickOk(w.db, w.ticks[t]);
    var a := w.ticks[t].a;
    assert AttemptOk(w.db, a);
  }

  /**
    Over every run: a message refused for good, or with an outcome nobody knows, is never followed by another message
    of its notification, whatever happens later; the notification is left canceled, ambiguous, or to an operator.
   */
  lemma {:induction false} RefusedForGood(acts: seq<Action>, t: nat, now: int, v: Verdict, more: seq<Action>)
    requires var w := Run(START, acts); t < |w.ticks| && w.ticks[t].SentAt? && Current(w.db, w.ticks[t].l, now)
    requires v == Reject(false) || v == Unknown
    ensures var w := Run(START, acts);
            var u := Act(w, Move(t, now, Resolved(v)));
            && w.ticks[t].a < |w.db.attempts|
            && var n := w.db.attempts[w.ticks[t].a].notification;
            && n < |u.db.outbox|
            && u.db.outbox[n].state == (if PartTaken(w.db, n) then PartialManual else if v.Unknown? then AmbiguousSend else Canceled)
            && SendsNothingOf(u, Run(u, more), n)
  {
    var w := Run(START, acts);
    RunKeepsFresh(acts);
    SettlingMove(w, t, now, v);
    VerdictLeads(w.db, w.ticks[t].a, v, w.ticks[t].l, now);
    var u := Act(w, Move(t, now, Resolved(v)));
    ClosingIsQuiet(w, t, now, Resolved(v), w.ticks[t].a);
    ActKeepsInv(w, Move(t, now, Resolved(v)));
    QuietForGood(u, more, w.db.attempts[w.ticks[t].a].notification);
  }

  /**
    Over every run: a message refused for now is sent again later: its notification is pending, unless a part of it
    was delivered and it is no noon digest; then it is an operator's, and nothing of it is sent any more.
   */
  lemma {:induction false} RefusedForNow(acts: seq<Action>, t: nat, now: int, more: seq<Action>)
    requires var w := Run(START, acts); t < |w.ticks| && w.ticks[t].SentAt? && Current(w.db, w.ticks[t].l, now)
    ensures var w := Run(START, acts);
            var u := Act(w, Move(t, now, Resolved(Reject(true))));
            && w.ticks[t].a < |w.db.attempts|
            && var n := w.db.attempts[w.ticks[t].a].notification;
            && n < |w.db.outbox| && n < |u.db.outbox| && u.db.attempts[w.ticks[t].a].state == TrustedRejected
            && if w.db.outbox[n].noonDigest || !PartTaken(w.db, n) then u.db.outbox[n].state == Pending
               else u.db.outbox[n].state == PartialManual && SendsNothingOf(u, Run(u, more), n)
  {
    var w := Run(START, acts);
    RunKeepsFresh(acts);
    SettlingMove(w, t, now, Reject(true));
    VerdictLeads(w.db, w.ticks[t].a, Reject(true), w.ticks[t].l, now);
    var u := Act(w, Move(t, now, Resolved(Reject(true))));
    var n := w.db.attempts[w.ticks[t].a].notification;
    if u.db.outbox[n].state == PartialManual {
      ClosingIsQuiet(w, t, now, Resolved(Reject(true)), w.ticks[t].a);
      ActKeepsInv(w, Move(t, now, Resolved(Reject(true))));
      QuietForGood(u, more, n);
    }
  }

  /** Over every run: an accepted last chunk ends the notification as sent, and nothing of it is sent again. */
  lemma {:induction false} SentForGood(acts: seq<Action>, t: nat, now: int, more: seq<Action>)
    requires var w := Run(START, acts); t < |w.ticks| && w.ticks[t].SentAt? && Current(w.db, w.ticks[t].l, now)
    ensures var w := Run(START, acts);
            var u := Act(w, Move(t, now, Resolved(Accept)));
            && w.ticks[t].a < |w.db.attempts| && u.db.attempts[w.ticks[t].a].state == Accepted
            && var n := w.db.attempts[w.ticks[t].a].notification;
            && n < |u.db.outbox|
            && if EveryChunkTaken(u.db, n) then u.db.outbox[n].state == Sent && SendsNothingOf(u, Run(u, more), n)
               else u.db.outbox[n].state == Sending
  {
    var w := Run(START, acts);
    RunKeepsFresh(acts);
    SettlingMove(w, t, now, Accept);
    VerdictLeads(w.db, w.ticks[t].a, Accept, w.ticks[t].l, now);
    var u := Act(w, Move(t, now, Resolved(Accept)));
    var n := w.db.attempts[w.ticks[t].a].notification;
    if u.db.outbox[n].state == Sent {
      ClosingIsQuiet(w, t, now, Resolved(Accept), w.ticks[t].a);
      ActKeepsInv(w, Move(t, now, Resolved(Accept)));
      QuietForGood(u, more, n);
    }
  }

  // ---------------------------------------------------------------- leases in force

  /** A stream is leased exactly when nobody's lease of it runs; the lease gets a new fence, its term, and a run of its own. */
  lemma {:induction false} LeaseGrantedExactly(s: Db, stream: Stream, owner: nat, now: int, seconds: int)
    requires DbInv(s)
    ensures var (t, l) := AcquireLease(s, stream, owner, now, seconds);
            && (l.Some? <==> seconds >= 1 && (stream in s.leases ==> s.leases[stream].expiresAt <= now))
            && (l.None? ==> t == s)
            && (l.Some? ==>
                  && l.value.stream == stream && l.value.owner == owner
                  && t.leases == s.leases[stream := StreamRow(owner, l.value.fence, now + seconds * 1_000_000)]
                  && |t.runs| == |s.runs| + 1 && t.runs[|s.runs|] == StreamRun(stream, owner, l.value.fence, false)
                  && (forall i | 0 <= i < |s.runs| && s.runs[i].stream == stream :: s.runs[i].fence < l.value.fence && t.runs[i].finished)
                  && (forall i | 0 <= i < |s.runs| && s.runs[i].stream != stream :: t.runs[i] == s.runs[i]))
  {
    var (t, l) := AcquireLease(s, stream, owner, now, seconds);
    if l.Some? {
      AcquireKeepsInv(s, stream, owner, now, seconds);
      AcquireIsInstall(s, stream, owner, now, seconds);
      VacatedKeepsInv(s, Vacated(s, stream), stream);
      VacatedRuns(s, stream);
    }
  }

  lemma VacatedRuns(s: Db, stream: Stream)
    ensures var m := Vacated(s, stream);
            && |m.runs| == |s.runs| && m.leases == s.leases
            && forall i | 0 <= i < |s.runs| :: m.runs[i].stream == s.runs[i].stream && (s.runs[i].stream != stream ==> m.runs[i] == s.runs[i])
  {
  }

  /** The lease row of a stream is given back exactly by its holder, before it ran out; a failed release recovers first. */
  lemma {:induction false} ReleasedExactly(s: Db, l: StreamLease, now: int, done: bool)
    ensures var t := ReleaseLease(s, l, now, done);
            && t.leases == (if Current(s, l, now) then s.leases - {l.stream} else s.leases)
            && |t.runs| == |s.runs|
            && (forall i | 0 <= i < |s.runs| ::
                  t.runs[i] == if s.runs[i].stream == l.stream && s.runs[i].fence == l.fence && s.runs[i].owner == l.owner
                               then s.runs[i].(finished := true) else s.runs[i])
            && (done || l.stream != TelegramDispatch ==> t.attempts == s.attempts && t.outbox == s.outbox)
  {
  }

  /** The action neither begins a tick after this term nor ends the tick of this lease. */
  ghost predicate Spares(w: World, act: Action, l: StreamLease, expiresAt: int) {
    && (act.Begin? ==> act.now < expiresAt)
    && (act.Move? && act.tick < |w.ticks| && w.ticks[act.tick].Ending? ==> w.ticks[act.tick].l != l)
  }

  lemma ActKeepsRow(w: World, act: Action, l: StreamLease)
    requires Inv(w) && l.stream == TelegramDispatch && Holds(w.db, l) && Spares(w, act, l, w.db.leases[TelegramDispatch].expiresAt)
    ensures Holds(Act(w, act).db, l)
    ensures Act(w, act).db.leases[TelegramDispatch] == w.db.leases[TelegramDispatch]
  {
    match act
    case Begin(_, _, _) =>
    case Move(t, now, c) =>
      if t < |w.ticks| {
        assert TickOk(w.db, w.ticks[t]);
        if !w.ticks[t].Over? && !w.ticks[t].Ending? { AdvanceIsGood(w.db, w.ticks[t], now, c); }
      }
    case _ =>
  }

  ghost predicate AllSpare(w: World, acts: seq<Action>, l: StreamLease, expiresAt: int) {
    forall n | 0 <= n < |acts| :: Spares(Run(w, acts[..n]), acts[n], l, expiresAt)
  }

  /** Nobody takes the dispatch stream away while its lease runs. */
  lemma {:induction false} RunningRowStays(w: World, acts: seq<Action>, l: StreamLease)
    requires Inv(w) && l.stream == TelegramDispatch && Holds(w.db, l) && AllSpare(w, acts, l, w.db.leases[TelegramDispatch].expiresAt)
    ensures Inv(Run(w, acts)) && Holds(Run(w, acts).db, l)
    ensures Run(w, acts).db.leases[TelegramDispatch] == w.db.leases[TelegramDispatch]
    decreases |acts|
  {
    if acts != [] {
      var n := |acts| - 1;
      FrontSpares(w, acts, l, w.db.leases[TelegramDispatch].expiresAt);
      RunningRowStays(w, acts[..n], l);
      ActKeepsRow(Run(w, acts[..n]), acts[n], l);
      ActKeepsInv(Run(w, acts[..n]), acts[n]);
    }
  }

  lemma FrontSpares(w: World, acts: seq<Action>, l: StreamLease, expiresAt: int)
    requires acts != [] && AllSpare(w, acts, l, expiresAt)
    ensures var n := |acts| - 1; AllSpare(w, acts[..n], l, expiresAt) && Spares(Run(w, acts[..n]), acts[n], l, expiresAt)
  {
    var n := |acts| - 1;
    forall m | 0 <= m < n ensures Spares(Run(w, acts[..n][..m]), acts[..n][m], l, expiresAt) {
      assert acts[..n][..m] == acts[..m];
      assert Spares(Run(w, acts[..m]), acts[m], l, expiresAt);
    }
  }
}
