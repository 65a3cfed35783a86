/** Runs of overlapping ticks: no chunk is sent again unless it was certainly not delivered. */
module OutboxTheorems {
  import opened Common
  import opened OutboxModel
  import opened OutboxTick
  import opened OutboxInvariant

  // ---------------------------------------------------------------- frames

  /** Attempt rows are never removed, never change hands, and once marked stay marked. */
  ghost predicate Grows(s: Db, t: Db) {
    && |s.attempts| <= |t.attempts|
    && forall a | 0 <= a < |s.attempts| ::
         && t.attempts[a].owner == s.attempts[a].owner && t.attempts[a].fence == s.attempts[a].fence
         && t.attempts[a].notification == s.attempts[a].notification && t.attempts[a].index == s.attempts[a].index
         && (WasMarked(s.attempts[a].state) ==> WasMarked(t.attempts[a].state))
  }

  /** A step of the holder l: every other tick is shut out before and after. */
  lemma ShutOutTicksKeep(s: Db, t: Db, l: StreamLease, u: Tick)
    requires Holds(s, l) && l.stream == TelegramDispatch && TickOk(s, u) && u.l.fence != l.fence
    requires Grows(s, t) && t.runs == s.runs && t.leases == s.leases
    ensures TickOk(t, u)
  {
    assert !Holds(t, u.l);
  }

  /** The parts of the database that dispatch ticks rely on stay as they are. */
  ghost predicate SameForTicks(s: Db, t: Db) {
    && t.attempts == s.attempts
    && (forall n | n in s.chunks :: n in t.chunks && t.chunks[n] == s.chunks[n])
    && |s.outbox| <= |t.outbox|
    && (forall n | 0 <= n < |s.outbox| && s.outbox[n].state in {Claimed, Sending} :: t.outbox[n] == s.outbox[n])
    && MaxFence(t.runs, TelegramDispatch) == MaxFence(s.runs, TelegramDispatch)
    && (forall l: StreamLease | l.stream == TelegramDispatch :: Holds(t, l) <==> Holds(s, l))
  }

  lemma {:induction false} SameForTicksKeeps(s: Db, t: Db, u: Tick)
    requires TickOk(s, u) && SameForTicks(s, t)
    ensures TickOk(t, u)
  {
    if Holds(t, u.l) {
      assert NoPrepared(s, u.l) ==> NoPrepared(t, u.l);
      forall n, i ensures ChunkAccepted(t, n, i) <==> ChunkAccepted(s, n, i) { SameAccepted(s, t, n, i); }
      match u
      case Picked(_, n, _) =>
      case Checked(_, n) => assert Ready(s, n) ==> Ready(t, n);
      case Chunked(_, n) => assert Ready(s, n) ==> Ready(t, n);
      case Chosen(_, n, _) => assert Ready(s, n) ==> Ready(t, n);
      case _ =>
    }
  }

  // ---------------------------------------------------------------- one step of one tick

  /** What a step of a tick that is not over and not ending leaves behind. */
  ghost predicate GoodStep(s: Db, l: StreamLease, r: (Db, Tick, Option<nat>)) {
    && DbInv(r.0) && TickOk(r.0, r.1) && r.1.l == l
    && Grows(s, r.0) && r.0.runs == s.runs && r.0.leases == s.leases
  }

  lemma {:induction false} FailIsGood(s: Db, t: Tick)
    requires DbInv(s) && TickOk(s, t)
    ensures GoodStep(s, t.l, (s, Ending(t.l, false), None))
  {
  }

  lemma {:induction false} HoldingStep(s: Db, t: Tick, now: int, c: Choice)
    requires DbInv(s) && TickOk(s, t) && t.Holding?
    ensures GoodStep(s, t.l, Advance(s, t, now, c))
  {
  }

  /** A claim never touches a notification that is being sent. */
  lemma {:induction false} ClaimKeepsInv(s: Db, l: StreamLease, now: int)
    requires DbInv(s)
    ensures var (s1, got) := ClaimNext(s, l, now);
            && DbInv(s1) && s1 == s.(outbox := s1.outbox)
            && (got.Got? ==> got.value < |s1.outbox| && s1.outbox[got.value].state in {Claimed, Sending})
  {
    if ClaimNext(s, l, now).0 != s {
      var n := OldestDispatchable(s.outbox, 0).value;
      PendingHasNoOpen(s, n);
      StateMoveKeepsInv(s, n, Claimed);
    }
  }

  lemma {:induction false} ClaimStep(s: Db, t: Tick, now: int, c: Choice)
    requires DbInv(s) && TickOk(s, t) && t.Resumed?
    ensures GoodStep(s, t.l, Advance(s, t, now, c))
  {
    var s1 := ClaimNext(s, t.l, now).0;
    ClaimKeepsInv(s, t.l, now);
    NoPreparedStays(s, s1, t.l);
    ResumedMoves(s, t, now, c);
  }

  /** Where a claim leads: to its notification, or to the end of the tick. */
  lemma ResumedMoves(s: Db, t: Tick, now: int, c: Choice)
    requires t.Resumed?
    ensures var r := Advance(s, t, now, c);
            var (s1, got) := ClaimNext(s, t.l, now);
            && (r.0 == s || r.0 == s1) && r.2.None?
            && (r.1.Picked? ==> got == Got(r.1.n) && r.1.n < |s1.outbox| && r.1 == Picked(t.l, r.1.n, s1.outbox[r.1.n].state) && r.0 == s1)
            && (r.1.Picked? || (r.1.Ending? && r.1.l == t.l))
            && (r.1.Ending? && r.1.done ==> Holds(s, t.l) && r.0 == s1)
  {
  }

  lemma NoPreparedStays(s: Db, t: Db, l: StreamLease)
    requires t.attempts == s.attempts
    ensures NoPrepared(s, l) ==> NoPrepared(t, l)
  {
  }

  lemma PendingHasNoOpen(s: Db, n: nat)
    requires DbInv(s) && n < |s.outbox| && s.outbox[n].state != Sending
    ensures NoOpen(s, n)
  {
    forall a | 0 <= a < |s.attempts| && s.attempts[a].notification == n ensures !IsOpen(s.attempts[a]) {
      assert AttemptOk(s, a);
    }
  }

  /** Recovery after the marker closes the attempt that may have been sent. */
  lemma {:induction false} RecoverSentKeepsInv(s: Db, n: nat, l: StreamLease, now: int)
    requires DbInv(s) && NoPrepared(s, l) && n < |s.outbox| && s.outbox[n].state == Sending
    ensures var (s1, got) := RecoverPossiblySent(s, n, l, now);
            DbInv(s1) && NoPrepared(s1, l) && Grows(s, s1) && s1.runs == s.runs && s1.leases == s.leases
  {
    var s1 := RecoverPossiblySent(s, n, l, now).0;
    var a := FirstPossiblySent(s.attempts, n, 0);
    if a.Some? && s1 != s {
      SentNeedsAccepted(s, s1, a.value, AmbiguousAttempt, AmbiguousSend);
      ClosingKeepsInv(s, s1, a.value, AmbiguousAttempt, AmbiguousSend);
      forall b | 0 <= b < |s1.attempts| && OwnAttempt(s1, b, l) ensures s1.attempts[b].state != Prepared {
        assert OwnAttempt(s, b, l);
      }
    }
  }

  /** Without an attempt that may have been sent, and without prepared ones, nothing is open. */
  lemma NothingOpen(s: Db, n: nat, l: StreamLease)
    requires DbInv(s) && Holds(s, l) && l.stream == TelegramDispatch && NoPrepared(s, l) && FirstPossiblySent(s.attempts, n, 0).None?
    ensures NoOpen(s, n)
  {
    forall b | 0 <= b < |s.attempts| && s.attempts[b].notification == n ensures !IsOpen(s.attempts[b]) {
      assert AttemptOk(s, b);
    }
  }

  lemma {:induction false} PickedStep(s: Db, t: Tick, now: int, c: Choice)
    requires DbInv(s) && TickOk(s, t) && t.Picked?
    ensures GoodStep(s, t.l, Advance(s, t, now, c))
  {
    if Holds(s, t.l) {
      if t.seen != Sending {
        PendingHasNoOpen(s, t.n);
      } else {
        RecoverSentKeepsInv(s, t.n, t.l, now);
        if FirstPossiblySent(s.attempts, t.n, 0).None? { NothingOpen(s, t.n, t.l); }
      }
    }
  }

  /** Closing an open attempt without accepting it cannot complete its notification. */
  lemma SentNeedsAccepted(s: Db, t: Db, a: nat, st: AttemptState, ns: NotificationState)
    requires DbInv(s) && Closing(s, t, a, st, ns) && st != Accepted
    ensures !AllAccepted(t, s.attempts[a].notification)
  {
    OpenAttemptIsLast(s, a);
    ClosingAccepted(s, t, a, st, ns, s.attempts[a].notification, s.attempts[a].index);
  }

  /** Chunk rows are created without a fence, by any tick that has computed the payload. */
  lemma {:induction false} CheckedStep(s: Db, t: Tick, now: int, c: Choice)
    requires DbInv(s) && TickOk(s, t) && t.Checked?
    ensures GoodStep(s, t.l, Advance(s, t, now, c))
    ensures SameForTicks(s, Advance(s, t, now, c).0)
  {
    if c.Chunks? {
      CreateChunksKeepsInv(s, t.n, c.metas);
      ChunksForTicks(s, t.n, c.metas, t.l);
    }
  }

  lemma ChunksForTicks(s: Db, n: nat, metas: seq<ChunkMeta>, l: StreamLease)
    ensures var s1 := CreateChunks(s, n, metas).0;
            && SameForTicks(s, s1) && s1.attempts == s.attempts && s1.runs == s.runs && s1.leases == s.leases
            && (NoPrepared(s, l) ==> NoPrepared(s1, l)) && (Ready(s, n) ==> Ready(s1, n))
            && (CreateChunks(s, n, metas).1.Got? ==> n in s1.chunks)
  {
    var s1 := CreateChunks(s, n, metas).0;
    NoPreparedStays(s, s1, l);
    assert NoOpen(s, n) ==> NoOpen(s1, n);
  }

  lemma {:induction false} ChunkedStep(s: Db, t: Tick, now: int, c: Choice)
    requires DbInv(s) && TickOk(s, t) && t.Chunked?
    ensures GoodStep(s, t.l, Advance(s, t, now, c))
  {
  }

  lemma {:induction false} ChosenStep(s: Db, t: Tick, now: int, c: Choice)
    requires DbInv(s) && TickOk(s, t) && t.Chosen?
    ensures GoodStep(s, t.l, Advance(s, t, now, c))
  {
    if Current(s, t.l, now) && c != Fail {
      PrepareKeepsInv(s, t.n, t.index, t.l, now);
      var s1 := PrepareAttempt(s, t.n, t.index, t.l, now).0;
      assert forall b | 0 <= b < |s.attempts| :: s1.attempts[b] == s.attempts[b];
      forall b | 0 <= b < |s1.attempts| && b != |s.attempts| && OwnAttempt(s1, b, t.l)
        ensures s1.attempts[b].state != Prepared
      {
        assert OwnAttempt(s, b, t.l);
      }
    }
  }

  /** Marking keeps the notification in "sending"; a message is sent only after this commits. */
  lemma {:induction false} MarkStep(s: Db, t: Tick, now: int, c: Choice)
    requires DbInv(s) && TickOk(s, t) && t.PreparedAt? && c != Resolved(Abandon)
    ensures GoodStep(s, t.l, Advance(s, t, now, c))
  {
    if c == Fail { FailIsGood(s, t); }
    else if c == LinkFailed && HasButtons(s, t.n, t.index) { UnlinkIsGood(s, t); }
    else { MarkIsGood(s, t, now); }
  }

  lemma UnlinkIsGood(s: Db, t: Tick)
    requires DbInv(s) && TickOk(s, t) && t.PreparedAt?
    ensures GoodStep(s, t.l, (s, Unlinked(t.l, t.n, t.index, t.a), None))
  {
  }

  lemma MarkIsGood(s: Db, t: Tick, now: int)
    requires DbInv(s) && TickOk(s, t) && t.PreparedAt?
    ensures var (s1, got) := MarkAttempt(s, t.a, t.l, now);
            GoodStep(s, t.l, (s1, if got.Got? then MarkedAt(t.l, t.n, t.index, t.a) else Ending(t.l, false), None))
  {
    MarkAttemptKeepsInv(s, t.a, t.l, now);
  }

  lemma {:induction false} MarkAttemptKeepsInv(s: Db, a: nat, l: StreamLease, now: int)
    requires DbInv(s)
    ensures var (s1, got) := MarkAttempt(s, a, l, now);
            DbInv(s1) && Grows(s, s1) && s1.runs == s.runs && s1.leases == s.leases
  {
    var s1 := MarkAttempt(s, a, l, now).0;
    if s1 != s {
      OpenAttemptIsLast(s, a);
      assert SetState(s.outbox, s.attempts[a].notification, Sending) == s.outbox;
      SentNeedsAccepted(s, s1, a, PossiblySent, Sending);
      ClosingKeepsInv(s, s1, a, PossiblySent, Sending);
    }
  }

  /** Every verdict keeps the invariant; an acceptance completes the notification exactly with its last chunk. */
  lemma {:induction false} SettleKeepsInv(s: Db, a: nat, v: Verdict, l: StreamLease, now: int)
    requires DbInv(s) && OwnAttempt(s, a, l)
    ensures DbInv(SettleAttempt(s, a, v, l, now).0)
  {
    var (s1, got) := SettleAttempt(s, a, v, l, now);
    if got.Got? {
      OpenAttemptIsLast(s, a);
      var n := s.attempts[a].notification;
      var ns := s1.outbox[n].state;
      assert Closing(s, s1, a, AttemptAfter(v), ns);
      if v.Accept? {
        var m := s.(attempts := s.attempts[a := s.attempts[a].(state := Accepted)]);
        assert AllAccepted(s1, n) <==> AllAccepted(m, n) by {
          forall i ensures ChunkAccepted(s1, n, i) <==> ChunkAccepted(m, n, i) { if 0 <= i { SameAccepted(m, s1, n, i); } }
        }
      } else {
        SentNeedsAccepted(s, s1, a, AttemptAfter(v), ns);
      }
      ClosingKeepsInv(s, s1, a, AttemptAfter(v), ns);
    }
  }

  lemma {:induction false} SettleStep(s: Db, t: Tick, now: int, c: Choice)
    requires DbInv(s) && TickOk(s, t)
    requires t.SentAt? || t.Unlinked? || (t.PreparedAt? && c == Resolved(Abandon))
    ensures GoodStep(s, t.l, Advance(s, t, now, c))
  {
    if (c.Resolved? && (t.PreparedAt? || !c.v.Abandon?)) || (t.Unlinked? && c != Fail) {
      var v := if t.Unlinked? then Abandon else c.v;
      SettleIsGood(s, t, v, now);
    } else {
      FailIsGood(s, t);
    }
  }

  lemma SettleIsGood(s: Db, t: Tick, v: Verdict, now: int)
    requires DbInv(s) && TickOk(s, t) && (t.SentAt? || t.Unlinked? || t.PreparedAt?)
    requires v.Abandon? <==> !t.SentAt?
    ensures var (s1, got) := SettleAttempt(s, t.a, v, t.l, now);
            GoodStep(s, t.l, (s1, Ending(t.l, got.Got?), None))
  {
    if Holds(s, t.l) {
      SettleKeepsInv(s, t.a, v, t.l, now);
      SettleClears(s, t.a, v, t.l, now);
    } else {
      assert SettleAttempt(s, t.a, v, t.l, now) == (s, Raised);
    }
  }

  /** After a verdict on the only attempt that may be prepared, the lease has none. */
  lemma SettleClears(s: Db, a: nat, v: Verdict, l: StreamLease, now: int)
    requires OwnAttempt(s, a, l) && (v.Abandon? ==> s.attempts[a].state == Prepared)
    requires forall b | 0 <= b < |s.attempts| && b != a && OwnAttempt(s, b, l) :: s.attempts[b].state != Prepared
    ensures var (s1, got) := SettleAttempt(s, a, v, l, now);
            && Grows(s, s1) && s1.runs == s.runs && s1.leases == s.leases
            && (got.Got? ==> NoPrepared(s1, l))
  {
    var (s1, got) := SettleAttempt(s, a, v, l, now);
    if got.Got? {
      forall b | 0 <= b < |s1.attempts| && OwnAttempt(s1, b, l) ensures s1.attempts[b].state != Prepared {
        assert b != a ==> OwnAttempt(s, b, l);
      }
    }
  }

  lemma {:induction false} SendStep(s: Db, t: Tick, now: int, c: Choice)
    requires DbInv(s) && TickOk(s, t) && t.MarkedAt?
    ensures GoodStep(s, t.l, Advance(s, t, now, c))
  {
  }

  lemma {:induction false} AdvanceIsGood(s: Db, t: Tick, now: int, c: Choice)
    requires DbInv(s) && TickOk(s, t) && !t.Over? && !t.Ending?
    ensures GoodStep(s, t.l, Advance(s, t, now, c))
  {
    match t
    case Holding(_) => HoldingStep(s, t, now, c);
    case Resumed(_) => ClaimStep(s, t, now, c);
    case Picked(_, _, _) => PickedStep(s, t, now, c);
    case Checked(_, _) => CheckedStep(s, t, now, c);
    case Chunked(_, _) => ChunkedStep(s, t, now, c);
    case Chosen(_, _, _) => ChosenStep(s, t, now, c);
    case PreparedAt(_, _, _, _) => if c == Resolved(Abandon) { SettleStep(s, t, now, c); } else { MarkStep(s, t, now, c); }
    case Unlinked(_, _, _, _) => SettleStep(s, t, now, c);
    case MarkedAt(_, _, _, _) => SendStep(s, t, now, c);
    case SentAt(_, _) => SettleStep(s, t, now, c);
  }

  /** Only the holder of the dispatch row changes anything but chunk rows. */
  lemma {:induction false} AdvanceIsFenced(s: Db, t: Tick, now: int, c: Choice)
    requires DbInv(s) && TickOk(s, t) && !t.Over? && !t.Ending? && !Holds(s, t.l)
    ensures SameForTicks(s, Advance(s, t, now, c).0)
    ensures !t.Checked? ==> Advance(s, t, now, c).0 == s
  {
    if t.Checked? { CheckedStep(s, t, now, c); }
  }

  // ---------------------------------------------------------------- one action of the world

  lemma {:induction false} BeginKeepsInv(w: World, owner: nat, now: int, seconds: int)
    requires Inv(w)
    ensures Inv(Act(w, Begin(owner, now, seconds)))
  {
    var (s1, lease) := AcquireLease(w.db, TelegramDispatch, owner, now, seconds);
    if lease.Some? {
      AcquireKeepsInv(w.db, TelegramDispatch, owner, now, seconds);
      AcquireGrows(w.db, owner, now, seconds);
      BeginKeepsTicks(w, s1, lease.value);
      BeginKeepsLog(w, s1, lease.value);
      assert Act(w, Begin(owner, now, seconds)) == w.(db := s1, ticks := w.ticks + [Holding(lease.value)]);
    } else {
      assert Act(w, Begin(owner, now, seconds)) == w;
    }
  }

  /** A new fence shuts every earlier tick out. */
  lemma BeginKeepsTicks(w: World, s1: Db, lease: StreamLease)
    requires TicksOk(w) && Grows(w.db, s1) && lease.stream == TelegramDispatch && Holds(s1, lease)
    requires lease.fence == MaxFence(w.db.runs, TelegramDispatch) + 1 == MaxFence(s1.runs, TelegramDispatch)
    requires forall a | 0 <= a < |s1.attempts| :: s1.attempts[a].state != Prepared
    ensures TicksOk(w.(db := s1, ticks := w.ticks + [Holding(lease)]))
  {
    var v := w.(db := s1, ticks := w.ticks + [Holding(lease)]);
    forall t | 0 <= t < |v.ticks| ensures TickOk(v.db, v.ticks[t]) {
      if t < |w.ticks| { assert TickOk(w.db, w.ticks[t]); assert !Holds(v.db, w.ticks[t].l); }
    }
    forall t, u | 0 <= t < u < |v.ticks| ensures v.ticks[t].l.fence != v.ticks[u].l.fence {
      if u == |w.ticks| { assert TickOk(w.db, w.ticks[t]); }
    }
  }

  lemma BeginKeepsLog(w: World, s1: Db, lease: StreamLease)
    requires LogOk(w) && Grows(w.db, s1)
    ensures LogOk(w.(db := s1, ticks := w.ticks + [Holding(lease)]))
  {
    var v := w.(db := s1, ticks := w.ticks + [Holding(lease)]);
    forall t, k | 0 <= t < |v.ticks| && v.ticks[t].MarkedAt? && 0 <= k < |v.log| ensures v.log[k] != v.ticks[t].a {
      assert v.ticks[t] == w.ticks[t];
    }
  }

  lemma {:induction false} AcquireGrows(s: Db, owner: nat, now: int, seconds: int)
    ensures Grows(s, AcquireLease(s, TelegramDispatch, owner, now, seconds).0)
  {
  }

  lemma {:induction false} MoveKeepsTicks(w: World, t: nat, now: int, c: Choice)
    requires Inv(w) && t < |w.ticks| && !w.ticks[t].Over? && !w.ticks[t].Ending?
    ensures DbInv(Act(w, Move(t, now, c)).db) && TicksOk(Act(w, Move(t, now, c)))
  {
    var me := w.ticks[t];
    var r := Advance(w.db, me, now, c);
    AdvanceIsGood(w.db, me, now, c);
    if !Holds(w.db, me.l) { AdvanceIsFenced(w.db, me, now, c); }
    var v := Act(w, Move(t, now, c));
    forall u | 0 <= u < |v.ticks| ensures TickOk(v.db, v.ticks[u]) {
      if u != t {
        assert TickOk(w.db, w.ticks[u]);
        assert w.ticks[u].l.fence != me.l.fence;
        if Holds(w.db, me.l) { ShutOutTicksKeep(w.db, r.0, me.l, w.ticks[u]); }
        else { SameForTicksKeeps(w.db, r.0, w.ticks[u]); }
      }
    }
    forall u, x | 0 <= u < x < |v.ticks| ensures v.ticks[u].l.fence != v.ticks[x].l.fence {
      assert w.ticks[u].l.fence != w.ticks[x].l.fence;
    }
  }

  /** A tick comes to its send exactly once, with an attempt that is its own. */
  lemma {:induction false} MoveKeepsLog(w: World, t: nat, now: int, c: Choice)
    requires Inv(w) && t < |w.ticks| && !w.ticks[t].Over? && !w.ticks[t].Ending?
    ensures LogOk(Act(w, Move(t, now, c)))
  {
    var me := w.ticks[t];
    AdvanceIsGood(w.db, me, now, c);
    var v := Act(w, Move(t, now, c));
    assert TickOk(w.db, me);
    LogGrows(w, t, v, now, c);
    forall u, k | 0 <= u < |v.ticks| && v.ticks[u].MarkedAt? && 0 <= k < |v.log| ensures v.log[k] != v.ticks[u].a {
      if u != t {
        assert v.ticks[u] == w.ticks[u] && TickOk(w.db, w.ticks[u]);
        assert w.ticks[u].l.fence != me.l.fence;
      } else {
        ReadyToSend(w.db, me, now, c);
      }
    }
  }

  /** A tick comes to stand before its send from an attempt that was only prepared. */
  lemma ReadyToSend(s: Db, t: Tick, now: int, c: Choice)
    requires !t.Over? && !t.Ending? && Advance(s, t, now, c).1.MarkedAt?
    ensures t.PreparedAt? && Advance(s, t, now, c).1.a == t.a && Advance(s, t, now, c).2.None?
    ensures t.a < |s.attempts| && s.attempts[t.a].state == Prepared
  {
  }

  /** The log gains at most the attempt of a tick that stands before its send. */
  lemma LogGrows(w: World, t: nat, v: World, now: int, c: Choice)
    requires LogOk(w) && t < |w.ticks| && v == Act(w, Move(t, now, c)) && Grows(w.db, v.db)
    requires w.ticks[t].MarkedAt? ==> w.ticks[t].a < |w.db.attempts| && WasMarked(w.db.attempts[w.ticks[t].a].state)
    ensures v.log == w.log || (w.ticks[t].MarkedAt? && v.log == w.log + [w.ticks[t].a])
    ensures forall k | 0 <= k < |v.log| :: v.log[k] < |v.db.attempts| && WasMarked(v.db.attempts[v.log[k]].state)
    ensures forall k, m | 0 <= k < m < |v.log| :: v.log[k] != v.log[m]
  {
    forall k | 0 <= k < |v.log| ensures v.log[k] < |v.db.attempts| && WasMarked(v.db.attempts[v.log[k]].state) {
      if k < |w.log| { assert v.log[k] == w.log[k]; }
    }
    forall k, m | 0 <= k < m < |v.log| ensures v.log[k] != v.log[m] {
      assert v.log[k] == w.log[k];
    }
  }

  /** What a release leaves to a tick of another fence. */
  lemma ReleaseLeavesOthers(s: Db, l: StreamLease, now: int, done: bool, u: Tick)
    requires DbInv(s) && l.stream == TelegramDispatch && TickOk(s, u) && u.l.fence != l.fence
    ensures TickOk(ReleaseLease(s, l, now, done), u)
  {
    var t := ReleaseLease(s, l, now, done);
    FinishRunsKeepsFences(s.runs, l.stream, l.fence, Some(l.owner));
    if !Holds(s, l) {
      StaleRecoverIsIdle(s, l);
      assert SameForTicks(s, t);
      SameForTicksKeeps(s, t, u);
    } else {
      assert !Holds(s, u.l) && !Holds(t, u.l);
    }
  }

  lemma {:induction false} EndingKeepsInv(w: World, t: nat, now: int, c: Choice)
    requires Inv(w) && t < |w.ticks| && w.ticks[t].Ending?
    ensures Inv(Act(w, Move(t, now, c)))
  {
    var me := w.ticks[t];
    assert TickOk(w.db, me);
    ReleaseKeepsInv(w.db, me.l, now, me.done);
    var v := Act(w, Move(t, now, c));
    assert v.log == w.log && v.db == ReleaseLease(w.db, me.l, now, me.done);
    forall u | 0 <= u < |v.ticks| ensures TickOk(v.db, v.ticks[u]) {
      if u != t {
        assert TickOk(w.db, w.ticks[u]) && w.ticks[u].l.fence != me.l.fence;
        ReleaseLeavesOthers(w.db, me.l, now, me.done, w.ticks[u]);
      }
    }
    forall u, x | 0 <= u < x < |v.ticks| ensures v.ticks[u].l.fence != v.ticks[x].l.fence {
      assert w.ticks[u].l.fence != w.ticks[x].l.fence;
    }
    forall u, k | 0 <= u < |v.ticks| && v.ticks[u].MarkedAt? && 0 <= k < |v.log| ensures v.log[k] != v.ticks[u].a {
      assert v.ticks[u] == w.ticks[u];
    }
  }

  /** Actions that touch no dispatch tick: intents, operators and the other streams. */
  lemma {:induction false} OutsideKeepsInv(w: World, s1: Db)
    requires Inv(w) && DbInv(s1) && SameForTicks(w.db, s1)
    ensures Inv(w.(db := s1))
  {
    var v := w.(db := s1);
    forall u | 0 <= u < |v.ticks| ensures TickOk(v.db, v.ticks[u]) { SameForTicksKeeps(w.db, s1, w.ticks[u]); }
  }

  lemma {:induction false} MoveKeepsInv(w: World, t: nat, now: int, c: Choice)
    requires Inv(w)
    ensures Inv(Act(w, Move(t, now, c)))
  {
    if t < |w.ticks| {
      if w.ticks[t].Over? {
        assert w.ticks[t := w.ticks[t]] == w.ticks;
        assert Act(w, Move(t, now, c)) == w;
      }
      else if w.ticks[t].Ending? { EndingKeepsInv(w, t, now, c); }
      else { MoveKeepsTicks(w, t, now, c); MoveKeepsLog(w, t, now, c); }
    }
  }

  lemma {:induction false} OperatorKeepsInv(w: World, n: nat, expected: NotificationState, delivered: bool)
    requires Inv(w)
    ensures Inv(Act(w, Operator(n, expected, delivered)))
  {
    var s1 := Resolve(w.db, n, expected, delivered);
    if s1 != w.db {
      PendingHasNoOpen(w.db, n);
      StateMoveKeepsInv(w.db, n, if delivered then ResolvedDelivered else ResolvedAbandoned);
    }
    OutsideKeepsInv(w, s1);
  }

  /** Leases of the other streams do not touch the dispatch stream. */
  lemma AcquireElsewhere(s: Db, stream: Stream, owner: nat, now: int, seconds: int)
    requires stream != TelegramDispatch
    ensures var t := AcquireLease(s, stream, owner, now, seconds).0;
            && t == s.(leases := t.leases, runs := t.runs)
            && (forall l: StreamLease | l.stream == TelegramDispatch :: Holds(t, l) <==> Holds(s, l))
  {
  }

  lemma ReleaseElsewhere(s: Db, x: StreamLease, now: int, done: bool)
    requires x.stream != TelegramDispatch
    ensures var t := ReleaseLease(s, x, now, done);
            && t == s.(leases := t.leases, runs := t.runs)
            && (forall l: StreamLease | l.stream == TelegramDispatch :: Holds(t, l) <==> Holds(s, l))
  {
  }

  lemma {:induction false} OtherAcquireKeepsInv(w: World, stream: Stream, owner: nat, now: int, seconds: int)
    requires Inv(w)
    ensures Inv(Act(w, OtherAcquire(stream, owner, now, seconds)))
  {
    if stream != TelegramDispatch {
      AcquireElsewhere(w.db, stream, owner, now, seconds);
      AcquireKeepsInv(w.db, stream, owner, now, seconds);
      OutsideKeepsInv(w, AcquireLease(w.db, stream, owner, now, seconds).0);
    } else {
      assert Act(w, OtherAcquire(stream, owner, now, seconds)) == w;
    }
  }

  lemma {:induction false} OtherReleaseKeepsInv(w: World, l: StreamLease, now: int, done: bool)
    requires Inv(w)
    ensures Inv(Act(w, OtherRelease(l, now, done)))
  {
    if l.stream != TelegramDispatch {
      ReleaseElsewhere(w.db, l, now, done);
      ReleaseKeepsInv(w.db, l, now, done);
      OutsideKeepsInv(w, ReleaseLease(w.db, l, now, done));
    } else {
      assert Act(w, OtherRelease(l, now, done)) == w;
    }
  }

  lemma {:induction false} ActKeepsInv(w: World, act: Action)
    requires Inv(w)
    ensures Inv(Act(w, act))
  {
    match act
    case Begin(owner, now, seconds) => BeginKeepsInv(w, owner, now, seconds);
    case Move(t, now, c) => MoveKeepsInv(w, t, now, c);
    case Intent(noon) =>
      EnqueueKeepsInv(w.db, noon);
      OutsideKeepsInv(w, Enqueue(w.db, noon));
    case Operator(n, expected, delivered) => OperatorKeepsInv(w, n, expected, delivered);
    case OtherAcquire(stream, owner, now, seconds) => OtherAcquireKeepsInv(w, stream, owner, now, seconds);
    case OtherRelease(l, now, done) => OtherReleaseKeepsInv(w, l, now, done);
  }

  lemma {:induction false} RunKeepsInv(acts: seq<Action>)
    ensures Inv(Run(START, acts))
    decreases |acts|
  {
    if acts != [] {
      RunKeepsInv(acts[..|acts| - 1]);
      ActKeepsInv(Run(START, acts[..|acts| - 1]), acts[|acts| - 1]);
    }
  }

  // ---------------------------------------------------------------- the guarantees

  /** Each attempt is sent at most once, and a chunk sent before was rejected for certain. */
  lemma {:induction false} ResendOnlyAfterRejection(acts: seq<Action>, k: nat, m: nat)
    requires k < |Run(START, acts).log| && m < |Run(START, acts).log| && k != m
    ensures var w := Run(START, acts);
            var a, b := w.log[k], w.log[m];
            && a != b && a < |w.db.attempts| && b < |w.db.attempts|
            && (SameChunk(w.db, a, b) && a < b ==> w.db.attempts[a].state == TrustedRejected)
  {
    RunKeepsInv(acts);
    var w := Run(START, acts);
    var a, b := w.log[k], w.log[m];
    if k < m { assert w.log[k] != w.log[m]; } else { assert w.log[m] != w.log[k]; }
    if SameChunk(w.db, a, b) && a < b { assert Harmless(w.db.attempts[a].state); }
  }

  /** Accepted chunks form a prefix, and none is accepted twice. */
  lemma {:induction false} AcceptedChunksAreAPrefix(acts: seq<Action>, n: nat, i: nat, j: nat)
    requires ChunkAccepted(Run(START, acts).db, n, i) && j <= i
    ensures ChunkAccepted(Run(START, acts).db, n, j)
    ensures forall a, b | 0 <= a < b < |Run(START, acts).db.attempts| && SameChunk(Run(START, acts).db, a, b) ::
              Run(START, acts).db.attempts[a].state != Accepted
  {
    RunKeepsInv(acts);
    var s := Run(START, acts).db;
    var a :| 0 <= a < |s.attempts| && s.attempts[a].notification == n && s.attempts[a].index == i && s.attempts[a].state == Accepted;
    assert AttemptOk(s, a);
    forall b, c | 0 <= b < c < |s.attempts| && SameChunk(s, b, c) ensures s.attempts[b].state != Accepted {
      assert Harmless(s.attempts[b].state);
    }
  }

  /** A notification is "sent" exactly when it was chunked and every chunk has an accepted attempt. */
  lemma {:induction false} SentMeansEveryChunkAccepted(acts: seq<Action>, n: nat)
    requires n < |Run(START, acts).db.outbox|
    ensures Run(START, acts).db.outbox[n].state == Sent <==> AllAccepted(Run(START, acts).db, n)
  {
    RunKeepsInv(acts);
  }

  /** Every stream has at most one open run, which is its lease's, and fences only grow. */
  lemma {:induction false} OneOpenRunPerStream(acts: seq<Action>, i: nat, j: nat)
    requires i < j < |Run(START, acts).db.runs|
    requires Run(START, acts).db.runs[i].stream == Run(START, acts).db.runs[j].stream
    ensures Run(START, acts).db.runs[i].fence < Run(START, acts).db.runs[j].fence
    ensures Run(START, acts).db.runs[i].finished
    ensures !Run(START, acts).db.runs[j].finished ==>
              Holds(Run(START, acts).db, StreamLease(Run(START, acts).db.runs[j].stream,
                                                      Run(START, acts).db.runs[j].owner, Run(START, acts).db.runs[j].fence))
  {
    RunKeepsInv(acts);
    var s := Run(START, acts).db;
    assert s.runs[i].fence < s.runs[j].fence;
  }

  /** Prepared attempts belong to the lease row in place, so its takeover or failed release reaches all of them. */
  lemma {:induction false} PreparedIsAlwaysRecovered(acts: seq<Action>, owner: nat, now: int, seconds: int, l: StreamLease)
    ensures var s := Run(START, acts).db;
            forall a | 0 <= a < |s.attempts| && s.attempts[a].state == Prepared ::
              Holds(s, StreamLease(TelegramDispatch, s.attempts[a].owner, s.attempts[a].fence))
    ensures var (t, got) := AcquireLease(Run(START, acts).db, TelegramDispatch, owner, now, seconds);
            got.Some? ==> forall a | 0 <= a < |t.attempts| :: t.attempts[a].state != Prepared
    ensures var s := Run(START, acts).db;
            Holds(s, l) && l.stream == TelegramDispatch ==>
              forall a | 0 <= a < |ReleaseLease(s, l, now, false).attempts| :: ReleaseLease(s, l, now, false).attempts[a].state != Prepared
  {
    RunKeepsInv(acts);
    var s := Run(START, acts).db;
    forall a | 0 <= a < |s.attempts| && s.attempts[a].state == Prepared
      ensures Holds(s, StreamLease(TelegramDispatch, s.attempts[a].owner, s.attempts[a].fence))
    {
      assert AttemptOk(s, a);
    }
    AcquireKeepsInv(s, TelegramDispatch, owner, now, seconds);
    if l.stream == TelegramDispatch { RecoverKeepsInv(s, l.owner, l.fence); }
  }
}
