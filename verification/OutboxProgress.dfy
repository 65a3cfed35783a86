/** An undisturbed tick claims the oldest notification, sends its next chunk, and settles it. */
module OutboxProgress {
  import opened Common
  import opened OutboxModel
  import opened OutboxTick
  import opened OutboxInvariant
  import opened OutboxTheorems
  import opened OutboxOutcomes

  /** The first notification in line: the oldest that is neither closed nor done. */
  ghost predicate FirstInLine(s: Db, n: nat) {
    && n < |s.outbox| && s.outbox[n].state in {Pending, Claimed, Sending}
    && forall m | 0 <= m < n :: !(s.outbox[m].state in {Pending, Claimed, Sending})
  }

  /** A claim takes the first in line, and claims it if it was pending; with nobody in line it takes none. */
  lemma {:induction false} ClaimTakesTheFirst(s: Db, l: StreamLease, now: int)
    requires Current(s, l, now)
    ensures var (t, got) := ClaimNext(s, l, now);
            && (got.Got? ==>
                  && FirstInLine(s, got.value)
                  && t == (if s.outbox[got.value].state == Pending
                           then s.(outbox := s.outbox[got.value := s.outbox[got.value].(state := Claimed)]) else s))
            && (got.Nothing? <==> forall m | 0 <= m < |s.outbox| :: !(s.outbox[m].state in {Pending, Claimed, Sending}))
            && !got.Raised? && (got.Nothing? ==> t == s)
    ensures forall n: nat | FirstInLine(s, n) :: ClaimNext(s, l, now).1 == Got(n)
  {
    var r := OldestDispatchable(s.outbox, 0);
    forall n: nat | FirstInLine(s, n) ensures r == Some(n) {
      assert Dispatchable(s.outbox[n].state);
      assert r.Some? && Dispatchable(s.outbox[r.value].state);
    }
  }

  /** Chunks are laid down once: as computed, if they are well formed and the notification is in line. */
  lemma ChunksAreLaidDown(s: Db, n: nat, metas: seq<ChunkMeta>)
    ensures var (t, got) := CreateChunks(s, n, metas);
            && (got.Got? <==>
                  && metas != [] && (forall i | 0 <= i < |metas| :: 1 <= metas[i].utf16Length <= 4096)
                  && (forall i | 0 <= i < |metas| - 1 :: !metas[i].buttons)
                  && n < |s.outbox| && s.outbox[n].state in {Pending, Claimed, Sending}
                  && (n in s.chunks ==> s.chunks[n] == metas))
            && t == (if got.Got? then s.(chunks := s.chunks[n := metas]) else s)
  {
    if n in s.chunks { assert s.chunks[n := s.chunks[n]] == s.chunks; }
  }

  /** The next chunk is the first without an accepted attempt. */
  lemma {:induction false} NextChunkIsTheFirst(s: Db, n: nat, l: StreamLease, now: int, i: nat)
    requires Current(s, l, now) && n in s.chunks && i < |s.chunks[n]|
    requires !ChunkTaken(s, n, i) && forall j: nat | j < i :: ChunkTaken(s, n, j)
    ensures NextChunk(s, n, l, now) == Got(i)
  {
    var r := FirstUnaccepted(s, n, 0);
    forall j: nat ensures ChunkAccepted(s, n, j) <==> ChunkTaken(s, n, j) {}
    assert r.Some? && !ChunkTaken(s, n, r.value);
  }

  /** An attempt is prepared under the lease, after all earlier ones of its chunk, and its notification is being sent. */
  lemma {:induction false} PreparationLeads(s: Db, n: nat, i: nat, l: StreamLease, now: int)
    ensures var (t, got) := PrepareAttempt(s, n, i, l, now);
            && (got.Got? <==> Current(s, l, now) && n < |s.outbox| && s.outbox[n].state in {Claimed, Sending})
            && (!got.Got? ==> t == s)
            && (got.Got? ==>
                  && got.value == |s.attempts| && |t.attempts| == |s.attempts| + 1 && t.attempts[..|s.attempts|] == s.attempts
                  && t.attempts[got.value] == Attempt(n, i, t.attempts[got.value].ordinal, l.owner, l.fence, Prepared)
                  && (forall a | 0 <= a < |s.attempts| && s.attempts[a].notification == n && s.attempts[a].index == i ::
                        s.attempts[a].ordinal < t.attempts[got.value].ordinal)
                  && t == s.(attempts := t.attempts, outbox := s.outbox[n := s.outbox[n].(state := Sending)]))
  {
    OrdinalBounds(s.attempts, n, i);
  }

  lemma {:induction false} OrdinalBounds(attempts: seq<Attempt>, n: nat, i: nat)
    ensures forall a | 0 <= a < |attempts| && attempts[a].notification == n && attempts[a].index == i ::
              attempts[a].ordinal <= MaxOrdinal(attempts, n, i)
  {
    if attempts != [] {
      OrdinalBounds(attempts[..|attempts| - 1], n, i);
      forall a | 0 <= a < |attempts| - 1 ensures attempts[a] == attempts[..|attempts| - 1][a] {}
    }
  }

  /** The marker goes on a prepared attempt of the lease in force, and on nothing else. */
  lemma MarkingLeads(s: Db, a: nat, l: StreamLease, now: int)
    ensures var (t, got) := MarkAttempt(s, a, l, now);
            && (got.Got? <==> Current(s, l, now) && a < |s.attempts| && s.attempts[a].owner == l.owner
                              && s.attempts[a].fence == l.fence && s.attempts[a].state == Prepared)
            && t == (if got.Got? then s.(attempts := s.attempts[a := s.attempts[a].(state := PossiblySent)]) else s)
  {
  }

  // ---------------------------------------------------------------- a tick from end to end

  /** The notification first in line, with nothing open, and its next chunk. */
  ghost predicate Waiting(s: Db, n: nat, metas: seq<ChunkMeta>, i: nat) {
    && FirstInLine(s, n) && s.outbox[n].state in {Pending, Claimed}
    && metas != [] && (forall k | 0 <= k < |metas| :: 1 <= metas[k].utf16Length <= 4096)
    && (forall k | 0 <= k < |metas| - 1 :: !metas[k].buttons)
    && (n in s.chunks ==> s.chunks[n] == metas)
    && i < |metas| && !ChunkTaken(s, n, i) && forall j: nat | j < i :: ChunkTaken(s, n, j)
  }

  ghost function ClaimedWith(s: Db, n: nat): Db
    requires n < |s.outbox|
  {
    s.(outbox := s.outbox[n := s.outbox[n].(state := Claimed)])
  }

  ghost function ChunkedWith(s: Db, n: nat, metas: seq<ChunkMeta>): Db
    requires n < |s.outbox|
  {
    ClaimedWith(s, n).(chunks := s.chunks[n := metas])
  }

  /** From its lease an undisturbed tick comes to the next chunk of the first notification in line, step by step. */
  lemma TickFindsTheChunk(s: Db, l: StreamLease, now: int, n: nat, metas: seq<ChunkMeta>, i: nat)
    requires Current(s, l, now) && Waiting(s, n, metas, i)
    ensures Advance(s, Holding(l), now, Proceed) == (s, Resumed(l), None)
    ensures Advance(s, Resumed(l), now, Proceed) == (ClaimedWith(s, n), Picked(l, n, Claimed), None)
    ensures Advance(ClaimedWith(s, n), Picked(l, n, Claimed), now, Proceed) == (ClaimedWith(s, n), Checked(l, n), None)
    ensures Advance(ClaimedWith(s, n), Checked(l, n), now, Chunks(metas)) == (ChunkedWith(s, n, metas), Chunked(l, n), None)
    ensures Advance(ChunkedWith(s, n, metas), Chunked(l, n), now, Proceed) == (ChunkedWith(s, n, metas), Chosen(l, n, i), None)
  {
    ClaimTakesTheFirst(s, l, now);
    if s.outbox[n].state == Claimed { assert s.outbox[n := s.outbox[n]] == s.outbox; }
    ChunksAreLaidDown(ClaimedWith(s, n), n, metas);
    var s2 := ChunkedWith(s, n, metas);
    forall j: nat ensures ChunkTaken(s2, n, j) <==> ChunkTaken(s, n, j) {}
    NextChunkIsTheFirst(s2, n, l, now, i);
  }

  ghost function PreparedWith(s: Db, n: nat, a: Attempt): Db
    requires n < |s.outbox|
  {
    s.(outbox := s.outbox[n := s.outbox[n].(state := Sending)], attempts := s.attempts + [a])
  }

  /** Then it prepares one new attempt on the chunk, */
  lemma TickPrepares(s: Db, l: StreamLease, now: int, n: nat, i: nat) returns (ordinal: nat)
    requires Current(s, l, now) && n < |s.outbox| && s.outbox[n].state in {Claimed, Sending}
    ensures Advance(s, Chosen(l, n, i), now, Proceed)
            == (PreparedWith(s, n, Attempt(n, i, ordinal, l.owner, l.fence, Prepared)), PreparedAt(l, n, i, |s.attempts|), None)
  {
    PreparationLeads(s, n, i, l, now);
    var t := PrepareAttempt(s, n, i, l, now).0;
    ordinal := t.attempts[|s.attempts|].ordinal;
    assert t.attempts == s.attempts + [t.attempts[|s.attempts|]];
  }

  /** marks it before anything is sent (only a chunk with buttons has callbacks whose linking can fail), */
  lemma TickMarks(s: Db, l: StreamLease, now: int, n: nat, i: nat, a: nat, c: Choice)
    requires Current(s, l, now) && OwnAttempt(s, a, l) && s.attempts[a].state == Prepared
    requires c == Proceed || (c == LinkFailed && !(n in s.chunks && i < |s.chunks[n]| && s.chunks[n][i].buttons))
    ensures Advance(s, PreparedAt(l, n, i, a), now, c)
            == (s.(attempts := s.attempts[a := s.attempts[a].(state := PossiblySent)]), MarkedAt(l, n, i, a), None)
  {
    MarkingLeads(s, a, l, now);
  }

  /** hands the message over, once, */
  lemma TickHandsOver(s: Db, l: StreamLease, now: int, n: nat, i: nat, a: nat)
    ensures Advance(s, MarkedAt(l, n, i, a), now, Proceed) == (s, SentAt(l, a), Some(a))
  {
  }

  /** and takes the remote service's verdict on it. */
  lemma {:induction false} TickSettles(s: Db, l: StreamLease, now: int, a: nat, v: Verdict)
    requires DbInv(s) && Current(s, l, now) && OwnAttempt(s, a, l) && s.attempts[a].state == PossiblySent && !v.Abandon?
    ensures var (t, tick, sent) := Advance(s, SentAt(l, a), now, Resolved(v));
            && tick == Ending(l, true) && sent.None? && OnlyAt(s, t, a) && EndsAs(v, t.attempts[a].state)
            && var n := s.attempts[a].notification;
            && n < |s.outbox|
            && SentTo(v, s.outbox[n].noonDigest, PartTaken(s, n), EveryChunkTaken(t, n), t.outbox[n].state)
  {
    VerdictLeads(s, a, v, l, now);
  }

  /** A button that cannot be linked, and a deadline that passed, abandon the attempt: nothing of it was sent. */
  lemma {:induction false} TickAbandons(s: Db, l: StreamLease, now: int, n: nat, i: nat, a: nat, c: Choice)
    requires DbInv(s) && Current(s, l, now) && OwnAttempt(s, a, l) && s.attempts[a].state == Prepared && c != Fail
    ensures n in s.chunks && i < |s.chunks[n]| && s.chunks[n][i].buttons ==>
              Advance(s, PreparedAt(l, n, i, a), now, LinkFailed) == (s, Unlinked(l, n, i, a), None)
    ensures var (t, tick, sent) := Advance(s, Unlinked(l, n, i, a), now, c);
            tick == Ending(l, true) && sent.None? && OnlyAt(s, t, a) && t.attempts[a].state == AbandonedPreMarker
    ensures Advance(s, PreparedAt(l, n, i, a), now, Resolved(Abandon)) == Advance(s, Unlinked(l, n, i, a), now, c)
  {
    VerdictLeads(s, a, Abandon, l, now);
  }

  /** The log gains an attempt exactly when the tick that stands before its send goes on. */
  lemma SendIsLogged(w: World, act: Action)
    ensures var v := Act(w, act);
            if act.Move? && act.tick < |w.ticks| && w.ticks[act.tick].MarkedAt? && act.choice != Fail
            then v.log == w.log + [w.ticks[act.tick].a] && v.db == w.db
                 && v.ticks == w.ticks[act.tick := SentAt(w.ticks[act.tick].l, w.ticks[act.tick].a)]
            else v.log == w.log
  {
  }

  /** A tick begins exactly with the lease of the dispatch stream; an intent joins the end of the line. */
  lemma {:induction false} TicksBeginWithTheLease(w: World, owner: nat, now: int, seconds: int)
    requires Inv(w)
    ensures var v := Act(w, Begin(owner, now, seconds));
            && v.log == w.log
            && if seconds >= 1 && (TelegramDispatch in w.db.leases ==> w.db.leases[TelegramDispatch].expiresAt <= now)
               then |v.ticks| == |w.ticks| + 1 && v.ticks[..|w.ticks|] == w.ticks && v.ticks[|w.ticks|].Holding?
                    && Holds(v.db, v.ticks[|w.ticks|].l) && v.ticks[|w.ticks|].l.owner == owner
                    && v.db.leases[TelegramDispatch].expiresAt == now + seconds * 1_000_000
               else v == w
  {
    LeaseGrantedExactly(w.db, TelegramDispatch, owner, now, seconds);
  }

  lemma IntentJoinsTheLine(w: World, noonDigest: bool)
    ensures var v := Act(w, Intent(noonDigest));
            v == w.(db := w.db.(outbox := w.db.outbox + [Notification(noonDigest, Pending)]))
  {
  }
}
