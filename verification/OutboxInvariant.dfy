/** Every action of every tick, operator and lease holder keeps the outbox invariant. */
module OutboxInvariant {
  import opened Common
  import opened OutboxModel
  import opened OutboxTick

  // ---------------------------------------------------------------- small facts

  lemma SameAccepted(s: Db, t: Db, n: nat, i: nat)
    requires |t.attempts| == |s.attempts|
    requires forall a | 0 <= a < |s.attempts| ::
               t.attempts[a].notification == s.attempts[a].notification && t.attempts[a].index == s.attempts[a].index
               && (t.attempts[a].state == Accepted <==> s.attempts[a].state == Accepted)
    ensures ChunkAccepted(t, n, i) <==> ChunkAccepted(s, n, i)
  {
    if ChunkAccepted(s, n, i) {
      var a :| 0 <= a < |s.attempts| && s.attempts[a].notification == n && s.attempts[a].index == i && s.attempts[a].state == Accepted;
      assert t.attempts[a].notification == n;
    }
    if ChunkAccepted(t, n, i) {
      var a :| 0 <= a < |t.attempts| && t.attempts[a].notification == n && t.attempts[a].index == i && t.attempts[a].state == Accepted;
      assert s.attempts[a].notification == n;
    }
  }

  lemma {:induction false} MaxFenceAppend(runs: seq<StreamRun>, r: StreamRun, st: Stream)
    ensures MaxFence(runs + [r], st) ==
              (if r.stream == st && r.fence > MaxFence(runs, st) then r.fence else MaxFence(runs, st))
  {
    assert (runs + [r])[..|runs|] == runs;
  }

  lemma {:induction false} MaxFenceSame(a: seq<StreamRun>, b: seq<StreamRun>, st: Stream)
    requires |a| == |b| && forall i | 0 <= i < |a| :: a[i].stream == b[i].stream && a[i].fence == b[i].fence
    ensures MaxFence(a, st) == MaxFence(b, st)
    decreases |a|
  {
    if a != [] { MaxFenceSame(a[..|a| - 1], b[..|b| - 1], st); }
  }

  lemma FinishRunsKeepsFences(runs: seq<StreamRun>, stream: Stream, fence: nat, owner: Option<nat>)
    ensures forall st :: MaxFence(FinishRuns(runs, stream, fence, owner), st) == MaxFence(runs, st)
  {
    forall st ensures MaxFence(FinishRuns(runs, stream, fence, owner), st) == MaxFence(runs, st) {
      MaxFenceSame(FinishRuns(runs, stream, fence, owner), runs, st);
    }
  }

  // ---------------------------------------------------------------- changes of the outbox rows

  /** Moving one notification that has no open attempt. */
  lemma {:induction false} StateMoveKeepsInv(s: Db, n: nat, st: NotificationState)
    requires DbInv(s) && n < |s.outbox|
    requires st == Sending || NoOpen(s, n)
    requires st in {AmbiguousSend, PartialManual, ResolvedDelivered, ResolvedAbandoned}
             || !(s.outbox[n].state in {AmbiguousSend, PartialManual, ResolvedDelivered, ResolvedAbandoned})
    requires st != Sent && s.outbox[n].state != Sent
    ensures DbInv(s.(outbox := SetState(s.outbox, n, st)))
  {
    var t := s.(outbox := SetState(s.outbox, n, st));
    forall m, i ensures ChunkAccepted(t, m, i) <==> ChunkAccepted(s, m, i) { SameAccepted(s, t, m, i); }
    forall a | 0 <= a < |t.attempts| ensures AttemptOk(t, a) { assert AttemptOk(s, a); }
    assert ChunkOrder(t) by {
      forall a, b | 0 <= a < b < |t.attempts| && SameChunk(t, a, b) ensures Harmless(t.attempts[a].state) {
        assert SameChunk(s, a, b);
      }
    }
    forall m | 0 <= m < |t.outbox| ensures t.outbox[m].state == Sent <==> AllAccepted(t, m) {
      assert s.outbox[m].state == Sent <==> AllAccepted(s, m);
    }
  }

  lemma {:induction false} EnqueueKeepsInv(s: Db, noonDigest: bool)
    requires DbInv(s)
    ensures DbInv(Enqueue(s, noonDigest))
  {
    var t := Enqueue(s, noonDigest);
    forall m, i ensures ChunkAccepted(t, m, i) <==> ChunkAccepted(s, m, i) { SameAccepted(s, t, m, i); }
    forall a | 0 <= a < |t.attempts| ensures AttemptOk(t, a) { assert AttemptOk(s, a); }
    forall a, b | 0 <= a < b < |t.attempts| && SameChunk(t, a, b) ensures Harmless(t.attempts[a].state) {
      assert SameChunk(s, a, b);
    }
    forall m | 0 <= m < |t.outbox| ensures t.outbox[m].state == Sent <==> AllAccepted(t, m) {
      if m < |s.outbox| { assert s.outbox[m].state == Sent <==> AllAccepted(s, m); }
    }
  }

  lemma {:induction false} CreateChunksKeepsInv(s: Db, n: nat, metas: seq<ChunkMeta>)
    requires DbInv(s)
    ensures DbInv(CreateChunks(s, n, metas).0)
  {
    var t := CreateChunks(s, n, metas).0;
    if t != s {
      forall a | 0 <= a < |s.attempts| ensures s.attempts[a].notification != n { assert AttemptOk(s, a); }
      forall m, i ensures ChunkAccepted(t, m, i) <==> ChunkAccepted(s, m, i) { SameAccepted(s, t, m, i); }
      forall a | 0 <= a < |t.attempts| ensures AttemptOk(t, a) { assert AttemptOk(s, a); }
      forall a, b | 0 <= a < b < |t.attempts| && SameChunk(t, a, b) ensures Harmless(t.attempts[a].state) {
        assert SameChunk(s, a, b);
      }
      forall m | 0 <= m < |t.outbox| ensures t.outbox[m].state == Sent <==> AllAccepted(t, m) {
        assert s.outbox[m].state == Sent <==> AllAccepted(s, m);
        if m == n { assert !ChunkAccepted(t, n, 0); }
      }
    }
  }

  // ---------------------------------------------------------------- changes of one attempt

  /** An open attempt is the last one on its chunk, and its chunk has not been accepted. */
  lemma OpenAttemptIsLast(s: Db, a: nat)
    requires DbInv(s) && a < |s.attempts| && IsOpen(s.attempts[a])
    ensures forall b | a < b < |s.attempts| :: !SameChunk(s, a, b)
    ensures !ChunkAccepted(s, s.attempts[a].notification, s.attempts[a].index)
    ensures s.attempts[a].notification < |s.outbox| && s.outbox[s.attempts[a].notification].state == Sending
    ensures s.attempts[a].notification in s.chunks && s.attempts[a].index < |s.chunks[s.attempts[a].notification]|
  {
    assert AttemptOk(s, a);
    forall b | 0 <= b < |s.attempts| && b != a && SameChunk(s, a, b) ensures b < a && Harmless(s.attempts[b].state) {
      if b < a { assert SameChunk(s, b, a); }
    }
    forall b | 0 <= b < |s.attempts| && s.attempts[b].notification == s.attempts[a].notification
      && s.attempts[b].index == s.attempts[a].index ensures s.attempts[b].state != Accepted
    {
      assert b != a ==> SameChunk(s, a, b);
    }
  }

  /** Rewriting the state of an open attempt together with its notification. */
  ghost predicate Closing(s: Db, t: Db, a: nat, st: AttemptState, ns: NotificationState) {
    && a < |s.attempts| && IsOpen(s.attempts[a])
    && s.attempts[a].notification < |s.outbox|
    && t == s.(attempts := s.attempts[a := s.attempts[a].(state := st)],
               outbox := SetState(s.outbox, s.attempts[a].notification, ns))
  }

  lemma ClosingAccepted(s: Db, t: Db, a: nat, st: AttemptState, ns: NotificationState, n: nat, i: nat)
    requires Closing(s, t, a, st, ns)
    ensures ChunkAccepted(t, n, i) <==>
              ChunkAccepted(s, n, i) || (st == Accepted && n == s.attempts[a].notification && i == s.attempts[a].index)
  {
    if ChunkAccepted(s, n, i) {
      var b :| 0 <= b < |s.attempts| && s.attempts[b].notification == n && s.attempts[b].index == i && s.attempts[b].state == Accepted;
      assert t.attempts[b].notification == n;
    }
    if st == Accepted && n == s.attempts[a].notification && i == s.attempts[a].index { assert t.attempts[a].state == Accepted; }
    if ChunkAccepted(t, n, i) {
      var b :| 0 <= b < |t.attempts| && t.attempts[b].notification == n && t.attempts[b].index == i && t.attempts[b].state == Accepted;
      if b != a { assert s.attempts[b].state == Accepted; }
    }
  }

  lemma {:induction false} ClosingKeepsAttempts(s: Db, t: Db, a: nat, st: AttemptState, ns: NotificationState)
    requires DbInv(s) && Closing(s, t, a, st, ns)
    requires st in {Accepted, TrustedRejected, AmbiguousAttempt, AbandonedPreMarker} || (st == PossiblySent && ns == Sending)
    requires st == AmbiguousAttempt ==> ns in {AmbiguousSend, PartialManual}
    ensures AttemptsOk(t) && ChunkOrder(t) && OneOpen(t)
  {
    OpenAttemptIsLast(s, a);
    var n := s.attempts[a].notification;
    forall b | 0 <= b < |t.attempts| ensures AttemptOk(t, b) {
      assert AttemptOk(s, b) && AttemptOk(s, a);
      forall j | 0 <= j < t.attempts[b].index && (IsOpen(t.attempts[b]) || t.attempts[b].state == Accepted)
        ensures ChunkAccepted(t, t.attempts[b].notification, j)
      {
        ClosingAccepted(s, t, a, st, ns, t.attempts[b].notification, j);
      }
      if b != a && IsOpen(t.attempts[b]) { assert t.attempts[b].notification != n; }
    }
    forall b, c | 0 <= b < c < |t.attempts| && SameChunk(t, b, c) ensures Harmless(t.attempts[b].state) {
      assert SameChunk(s, b, c);
    }
  }

  lemma {:induction false} ClosingKeepsInv(s: Db, t: Db, a: nat, st: AttemptState, ns: NotificationState)
    requires DbInv(s) && Closing(s, t, a, st, ns)
    requires st in {Accepted, TrustedRejected, AmbiguousAttempt, AbandonedPreMarker} || (st == PossiblySent && ns == Sending)
    requires st == AmbiguousAttempt ==> ns in {AmbiguousSend, PartialManual}
    requires ns == Sent <==> AllAccepted(t, s.attempts[a].notification)
    ensures DbInv(t)
  {
    ClosingKeepsAttempts(s, t, a, st, ns);
    OpenAttemptIsLast(s, a);
    var n := s.attempts[a].notification;
    forall m | 0 <= m < |t.outbox| ensures t.outbox[m].state == Sent <==> AllAccepted(t, m) {
      if m != n {
        assert s.outbox[m].state == Sent <==> AllAccepted(s, m);
        forall i ensures ChunkAccepted(t, m, i) <==> ChunkAccepted(s, m, i) {
          if 0 <= i { ClosingAccepted(s, t, a, st, ns, m, i); }
        }
      }
    }
  }

  lemma {:induction false} PrepareKeepsInv(s: Db, n: nat, i: nat, l: StreamLease, now: int)
    requires DbInv(s) && l.stream == TelegramDispatch && Current(s, l, now)
    requires Ready(s, n) && n in s.chunks && i < |s.chunks[n]|
    requires !ChunkAccepted(s, n, i) && forall j | 0 <= j < i :: ChunkAccepted(s, n, j)
    ensures DbInv(PrepareAttempt(s, n, i, l, now).0)
    ensures PrepareAttempt(s, n, i, l, now).1 == Got(|s.attempts|)
  {
    var t := PrepareAttempt(s, n, i, l, now).0;
    forall m, j ensures ChunkAccepted(t, m, j) <==> ChunkAccepted(s, m, j) { AppendAccepted(s, t, m, j); }
    forall a | 0 <= a < |t.attempts| ensures AttemptOk(t, a) {
      if a < |s.attempts| { assert AttemptOk(s, a); }
    }
    forall a, b | 0 <= a < b < |t.attempts| && SameChunk(t, a, b) ensures Harmless(t.attempts[a].state) {
      if b < |s.attempts| { assert SameChunk(s, a, b); }
      else {
        assert AttemptOk(s, a);
        assert s.attempts[a].state != Accepted;
      }
    }
    forall m | 0 <= m < |t.outbox| ensures t.outbox[m].state == Sent <==> AllAccepted(t, m) {
      assert s.outbox[m].state == Sent <==> AllAccepted(s, m);
    }
  }

  lemma AppendAccepted(s: Db, t: Db, m: nat, j: nat)
    requires |t.attempts| == |s.attempts| + 1 && t.attempts[..|s.attempts|] == s.attempts
    requires t.attempts[|s.attempts|].state != Accepted
    ensures ChunkAccepted(t, m, j) <==> ChunkAccepted(s, m, j)
  {
    assert forall a | 0 <= a < |s.attempts| :: t.attempts[a] == s.attempts[a];
    if ChunkAccepted(s, m, j) {
      var a :| 0 <= a < |s.attempts| && s.attempts[a].notification == m && s.attempts[a].index == j && s.attempts[a].state == Accepted;
      assert t.attempts[a].notification == m;
    }
    if ChunkAccepted(t, m, j) {
      var a :| 0 <= a < |t.attempts| && t.attempts[a].notification == m && t.attempts[a].index == j && t.attempts[a].state == Accepted;
      assert s.attempts[a].notification == m;
    }
  }

  // ---------------------------------------------------------------- leases, takeover and release

  /** Recovery by the holder of the dispatch row reaches every prepared attempt. */
  lemma {:induction false} RecoverKeepsInv(s: Db, owner: nat, fence: nat)
    requires DbInv(s)
    ensures DbInv(RecoverPrepared(s, owner, fence))
    ensures NoPrepared(RecoverPrepared(s, owner, fence), StreamLease(TelegramDispatch, owner, fence))
    ensures Holds(s, StreamLease(TelegramDispatch, owner, fence)) ==>
              forall a | 0 <= a < |s.attempts| :: RecoverPrepared(s, owner, fence).attempts[a].state != Prepared
  {
    var t := RecoverPrepared(s, owner, fence);
    forall a | 0 <= a < |s.attempts| && s.attempts[a].state == Prepared
      ensures s.attempts[a].notification < |s.outbox| && s.outbox[s.attempts[a].notification].state == Sending
    {
      assert AttemptOk(s, a);
    }
    forall a | 0 <= a < |t.attempts| && OwnAttempt(t, a, StreamLease(TelegramDispatch, owner, fence))
      ensures t.attempts[a].state != Prepared
    {
      assert s.attempts[a].state == Prepared ==> Unmarked(s, a, owner, fence);
    }
    if Holds(s, StreamLease(TelegramDispatch, owner, fence)) {
      forall a | 0 <= a < |s.attempts| ensures t.attempts[a].state != Prepared {
        if s.attempts[a].state == Prepared { assert AttemptOk(s, a); assert Unmarked(s, a, owner, fence); }
      }
    }
    RecoverKeepsAttempts(s, t, owner, fence);
    forall m | 0 <= m < |t.outbox| ensures t.outbox[m].state == Sent <==> AllAccepted(t, m) {
      assert s.outbox[m].state == Sent <==> AllAccepted(s, m);
      forall i ensures ChunkAccepted(t, m, i) <==> ChunkAccepted(s, m, i) { if 0 <= i { SameAccepted(s, t, m, i); } }
      UnmarkedIsSending(s, m, owner, fence);
    }
  }

  lemma UnmarkedIsSending(s: Db, n: nat, owner: nat, fence: nat)
    ensures HasUnmarked(s, n, owner, fence) ==> n < |s.outbox| && s.outbox[n].state == Sending
  {
  }

  lemma {:induction false} RecoverKeepsAttempts(s: Db, t: Db, owner: nat, fence: nat)
    requires DbInv(s) && t == RecoverPrepared(s, owner, fence)
    ensures AttemptsOk(t) && ChunkOrder(t) && OneOpen(t)
  {
    forall a | 0 <= a < |t.attempts| ensures AttemptOk(t, a) {
      assert AttemptOk(s, a);
      var n := s.attempts[a].notification;
      forall j | 0 <= j < t.attempts[a].index && (IsOpen(t.attempts[a]) || t.attempts[a].state == Accepted)
        ensures ChunkAccepted(t, n, j)
      {
        SameAccepted(s, t, n, j);
      }
      if IsOpen(t.attempts[a]) { UnrecoveredStays(s, a, owner, fence); }
      UnmarkedIsSending(s, n, owner, fence);
    }
    forall a, b | 0 <= a < b < |t.attempts| && SameChunk(t, a, b) ensures Harmless(t.attempts[a].state) {
      assert SameChunk(s, a, b);
    }
  }

  /** An attempt that stays open keeps its notification where it is. */
  lemma UnrecoveredStays(s: Db, a: nat, owner: nat, fence: nat)
    requires DbInv(s) && a < |s.attempts| && IsOpen(s.attempts[a]) && !Unmarked(s, a, owner, fence)
    ensures !HasUnmarked(s, s.attempts[a].notification, owner, fence)
  {
  }

  /** Recovery on behalf of a lease that no longer holds the row finds nothing. */
  lemma {:induction false} StaleRecoverIsIdle(s: Db, l: StreamLease)
    requires DbInv(s) && l.stream == TelegramDispatch && !Holds(s, l)
    ensures RecoverPrepared(s, l.owner, l.fence) == s
  {
    forall a | 0 <= a < |s.attempts| ensures !Unmarked(s, a, l.owner, l.fence) { assert AttemptOk(s, a); }
    assert RecoveredAttempts(s, l.owner, l.fence) == s.attempts;
    assert RecoveredOutbox(s, l.owner, l.fence) == s.outbox;
  }

  ghost predicate NonePrepared(s: Db) {
    forall a | 0 <= a < |s.attempts| :: s.attempts[a].state != Prepared
  }

  /** Changing lease and run rows only. */
  lemma {:induction false} LeaseRowsKeepInv(s: Db, t: Db)
    requires DbInv(s) && t == s.(leases := t.leases, runs := t.runs) && RunsOk(t)
    requires MaxFence(s.runs, TelegramDispatch) <= MaxFence(t.runs, TelegramDispatch)
    requires (TelegramDispatch in t.leases && TelegramDispatch in s.leases
               && t.leases[TelegramDispatch] == s.leases[TelegramDispatch])
             || forall a | 0 <= a < |s.attempts| :: s.attempts[a].state != Prepared
    ensures DbInv(t)
  {
    forall m, i ensures ChunkAccepted(t, m, i) <==> ChunkAccepted(s, m, i) { SameAccepted(s, t, m, i); }
    forall a | 0 <= a < |t.attempts| ensures AttemptOk(t, a) { assert AttemptOk(s, a); }
    forall a, b | 0 <= a < b < |t.attempts| && SameChunk(t, a, b) ensures Harmless(t.attempts[a].state) {
      assert SameChunk(s, a, b);
    }
    forall m | 0 <= m < |t.outbox| ensures t.outbox[m].state == Sent <==> AllAccepted(t, m) {
      assert s.outbox[m].state == Sent <==> AllAccepted(s, m);
    }
  }

  /** The run table after an acquisition, with the fences it hands out. */
  lemma {:induction false} InstallKeepsRuns(s: Db, t: Db, stream: Stream, owner: nat, expiresAt: int)
    requires RunsOk(s) && t == Install(s, stream, owner, expiresAt)
    requires forall i | 0 <= i < |s.runs| && s.runs[i].stream == stream :: s.runs[i].finished
    ensures RunsOk(t)
    ensures MaxFence(t.runs, stream) == MaxFence(s.runs, stream) + 1
    ensures forall st | st != stream :: MaxFence(t.runs, st) == MaxFence(s.runs, st)
  {
    var fence := MaxFence(s.runs, stream) + 1;
    var r := StreamRun(stream, owner, fence, false);
    assert t.runs == s.runs + [r];
    forall st ensures MaxFence(t.runs, st) == (if st == stream then fence else MaxFence(s.runs, st)) {
      MaxFenceAppend(s.runs, r, st);
    }
    forall i, j | 0 <= i < j < |t.runs| && t.runs[i].stream == t.runs[j].stream
      ensures t.runs[i].fence < t.runs[j].fence
    {
      assert t.runs[i] == s.runs[i];
      if j < |s.runs| { assert t.runs[j] == s.runs[j]; }
    }
    forall i | 0 <= i < |t.runs| && !t.runs[i].finished
      ensures t.runs[i].stream in t.leases
      ensures t.leases[t.runs[i].stream].fence == t.runs[i].fence && t.leases[t.runs[i].stream].owner == t.runs[i].owner
    {
      if i < |s.runs| { assert t.runs[i] == s.runs[i]; }
    }
  }

  /** Finishing the runs of one lease, and dropping its row or keeping it. */
  lemma {:induction false} FinishKeepsRuns(s: Db, t: Db, stream: Stream, fence: nat, owner: Option<nat>)
    requires RunsOk(s) && t.runs == FinishRuns(s.runs, stream, fence, owner)
    requires t.leases == s.leases
             || (t.leases == s.leases - {stream} && stream in s.leases && s.leases[stream].fence == fence
                 && (owner.Some? ==> s.leases[stream].owner == owner.value))
    ensures RunsOk(t)
    ensures forall st :: MaxFence(t.runs, st) == MaxFence(s.runs, st)
  {
    FinishRunsKeepsFences(s.runs, stream, fence, owner);
    forall i, j | 0 <= i < j < |t.runs| && t.runs[i].stream == t.runs[j].stream
      ensures t.runs[i].fence < t.runs[j].fence
    {
      assert s.runs[i].stream == s.runs[j].stream;
    }
    forall i | 0 <= i < |t.runs| && !t.runs[i].finished
      ensures t.runs[i].stream in t.leases
      ensures t.leases[t.runs[i].stream].fence == t.runs[i].fence && t.leases[t.runs[i].stream].owner == t.runs[i].owner
    {
      assert !s.runs[i].finished;
    }
  }

  /** Without a dispatch row there is no prepared attempt. */
  lemma NoRowNoPrepared(s: Db)
    requires DbInv(s) && TelegramDispatch !in s.leases
    ensures forall a | 0 <= a < |s.attempts| :: s.attempts[a].state != Prepared
  {
    forall a | 0 <= a < |s.attempts| ensures s.attempts[a].state != Prepared { assert AttemptOk(s, a); }
  }

  lemma {:induction false} RetireKeepsInv(s: Db, t: Db, stream: Stream)
    requires DbInv(s) && stream in s.leases && t == Retire(s, stream)
    ensures DbInv(t) && (stream == TelegramDispatch ==> NonePrepared(t))
    ensures |t.runs| == |s.runs| && forall i | 0 <= i < |s.runs| :: t.runs[i].stream == s.runs[i].stream
    ensures forall i | 0 <= i < |s.runs| && s.runs[i].stream == stream :: t.runs[i].finished
    ensures forall st :: MaxFence(t.runs, st) == MaxFence(s.runs, st)
  {
    var row := s.leases[stream];
    var s1 := if stream == TelegramDispatch then RecoverPrepared(s, row.owner, row.fence) else s;
    if stream == TelegramDispatch { RecoverKeepsInv(s, row.owner, row.fence); }
    assert s1.runs == s.runs && s1.leases == s.leases;
    assert t == s1.(runs := FinishRuns(s.runs, stream, row.fence, None));
    FinishKeepsRuns(s1, t, stream, row.fence, None);
    RetireFinishes(s, t.runs, stream);
    if TelegramDispatch !in s.leases { NoRowNoPrepared(s1); }
    LeaseRowsKeepInv(s1, t);
  }

  /** The open run of a stream is that of its lease row, so finishing that fence finishes all. */
  lemma RetireFinishes(s: Db, runs: seq<StreamRun>, stream: Stream)
    requires RunsOk(s) && stream in s.leases && runs == FinishRuns(s.runs, stream, s.leases[stream].fence, None)
    ensures forall i | 0 <= i < |s.runs| && s.runs[i].stream == stream :: runs[i].finished
  {
    forall i | 0 <= i < |s.runs| && s.runs[i].stream == stream ensures runs[i].finished {
      assert s.runs[i].finished || s.runs[i].fence == s.leases[stream].fence;
    }
  }

  lemma {:induction false} InstallKeepsInv(s: Db, t: Db, stream: Stream, owner: nat, expiresAt: int)
    requires DbInv(s) && t == Install(s, stream, owner, expiresAt)
    requires forall i | 0 <= i < |s.runs| && s.runs[i].stream == stream :: s.runs[i].finished
    requires stream == TelegramDispatch ==> NonePrepared(s)
    ensures DbInv(t) && t.attempts == s.attempts
    ensures MaxFence(t.runs, stream) == MaxFence(s.runs, stream) + 1
    ensures forall st | st != stream :: MaxFence(t.runs, st) == MaxFence(s.runs, st)
  {
    InstallKeepsRuns(s, t, stream, owner, expiresAt);
    InstallTouches(s, t, stream, owner, expiresAt);
    if TelegramDispatch !in s.leases { NoRowNoPrepared(s); }
    LeaseRowsKeepInv(s, t);
  }

  lemma InstallTouches(s: Db, t: Db, stream: Stream, owner: nat, expiresAt: int)
    requires t == Install(s, stream, owner, expiresAt)
    ensures t == s.(leases := t.leases, runs := t.runs)
    ensures forall st | st != stream && st in s.leases :: st in t.leases && t.leases[st] == s.leases[st]
  {
  }

  /** The database an acquisition installs its lease into: the old row, if there is one, is retired first. */
  function Vacated(s: Db, stream: Stream): Db {
    if stream in s.leases then Retire(s, stream) else s
  }

  lemma {:induction false} VacatedKeepsInv(s: Db, m: Db, stream: Stream)
    requires DbInv(s) && m == Vacated(s, stream)
    ensures DbInv(m) && (stream == TelegramDispatch ==> NonePrepared(m))
    ensures forall i | 0 <= i < |m.runs| && m.runs[i].stream == stream :: m.runs[i].finished
    ensures forall st :: MaxFence(m.runs, st) == MaxFence(s.runs, st)
  {
    if stream in s.leases {
      RetireKeepsInv(s, m, stream);
    } else if stream == TelegramDispatch {
      NoRowNoPrepared(s);
    }
  }

  /** An acquisition is granted and installs its lease into the vacated database, or it changes nothing. */
  lemma AcquireIsInstall(s: Db, stream: Stream, owner: nat, now: int, seconds: int)
    ensures var (t, l) := AcquireLease(s, stream, owner, now, seconds);
            if l.None? then t == s
            else t == Install(Vacated(s, stream), stream, owner, now + seconds * 1_000_000)
                 && l.value == StreamLease(stream, owner, MaxFence(Vacated(s, stream).runs, stream) + 1)
  {
  }

  /** An installation into a vacated database: the invariant, the new fence, and the fences of the other streams. */
  lemma {:induction false} InstalledKeepsInv(s: Db, t: Db, stream: Stream, owner: nat, expiresAt: int)
    requires DbInv(s) && t == Install(Vacated(s, stream), stream, owner, expiresAt)
    ensures DbInv(t) && (stream == TelegramDispatch ==> NonePrepared(t))
    ensures MaxFence(Vacated(s, stream).runs, stream) == MaxFence(s.runs, stream)
    ensures MaxFence(t.runs, stream) == MaxFence(s.runs, stream) + 1
    ensures forall st | st != stream :: MaxFence(t.runs, st) == MaxFence(s.runs, st)
  {
    var m := Vacated(s, stream);
    VacatedKeepsInv(s, m, stream);
    InstallKeepsInv(m, t, stream, owner, expiresAt);
  }

  /** An acquisition on the dispatch stream leaves no prepared attempt behind. */
  lemma {:induction false} AcquireKeepsInv(s: Db, stream: Stream, owner: nat, now: int, seconds: int)
    requires DbInv(s)
    ensures var (t, l) := AcquireLease(s, stream, owner, now, seconds);
            && DbInv(t)
            && (l.Some? ==> l.value.fence == MaxFence(s.runs, stream) + 1 == MaxFence(t.runs, stream))
            && (l.Some? && stream == TelegramDispatch ==>
                  forall a | 0 <= a < |t.attempts| :: t.attempts[a].state != Prepared)
            && (forall st | st != stream :: MaxFence(t.runs, st) == MaxFence(s.runs, st))
  {
    var (t, l) := AcquireLease(s, stream, owner, now, seconds);
    AcquireIsInstall(s, stream, owner, now, seconds);
    if l.Some? { InstalledKeepsInv(s, t, stream, owner, now + seconds * 1_000_000); }
  }

  lemma {:induction false} ReleaseKeepsInv(s: Db, l: StreamLease, now: int, done: bool)
    requires DbInv(s)
    requires l.stream == TelegramDispatch && done && Holds(s, l) ==> NoPrepared(s, l)
    ensures DbInv(ReleaseLease(s, l, now, done))
    ensures forall st :: MaxFence(ReleaseLease(s, l, now, done).runs, st) == MaxFence(s.runs, st)
  {
    var s1 := if l.stream == TelegramDispatch && !done then RecoverPrepared(s, l.owner, l.fence) else s;
    if l.stream == TelegramDispatch && !done { RecoverKeepsInv(s, l.owner, l.fence); }
    var t := ReleaseLease(s, l, now, done);
    FinishKeepsRuns(s1, t, l.stream, l.fence, Some(l.owner));
    if l.stream == TelegramDispatch && Holds(s, l) {
      forall a | 0 <= a < |s1.attempts| ensures s1.attempts[a].state != Prepared { assert AttemptOk(s1, a); }
    }
    if TelegramDispatch !in s.leases { NoRowNoPrepared(s1); }
    LeaseRowsKeepInv(s1, t);
  }
}
