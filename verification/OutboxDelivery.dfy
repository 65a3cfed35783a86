/** What arrives in the chat: with truthful answers no chunk arrives twice, and a sent notification arrived whole. */
module OutboxDelivery {
  import opened Common
  import opened OutboxModel
  import opened OutboxTick
  import opened OutboxInvariant
  import opened OutboxTheorems

  /** The outbox together with the attempts whose message has arrived. */
  datatype Chat = Chat(world: World, arrived: set<nat>)

  datatype Happening = Do(act: Action) | Arrive(attempt: nat)

  function Next(v: Chat, h: Happening): Chat {
    match h
    case Do(act) => v.(world := Act(v.world, act))
    case Arrive(a) => v.(arrived := v.arrived + {a})
  }

  ghost predicate AnswersTrue(s: Db, arrived: set<nat>) {
    forall a | 0 <= a < |s.attempts| ::
      && (s.attempts[a].state == TrustedRejected ==> a !in arrived)
      && (s.attempts[a].state == Accepted ==> a in arrived)
  }

  /**
    A message that was handed over arrives at some moment or never.  An acceptance says that it has arrived, a
    trusted rejection that it has not and will not; nothing is assumed of unknown outcomes.
   */
  ghost predicate Truthful(v: Chat, h: Happening) {
    match h
    case Do(act) => AnswersTrue(Act(v.world, act).db, v.arrived)
    case Arrive(a) =>
      a in v.world.log && (a < |v.world.db.attempts| ==> v.world.db.attempts[a].state != TrustedRejected)
  }

  function After(v: Chat, hs: seq<Happening>): Chat
    decreases |hs|
  {
    if hs == [] then v else Next(After(v, hs[..|hs| - 1]), hs[|hs| - 1])
  }

  ghost predicate TruthfulRun(v: Chat, hs: seq<Happening>)
    decreases |hs|
  {
    hs != [] ==> TruthfulRun(v, hs[..|hs| - 1]) && Truthful(After(v, hs[..|hs| - 1]), hs[|hs| - 1])
  }

  ghost predicate ChatInv(v: Chat) {
    Inv(v.world) && AnswersTrue(v.world.db, v.arrived) && forall a | a in v.arrived :: a in v.world.log
  }

  const QUIET: Chat := Chat(START, {})

  lemma LogStays(w: World, act: Action, a: nat)
    requires a in w.log
    ensures a in Act(w, act).log
  {
  }

  lemma {:induction false} TruthfulRunsKeepChat(hs: seq<Happening>)
    requires TruthfulRun(QUIET, hs)
    ensures ChatInv(After(QUIET, hs))
    decreases |hs|
  {
    if hs != [] {
      var v := After(QUIET, hs[..|hs| - 1]);
      TruthfulRunsKeepChat(hs[..|hs| - 1]);
      match hs[|hs| - 1]
      case Do(act) =>
        ActKeepsInv(v.world, act);
        forall a | a in v.arrived ensures a in Act(v.world, act).log { LogStays(v.world, act, a); }
      case Arrive(a) =>
    }
  }

  /** No chunk arrives twice, through whatever attempts, ticks, stops and takeovers. */
  lemma {:induction false} AtMostOneArrival(hs: seq<Happening>, a: nat, b: nat)
    requires TruthfulRun(QUIET, hs)
    requires a in After(QUIET, hs).arrived && b in After(QUIET, hs).arrived
    ensures var s := After(QUIET, hs).world.db;
            a < |s.attempts| && b < |s.attempts| && (SameChunk(s, a, b) ==> a == b)
  {
    TruthfulRunsKeepChat(hs);
    var v := After(QUIET, hs);
    var s := v.world.db;
    var k :| 0 <= k < |v.world.log| && v.world.log[k] == a;
    var m :| 0 <= m < |v.world.log| && v.world.log[m] == b;
    assert WasMarked(s.attempts[a].state) && WasMarked(s.attempts[b].state);
    assert SameChunk(s, a, b) ==> SameChunk(s, b, a);
    assert ChunkOrder(s);
  }

  /** When a notification is "sent", each of its chunks has arrived, exactly once. */
  lemma {:induction false} SentArrivedOnce(hs: seq<Happening>, n: nat, i: nat)
    requires TruthfulRun(QUIET, hs)
    requires n < |After(QUIET, hs).world.db.outbox| && After(QUIET, hs).world.db.outbox[n].state == Sent
    requires n in After(QUIET, hs).world.db.chunks && i < |After(QUIET, hs).world.db.chunks[n]|
    ensures var v := After(QUIET, hs);
            exists a: nat :: a in v.arrived && a < |v.world.db.attempts|
              && v.world.db.attempts[a].notification == n && v.world.db.attempts[a].index == i
              && forall b: nat :: b in v.arrived && b < |v.world.db.attempts| && SameChunk(v.world.db, a, b) ==> a == b
  {
    TruthfulRunsKeepChat(hs);
    var v := After(QUIET, hs);
    var s := v.world.db;
    assert AllAccepted(s, n) && ChunkAccepted(s, n, i);
    var a :| 0 <= a < |s.attempts| && s.attempts[a].notification == n && s.attempts[a].index == i && s.attempts[a].state == Accepted;
    forall b: nat | b in v.arrived && b < |s.attempts| && SameChunk(s, a, b) ensures a == b { AtMostOneArrival(hs, a, b); }
  }
}
