/**
  The newsroom from candidate to sheet: approvals hand off in the same transaction in which the sheet authority
  enqueues, so every row on the sheet comes from one approved candidate, and no candidate has two.
 */
module Newsroom {
  import opened Common
  import P = PipelineModel
  import PI = PipelineInvariant
  import PS = PipelineSteps
  import H = HandoffModel
  import HI = HandoffInvariant
  import HT = HandoffTheorems

  /** The desk, and the sheet with its authority; handoff h of the desk is subject OnHandoff(h) of the sheet. */
  datatype Room = Room(desk: P.Db, sheet: HT.World)

  /** A call at the desk, with the target that its service is set up for; or a call or a landing at the sheet. */
  datatype Event = AtDesk(call: P.Call, target: nat) | AtSheet(what: HT.Happening)

  /** An approval enqueues its handoff in the transaction that approves; nothing else enqueues. */
  function Next(r: Room, e: Event): Room {
    match e
    case AtDesk(c, target) =>
      var desk := P.Step(r.desk, c);
      Room(desk, if |desk.handoffs| > |r.desk.handoffs|
                 then r.sheet.(db := H.Enqueue(r.sheet.db, |r.desk.handoffs|, target)) else r.sheet)
    case AtSheet(what) => if what.Serve? && what.call.CallEnqueue? then r else r.(sheet := HT.Next(r.sheet, what))
  }

  ghost predicate Truthful(r: Room, e: Event) { e.AtSheet? ==> HT.Truthful(r.sheet, e.what) }

  function After(r: Room, es: seq<Event>): Room
    decreases |es|
  {
    if es == [] then r else Next(After(r, es[..|es| - 1]), es[|es| - 1])
  }

  ghost predicate TruthfulRun(r: Room, es: seq<Event>)
    decreases |es|
  {
    es != [] ==> TruthfulRun(r, es[..|es| - 1]) && Truthful(After(r, es[..|es| - 1]), es[|es| - 1])
  }

  function Opening(oracles: map<nat, nat>): Room { Room(P.EmptyDb(), HT.World(H.EmptyDb(oracles), {})) }

  // ---------------------------------------------------------------- the two halves together

  /** The handoffs of the desk are the handoff subjects of the sheet. */
  ghost predicate Linked(r: Room) {
    forall h: nat :: h < |r.desk.handoffs| <==> H.OnHandoff(h) in r.sheet.db.subjects
  }

  ghost predicate RoomInv(r: Room) { PI.Inv(r.desk) && HT.WorldInv(r.sheet) && Linked(r) }

  /** A call at the desk adds at most one handoff, and only an approval does. */
  lemma OneHandoffAtATime(s: P.Db, c: P.Call)
    ensures s.handoffs <= P.Step(s, c).handoffs && |P.Step(s, c).handoffs| <= |s.handoffs| + 1
  {
    PI.StepEvolves(s, c);
    match c
    case Desk(d) => DeskHandsOffOne(s, d);
    case Worker(w) => WorkersHandNothingOff(s, w);
    case Operator(o) => OperatorsHandNothingOff(s, o);
  }

  lemma DeskHandsOffOne(s: P.Db, c: P.DeskCall)
    ensures |P.DeskStep(s, c).handoffs| <= |s.handoffs| + 1
  {
    if c.CallApply? && c.t < |s.tokens| && P.TokenFits(s, s.tokens[c.t], c.e) {
      var m := P.Consume(s, c.t);
      assert m.handoffs == s.handoffs;
      ActHandsOffOne(m, c.t, c.now);
    }
  }

  lemma ActHandsOffOne(s: P.Db, t: nat, now: int)
    requires t < |s.tokens| && s.tokens[t].candidate < |s.candidates| && s.tokens[t].digest < |s.digests|
    ensures |P.Act(s, t, now).handoffs| <= |s.handoffs| + 1
  {
  }

  lemma WorkersHandNothingOff(s: P.Db, c: P.WorkerCall)
    ensures P.WorkerStep(s, c).handoffs == s.handoffs
  {
  }

  lemma OperatorsHandNothingOff(s: P.Db, c: P.OperatorCall)
    ensures P.OperatorStep(s, c).handoffs == s.handoffs
  {
  }

  /** The same subjects, in whatever states. */
  ghost predicate SameSubjects(s: H.Db, t: H.Db) { t.subjects.Keys == s.subjects.Keys }

  lemma RecoverKeepsSubjects(s: H.Db, target: nat, now: int)
    ensures SameSubjects(s, H.Recover(s, target, now))
  {
  }

  lemma AcquireKeepsSubjects(s: H.Db, id: H.SubjectId, asked: Option<nat>, now: int, expiresAt: int, token: nat)
    ensures SameSubjects(s, H.AcquireInitial(s, id, asked, now, expiresAt, token).0)
  {
    var b := H.BoundTarget(s, id);
    if b.Some? { RecoverKeepsSubjects(s, b.value, now); }
  }

  lemma MarkKeepsSubjects(s: H.Db, l: H.Lease, p: H.DispatchProof, now: int)
    ensures SameSubjects(s, H.MarkPossiblySent(s, l, p, now).0)
  {
    if H.MarkEvidence(s, l, p, now) { RecoverKeepsSubjects(s, s.ops[l.op].target, now); }
  }

  lemma SettlementsKeepSubjects(s: H.Db, c: H.Call)
    requires c.CallSettleRejection? || c.CallFinish?
    ensures SameSubjects(s, H.Step(s, c))
  {
  }

  lemma EvidenceKeepsSubjects(s: H.Db, c: H.Call)
    requires c.CallRetryBlocked? || c.CallRecordPreflight? || c.CallReleasePossiblySent? || c.CallRecordProbe? || c.CallReleaseProbe?
    ensures SameSubjects(s, H.Step(s, c))
  {
  }

  /** Only an enqueue adds a handoff subject, and nothing removes one. */
  lemma SheetKeepsHandoffs(s: H.Db, c: H.Call, h: nat)
    requires !c.CallEnqueue?
    ensures H.OnHandoff(h) in H.Step(s, c).subjects <==> H.OnHandoff(h) in s.subjects
  {
    match c
    case CallEnsureBootstrap(_, _) =>
    case CallAcquireInitial(id, asked, now, expiresAt, token) => AcquireKeepsSubjects(s, id, asked, now, expiresAt, token);
    case CallAcquireProbe(op, fence, now, expiresAt, token) => ProbeKeepsSubjects(s, op, fence, now, expiresAt, token);
    case CallMark(l, p, now) => MarkKeepsSubjects(s, l, p, now);
    case CallRecover(t, now) => RecoverKeepsSubjects(s, t, now);
    case CallSettleRejection(_, _, _, _, _) => SettlementsKeepSubjects(s, c);
    case CallFinish(_, _, _) => SettlementsKeepSubjects(s, c);
    case _ => EvidenceKeepsSubjects(s, c);
  }

  lemma ProbeKeepsSubjects(s: H.Db, op: nat, fence: nat, now: int, expiresAt: int, token: nat)
    ensures SameSubjects(s, H.AcquireProbe(s, op, fence, now, expiresAt, token).0)
  {
  }

  lemma EnqueueKeepsWorld(w: HT.World, h: nat, target: nat)
    requires HT.WorldInv(w)
    ensures HT.WorldInv(w.(db := H.Enqueue(w.db, h, target)))
    ensures forall id :: id in H.Enqueue(w.db, h, target).subjects <==> id in w.db.subjects || id == H.OnHandoff(h)
  {
    HT.TruthfulStepKeepsWorld(w, HT.Serve(H.CallEnqueue(h, target)));
  }

  lemma DeskKeepsInv(r: Room, c: P.Call, target: nat)
    requires RoomInv(r)
    ensures RoomInv(Next(r, AtDesk(c, target)))
  {
    var v := Next(r, AtDesk(c, target));
    PS.StepKeeps(r.desk, c);
    OneHandoffAtATime(r.desk, c);
    assert v.desk == P.Step(r.desk, c);
    if |v.desk.handoffs| > |r.desk.handoffs| {
      EnqueueKeepsWorld(r.sheet, |r.desk.handoffs|, target);
      assert v.sheet == r.sheet.(db := H.Enqueue(r.sheet.db, |r.desk.handoffs|, target));
      LinkedFurther(r, v);
    } else {
      assert v.sheet == r.sheet;
    }
  }

  lemma LinkedFurther(r: Room, v: Room)
    requires Linked(r) && |v.desk.handoffs| == |r.desk.handoffs| + 1
    requires forall id :: id in v.sheet.db.subjects <==> id in r.sheet.db.subjects || id == H.OnHandoff(|r.desk.handoffs|)
    ensures Linked(v)
  {
    forall h: nat ensures h < |v.desk.handoffs| <==> H.OnHandoff(h) in v.sheet.db.subjects {
      assert h < |r.desk.handoffs| <==> H.OnHandoff(h) in r.sheet.db.subjects;
    }
  }

  lemma SheetKeepsInv(r: Room, what: HT.Happening)
    requires RoomInv(r) && HT.Truthful(r.sheet, what)
    ensures RoomInv(Next(r, AtSheet(what)))
  {
    if !(what.Serve? && what.call.CallEnqueue?) {
      HT.TruthfulStepKeepsWorld(r.sheet, what);
      forall h: nat ensures H.OnHandoff(h) in HT.Next(r.sheet, what).db.subjects <==> H.OnHandoff(h) in r.sheet.db.subjects {
        if what.Serve? { SheetKeepsHandoffs(r.sheet.db, what.call, h); }
      }
    }
  }

  lemma NextKeepsInv(r: Room, e: Event)
    requires RoomInv(r) && Truthful(r, e)
    ensures RoomInv(Next(r, e))
  {
    match e
    case AtDesk(c, target) => DeskKeepsInv(r, c, target);
    case AtSheet(what) => SheetKeepsInv(r, what);
  }

  lemma {:induction false} RunKeepsInv(oracles: map<nat, nat>, es: seq<Event>)
    requires TruthfulRun(Opening(oracles), es)
    ensures RoomInv(After(Opening(oracles), es))
    decreases |es|
  {
    if es == [] {
      PI.InitInv();
      HI.InitInv(oracles);
    } else {
      RunKeepsInv(oracles, es[..|es| - 1]);
      NextKeepsInv(After(Opening(oracles), es[..|es| - 1]), es[|es| - 1]);
    }
  }

  /** An approval puts its new handoff in line at the sheet, fresh and bound to the target that the desk is set up for. */
  lemma ApprovalEnqueues(r: Room, c: P.Call, target: nat)
    requires RoomInv(r) && |P.Step(r.desk, c).handoffs| > |r.desk.handoffs|
    ensures var v, id := Next(r, AtDesk(c, target)), H.OnHandoff(|r.desk.handoffs|);
            && v.desk == P.Step(r.desk, c) && id !in r.sheet.db.subjects
            && id in v.sheet.db.subjects && v.sheet.db.subjects[id] == H.Subject(H.Fresh, None, None, None)
            && H.BoundTarget(v.sheet.db, id) == Some(target)
            && (forall other | other in r.sheet.db.subjects :: v.sheet.db.subjects[other] == r.sheet.db.subjects[other])
  {
    assert H.OnHandoff(|r.desk.handoffs|) !in r.sheet.db.subjects;
  }

  // ---------------------------------------------------------------- rows and approvals

  /** A row on the sheet that a handoff put there. */
  ghost predicate RowOf(r: Room, op: nat, h: nat) {
    op in r.sheet.landed && op < |r.sheet.db.ops| && r.sheet.db.ops[op].subject == H.OnHandoff(h)
  }

  ghost predicate ApprovedBy(r: Room, h: nat, candidate: nat) {
    && h < |r.desk.handoffs| && r.desk.handoffs[h].approval < |r.desk.tokens|
    && r.desk.tokens[r.desk.handoffs[h].approval].candidate == candidate
  }

  /**
    Over every run of desk and sheet with truthful settlements: a row on the sheet belongs to a handoff of one
    approved candidate and carries the generation whose content its spent approval token named.
   */
  lemma {:induction false} RowsComeFromApprovals(oracles: map<nat, nat>, es: seq<Event>, op: nat, h: nat)
    requires TruthfulRun(Opening(oracles), es) && RowOf(After(Opening(oracles), es), op, h)
    ensures var r := After(Opening(oracles), es);
            && h < |r.desk.handoffs| && PI.HandoffOk(r.desk, r.desk.handoffs[h])
            && ApprovedBy(r, h, r.desk.tokens[r.desk.handoffs[h].approval].candidate)
            && r.desk.candidates[r.desk.tokens[r.desk.handoffs[h].approval].candidate].status == P.Approved
  {
    RunKeepsInv(oracles, es);
    var r := After(Opening(oracles), es);
    assert HI.Bound(r.sheet.db, r.sheet.db.ops[op]);
    assert H.OnHandoff(h) in r.sheet.db.subjects;
  }

  /** And a candidate never has two rows: one handoff an approval, one copy a handoff. */
  lemma {:induction false} OneRowPerCandidate(oracles: map<nat, nat>, es: seq<Event>, c: nat, i: nat, h: nat, j: nat, k: nat)
    requires TruthfulRun(Opening(oracles), es)
    requires var r := After(Opening(oracles), es);
             RowOf(r, i, h) && ApprovedBy(r, h, c) && RowOf(r, j, k) && ApprovedBy(r, k, c)
    ensures i == j && h == k
  {
    RunKeepsInv(oracles, es);
    var r := After(Opening(oracles), es);
    assert h < k || k < h || h == k;
    HT.OneLanding(r.sheet, i, j);
  }

  /** Every approved candidate has its handoff waiting at the sheet, under a binding. */
  lemma {:induction false} ApprovalsReachTheSheet(oracles: map<nat, nat>, es: seq<Event>, c: nat)
    requires TruthfulRun(Opening(oracles), es)
    requires var r := After(Opening(oracles), es); c < |r.desk.candidates| && r.desk.candidates[c].status == P.Approved
    ensures var r := After(Opening(oracles), es);
            exists h: nat :: ApprovedBy(r, h, c) && H.OnHandoff(h) in r.sheet.db.subjects
                             && H.BoundTarget(r.sheet.db, H.OnHandoff(h)).Some?
  {
    RunKeepsInv(oracles, es);
    var r := After(Opening(oracles), es);
    assert PI.HandedOff(r.desk, c);
    var h :| 0 <= h < |r.desk.handoffs| && r.desk.handoffs[h].approval < |r.desk.tokens|
             && r.desk.tokens[r.desk.handoffs[h].approval].candidate == c;
    assert ApprovedBy(r, h, c);
    assert H.OnHandoff(h) in r.sheet.db.subjects;
  }
}
