/** The latch's guarantees at every crash point of every execution, and the commands as they run. */
module Containment {
  import opened Common
  import opened ContainmentModel

  ghost predicate IsClean(d: Disk) { d.state.Some? && d.state.value.CleanDoc? }

  ghost predicate IsDirty(d: Disk) { d.state.Some? && d.state.value.DirtyDoc? }

  /**
    A credential exists only beside a dirty state: its own, or that of a reset on its way to remove it.
    A clean state validates against its receipt and its manifest.
   */
  ghost predicate Inv(d: Disk) {
    && (d.credential.Some? ==>
          IsDirty(d) && (d.state.value.unit == ResetUnit || d.credential.value == CredentialOf(d.state.value)))
    && (IsClean(d) ==> ValidClean(d, d.state.value, d.state.value.manifest))
  }

  lemma SealKeepsInv(d: Disk, dirty: StateDoc, kind: Kind, w: World, i: nat)
    requires Inv(d) && w.manifest.Some? && dirty.DirtyDoc? && d.state == Some(dirty) && i < |SealTrace(d, dirty, kind, w)|
    ensures Inv(SealTrace(d, dirty, kind, w)[i])
  {
  }

  /** Every disk that a command passes through is in order. */
  lemma TraceKeepsInv(d: Disk, c: Command, w: World, i: nat)
    requires Inv(d) && i < |Trace(d, c, w)|
    ensures Inv(Trace(d, c, w)[i])
  {
    match c
    case Start =>
    case Stop =>
      if MayStop(d, w) && i > 0 { SealKeepsInv(d, d.state.value, CleanKind, w, i - 1); }
    case Reset =>
      if MayReset(w) {
        var dirty := d.(state := Some(ResetDirty(d, w)));
        if Clears(dirty, w, None, false) && i > 2 { SealKeepsInv(Cleared(dirty), ResetDirty(d, w), ResetKind, w, i - 3); }
      }
    case Reboot =>
  }

  lemma {:induction false} ExecutionKeepsInv(d: Disk, actions: seq<Action>)
    requires Inv(d)
    ensures Inv(Execute(d, actions))
    decreases |actions|
  {
    if actions != [] {
      var a := actions[|actions| - 1];
      var before := Execute(d, actions[..|actions| - 1]);
      ExecutionKeepsInv(d, actions[..|actions| - 1]);
      var t := Trace(before, a.command, a.world);
      TraceKeepsInv(before, a.command, a.world, if a.steps < |t| then a.steps else |t| - 1);
    }
  }

  /** From an installation without state or credential: at every crash point, no credential beside a clean state. */
  lemma CredentialOnlyWhileNotClean(actions: seq<Action>, receipts: map<nat, Option<Receipt>>)
    ensures var d := Execute(Disk(None, receipts, None), actions);
            && (d.credential.Some? ==> !IsClean(d))
            && (IsClean(d) ==> ValidClean(d, d.state.value, d.state.value.manifest))
  {
    ExecutionKeepsInv(Disk(None, receipts, None), actions);
  }

  /** Activation changes the disk only from a clean state that validates against the present manifest, with all units quiet. */
  lemma StartsOnlyFromValidClean(d: Disk, w: World, i: nat)
    requires Inv(d) && i < |StartTrace(d, w)| && StartTrace(d, w)[i] != d
    ensures IsClean(d) && w.quiet && w.manifest.Some? && ValidClean(d, d.state.value, w.manifest.value)
    ensures IsDirty(StartTrace(d, w)[i]) && StartTrace(d, w)[i].state.value.previous == OfState(d.state.value)
  {
  }

  /** In good order, an activation that may start ends with exactly its own credential, whatever came before. */
  lemma StartSucceeds(d: Disk, w: World)
    requires Inv(d) && MayStart(d, w) && w.canPublish
    ensures var t := StartTrace(d, w);
            |t| == 3 && IsDirty(t[2]) && t[2].credential == Some(CredentialOf(t[2].state.value))
  {
  }

  /** A disk turns clean in one way: the last step of a stop or reset, with a receipt of the dirty state it ends. */
  lemma CleanOnlyAtTheEnd(d: Disk, c: Command, w: World, i: nat)
    requires i < |Trace(d, c, w)| && IsClean(Trace(d, c, w)[i]) && Trace(d, c, w)[i].state != d.state
    ensures c in {Stop, Reset} && i == |Trace(d, c, w)| - 1 && i >= 4
    ensures var e, before := Trace(d, c, w)[i], Trace(d, c, w)[i - 1];
            && IsDirty(before) && before.credential.None? && e.credential.None?
            && e.state.value.previous == OfState(before.state.value)
            && ValidClean(e, e.state.value, e.state.value.manifest)
            && e.receipts[e.state.value.receipt].value.kind == (if c == Stop then CleanKind else ResetKind)
  {
  }

  /** Once dirty, and without a stop or reset that completes, a disk is never clean again. */
  lemma {:induction false} DirtyStaysDirty(d: Disk, actions: seq<Action>)
    requires IsDirty(d)
    requires forall n | 0 <= n < |actions| :: !Completes(Execute(d, actions[..n]), actions[n])
    ensures IsDirty(Execute(d, actions))
    decreases |actions|
  {
    if actions != [] {
      var front, a := actions[..|actions| - 1], actions[|actions| - 1];
      forall n | 0 <= n < |front| ensures !Completes(Execute(d, front[..n]), front[n]) {
        assert front[..n] == actions[..n];
        assert !Completes(Execute(d, actions[..n]), actions[n]);
      }
      DirtyStaysDirty(d, front);
      OneActionStaysDirty(Execute(d, front), a);
    }
  }

  lemma OneActionStaysDirty(d: Disk, a: Action)
    requires IsDirty(d) && !Completes(d, a)
    ensures IsDirty(Perform(d, a))
  {
    var t := Trace(d, a.command, a.world);
    var i := if a.steps < |t| then a.steps else |t| - 1;
    if IsClean(t[i]) { CleanOnlyAtTheEnd(d, a.command, a.world, i); }
  }

  /** A dirty disk whose credential is gone, as after a reboot, stays as it is until a reset: no stop can end it. */
  lemma {:induction false} LostCredentialNeedsReset(d: Disk, actions: seq<Action>)
    requires IsDirty(d) && d.credential.None?
    requires forall n | 0 <= n < |actions| :: actions[n].command != Reset
    ensures Execute(d, actions).state == d.state && Execute(d, actions).credential.None?
    decreases |actions|
  {
    if actions != [] {
      LostCredentialNeedsReset(d, actions[..|actions| - 1]);
    }
  }

  /** A reset recovers from anything: any state file, readable or not, and any credential it can remove. */
  lemma ResetRecovers(d: Disk, w: World)
    requires MayReset(w) && w.credentialSound && w.name !in d.receipts
    ensures var t := CleanTrace(d, ResetKind, w);
            var e := t[|t| - 1];
            && |t| == 7 && IsClean(e) && e.credential.None? && ValidClean(e, e.state.value, w.manifest.value)
            && (d.state.Some? ==> t[1].state.value.previous == OfState(d.state.value))
  {
  }

  /** Start and stop of one unit link the new clean state, through the dirty one, back to the clean state before. */
  lemma StopLinksBack(d: Disk, w: World, v: World)
    requires Inv(d) && MayStart(d, w) && w.canPublish
    requires v.unit == w.unit && v.manifest == w.manifest && v.quiet && v.credentialSound && v.name !in d.receipts
    ensures var s := StartTrace(d, w);
            var t := CleanTrace(s[|s| - 1], CleanKind, v);
            var e := t[|t| - 1];
            && IsClean(e) && e.credential.None? && e.state.value.previous.OfState?
            && e.state.value.previous.state.DirtyDoc?
            && e.state.value.previous.state.previous == OfState(d.state.value)
  {
    StartSucceeds(d, w);
  }

  // ---------------------------------------------------------------- when a command acts, and what it leaves

  /** The clean state's receipt is on disk, and tells of its activation, unit, predecessor and the present manifest. */
  ghost predicate Attested(d: Disk, manifest: nat) {
    && IsClean(d) && d.state.value.manifest == manifest
    && d.state.value.receipt in d.receipts
    && match d.receipts[d.state.value.receipt]
       case None => false
       case Some(proof) =>
         && d.state.value.receiptDigest == OfReceipt(proof) && proof.manifest == manifest
         && proof.activation == d.state.value.activation && proof.unit == d.state.value.unit && proof.state == d.state.value.previous
  }

  /** A service may be activated: it is one of the two, the release is intact, all is quiet and the clean state attested. */
  ghost predicate Activates(d: Disk, w: World) {
    w.unit in {Some(Generate), Some(Canary)} && w.quiet && w.manifest.Some? && Attested(d, w.manifest.value)
  }

  /**
    An activation writes exactly then, first a dirty state with a fresh activation of this unit and release that
    names its predecessor, then a credential of the same three things if none is in its way.
   */
  lemma StartWritesExactly(d: Disk, w: World)
    ensures var t := StartTrace(d, w);
            && (|t| > 1 <==> Activates(d, w))
            && (|t| == 3 <==> Activates(d, w) && d.credential.None? && w.canPublish)
            && (|t| > 1 ==> t[1] == d.(state := t[1].state)
                            && t[1].state == Some(DirtyDoc(w.token, w.manifest.value, d.state.value.activation,
                                                           OfState(d.state.value), w.unit.value)))
            && (|t| == 3 ==> t[2] == t[1].(credential := Some(Credential(w.token, w.manifest.value, w.unit.value))))
            && |t| <= 3
  {
  }

  /** A stop of the unit may end this dirty state: it is that unit's own, of this release, and all is quiet. */
  ghost predicate Ends(d: Disk, w: World) {
    && w.unit in {Some(Generate), Some(Canary)} && w.quiet && w.manifest.Some?
    && IsDirty(d) && d.state.value.unit == w.unit.value && d.state.value.manifest == w.manifest.value
  }

  /** The credential that was published for this dirty state. */
  ghost predicate OwnCredential(d: Disk) {
    && IsDirty(d) && d.credential.Some? && d.credential.value.activation == d.state.value.activation
    && d.credential.value.manifest == d.state.value.manifest && d.credential.value.unit == d.state.value.unit
  }

  /** The last disk: clean, without credential, and with the receipt of the dirty state under this name. */
  ghost predicate EndedClean(d: Disk, e: Disk, dirty: StateDoc, kind: Kind, w: World) {
    && w.manifest.Some? && dirty.DirtyDoc? && e.credential.None? && e.receipts.Keys == d.receipts.Keys + {w.name}
    && e.receipts[w.name] == Some(Receipt(dirty.activation, kind, w.manifest.value, OfState(dirty), w.time, dirty.unit))
    && (forall n | n in d.receipts && n != w.name :: e.receipts[n] == d.receipts[n])
    && e.state == Some(CleanDoc(dirty.activation, dirty.unit, OfState(dirty), w.manifest.value, w.name, OfReceipt(e.receipts[w.name].value)))
  }

  /** A stop that may act writes a receipt; it ends clean if and only if it finds, and may remove, the state's own credential. */
  lemma StopEndsExactly(d: Disk, w: World)
    ensures var t := CleanTrace(d, CleanKind, w);
            var e := t[|t| - 1];
            && (|t| > 1 <==> Ends(d, w) && w.name !in d.receipts)
            && (IsDirty(d) ==> (IsClean(e) <==> Ends(d, w) && w.name !in d.receipts && OwnCredential(d) && w.credentialSound))
            && (|t| > 1 && IsClean(e) ==> EndedClean(d, e, d.state.value, CleanKind, w))
  {
  }

  /** A reset acts from any state file, run by no unit with all quiet, and ends clean unless a credential resists. */
  lemma ResetEndsExactly(d: Disk, w: World)
    ensures var t := CleanTrace(d, ResetKind, w);
            var e, resets := t[|t| - 1], w.manifest.Some? && w.unit.None? && w.quiet;
            && (|t| > 1 <==> resets)
            && (Completes(d, Action(Reset, w, |t| - 1)) <==>
                  resets && (d.credential.None? || w.credentialSound) && w.name !in d.receipts)
            && (resets ==> t[1] == d.(state := Some(DirtyDoc(w.token, w.manifest.value, if d.state.Some? then d.state.value.activation else 0,
                                                              if d.state.Some? then OfState(d.state.value) else ZERO, ResetUnit))))
            && (Completes(d, Action(Reset, w, |t| - 1)) ==> EndedClean(d, e, t[1].state.value, ResetKind, w))
  {
  }

  // ---------------------------------------------------------------- the commands as they run

  class Latch {
    var state: Option<StateDoc>
    var receipts: map<nat, Option<Receipt>>
    var credential: Option<Credential>

    constructor ()
      ensures Contents() == Disk(None, map[], None)
    {
      state, receipts, credential := None, map[], None;
    }

    function Contents(): Disk
      reads this
    {
      Disk(state, receipts, credential)
    }

    /** publish_credential */
    method PublishCredential(dirty: StateDoc, w: World) returns (done: bool)
      requires dirty.DirtyDoc?
      modifies this`credential
      ensures done == (old(credential).None? && w.canPublish)
      ensures credential == if done then Some(CredentialOf(dirty)) else old(credential)
    {
      if credential.Some? || !w.canPublish { return false; }
      credential := Some(Credential(dirty.activation, dirty.manifest, dirty.unit));
      return true;
    }

    /** clear_credential */
    method ClearCredential(expected: Option<StateDoc>, required: bool, w: World) returns (done: bool)
      requires expected.Some? ==> expected.value.DirtyDoc?
      modifies this`credential
      ensures done == Clears(old(Contents()), w, if expected.Some? then Some(CredentialOf(expected.value)) else None, required)
      ensures credential == if done then None else old(credential)
    {
      if credential.None? { return !required; }
      if !w.credentialSound { return false; }
      if expected.Some? && credential.value != CredentialOf(expected.value) { return false; }
      credential := None;
      return true;
    }

    /** start, dead after so many durable steps. */
    method StartUnit(w: World, steps: nat) returns (finished: bool)
      modifies this
      ensures Contents() == Perform(old(Contents()), Action(Start, w, steps))
      ensures finished == (steps >= 2 && |StartTrace(old(Contents()), w)| == 3)
    {
      finished := false;
      if !Activatable(w) || w.manifest.None? || state.None? { return; }
      if !ValidClean(Contents(), state.value, w.manifest.value) || !w.quiet { return; }
      if steps == 0 { return; }
      var dirty := DirtyDoc(w.token, w.manifest.value, state.value.activation, OfState(state.value), w.unit.value);
      state := Some(dirty);
      if steps == 1 { return; }
      finished := PublishCredential(dirty, w);
    }

    /** write_receipt, the second clear_credential and the final atomic_state, dead after so many durable steps. */
    method Seal(dirty: StateDoc, kind: Kind, w: World, steps: nat) returns (finished: bool)
      requires w.manifest.Some? && dirty.DirtyDoc?
      modifies this
      ensures var t := [old(Contents())] + SealTrace(old(Contents()), dirty, kind, w);
              Contents() == (if steps < |t| then t[steps] else t[|t| - 1]) && finished == (|t| == 5 && steps >= 4)
    {
      finished := false;
      if w.name in receipts || steps == 0 { return; }
      receipts := receipts[w.name := None];
      if steps == 1 { return; }
      var proof := Receipt(dirty.activation, kind, w.manifest.value, OfState(dirty), w.time, dirty.unit);
      receipts := receipts[w.name := Some(proof)];
      if steps == 2 { return; }
      var cleared := ClearCredential(Some(dirty), kind == CleanKind, w);
      if !cleared || steps == 3 { return; }
      state := Some(CleanDoc(dirty.activation, dirty.unit, OfState(dirty), w.manifest.value, w.name, OfReceipt(proof)));
      return true;
    }

    /** The state of a reset goes dirty, and any sound credential goes. */
    method TurnDirty(w: World, steps: nat) returns (dirty: Option<StateDoc>)
      requires MayReset(w)
      modifies this
      ensures var d, r := old(Contents()), old(Contents()).(state := Some(ResetDirty(old(Contents()), w)));
              && Contents() == (if steps == 0 then d else if steps == 1 || !Clears(r, w, None, false) then r else Cleared(r))
              && dirty == if steps > 2 && Clears(r, w, None, false) then Some(ResetDirty(d, w)) else None
    {
      if steps == 0 { return None; }
      var next := DirtyDoc(w.token, w.manifest.value, if state.Some? then state.value.activation else 0,
                           if state.Some? then OfState(state.value) else ZERO, ResetUnit);
      state := Some(next);
      if steps == 1 { return None; }
      var cleared := ClearCredential(None, false, w);
      return if cleared && steps > 2 then Some(next) else None;
    }

    /** clean, for a stop or a reset, dead after so many durable steps. */
    method Clean(kind: Kind, w: World, steps: nat) returns (finished: bool)
      modifies this
      ensures var t := CleanTrace(old(Contents()), kind, w);
              && Contents() == Perform(old(Contents()), Action(if kind == CleanKind then Stop else Reset, w, steps))
              && finished == (steps >= |t| - 1 && |t| == if kind == CleanKind then 5 else 7)
    {
      finished := false;
      if w.manifest.None? || !w.quiet { return; }
      if kind == CleanKind {
        if !Activatable(w) || state.None? || !state.value.DirtyDoc? { return; }
        if state.value.unit != w.unit.value || state.value.manifest != w.manifest.value { return; }
        finished := Seal(state.value, kind, w, steps);
      } else {
        if w.unit.Some? { return; }
        var dirty := TurnDirty(w, steps);
        if dirty.Some? { finished := Seal(dirty.value, kind, w, steps - 2); }
      }
    }
  }
}
