/**
  The Codex containment latch: what is on disk, and the disks that a start, a stop or a reset
  passes through.  A crash leaves the disk at any one of them.
 */
module ContainmentModel {
  import opened Common

  datatype Unit = Generate | Canary | ResetUnit
  datatype Kind = CleanKind | ResetKind

  /** SHA-256 of a canonical document, taken to be injective; ZERO stands for the all-zero text. */
  datatype Digest = ZERO | OfState(state: StateDoc) | OfReceipt(receipt: Receipt)

  datatype StateDoc =
    | CleanDoc(activation: nat, unit: Unit, previous: Digest, manifest: nat, receipt: nat, receiptDigest: Digest)
    | DirtyDoc(activation: nat, manifest: nat, previousActivation: nat, previous: Digest, unit: Unit)
    | OtherDoc(activation: nat, content: nat)

  datatype Receipt = Receipt(activation: nat, kind: Kind, manifest: nat, state: Digest, time: nat, unit: Unit)

  datatype Credential = Credential(activation: nat, manifest: nat, unit: Unit)

  /** The state file (None when missing or unreadable), the receipts by name (None while unwritten), the credential. */
  datatype Disk = Disk(state: Option<StateDoc>, receipts: map<nat, Option<Receipt>>, credential: Option<Credential>)

  /** What the operating system answers; every refusal is a stop before the next step. */
  datatype World = World(
    manifest: Option<nat>, unit: Option<Unit>, quiet: bool, token: nat, name: nat, time: nat,
    canPublish: bool, credentialSound: bool)

  predicate Activatable(w: World) { w.unit.Some? && w.unit.value != ResetUnit }

  function CredentialOf(d: StateDoc): Credential
    requires d.DirtyDoc?
  {
    Credential(d.activation, d.manifest, d.unit)
  }

  /** valid_clean */
  predicate ValidClean(d: Disk, s: StateDoc, manifest: nat) {
    && s.CleanDoc? && s.manifest == manifest
    && s.receipt in d.receipts && d.receipts[s.receipt].Some?
    && var proof := d.receipts[s.receipt].value;
    && s.receiptDigest == OfReceipt(proof)
    && proof.activation == s.activation && proof.unit == s.unit && proof.manifest == manifest && proof.state == s.previous
  }

  // ---------------------------------------------------------------- start

  predicate MayStart(d: Disk, w: World) {
    Activatable(w) && w.manifest.Some? && d.state.Some? && ValidClean(d, d.state.value, w.manifest.value) && w.quiet
  }

  function DirtyFor(d: Disk, w: World): StateDoc
    requires MayStart(d, w)
  {
    DirtyDoc(w.token, w.manifest.value, d.state.value.activation, OfState(d.state.value), w.unit.value)
  }

  /** start: the state goes dirty, then the credential appears. */
  function StartTrace(d: Disk, w: World): (t: seq<Disk>)
    ensures t != [] && t[0] == d
  {
    if !MayStart(d, w) then [d]
    else
      var dirty := d.(state := Some(DirtyFor(d, w)));
      if d.credential.Some? || !w.canPublish then [d, dirty]
      else [d, dirty, dirty.(credential := Some(CredentialOf(DirtyFor(d, w))))]
  }

  // ---------------------------------------------------------------- stop and reset

  predicate MayStop(d: Disk, w: World) {
    && w.manifest.Some? && Activatable(w) && d.state.Some? && d.state.value.DirtyDoc?
    && d.state.value.unit == w.unit.value && d.state.value.manifest == w.manifest.value && w.quiet
  }

  predicate MayReset(w: World) { w.manifest.Some? && w.unit.None? && w.quiet }

  function ResetDirty(d: Disk, w: World): StateDoc
    requires MayReset(w)
  {
    DirtyDoc(w.token, w.manifest.value, if d.state.Some? then d.state.value.activation else 0,
             if d.state.Some? then OfState(d.state.value) else ZERO, ResetUnit)
  }

  /** clear_credential: whether it returns rather than dies. */
  predicate Clears(d: Disk, w: World, expected: Option<Credential>, required: bool) {
    if d.credential.None? then !required
    else w.credentialSound && (expected.Some? ==> d.credential == expected)
  }

  function Cleared(d: Disk): Disk { d.(credential := None) }

  function ProofOf(dirty: StateDoc, kind: Kind, w: World): Receipt
    requires w.manifest.Some? && dirty.DirtyDoc?
  {
    Receipt(dirty.activation, kind, w.manifest.value, OfState(dirty), w.time, dirty.unit)
  }

  function CleanOf(dirty: StateDoc, kind: Kind, w: World): StateDoc
    requires w.manifest.Some? && dirty.DirtyDoc?
  {
    CleanDoc(dirty.activation, dirty.unit, OfState(dirty), w.manifest.value, w.name, OfReceipt(ProofOf(dirty, kind, w)))
  }

  /** The common tail of clean: the receipt is created and written, the credential goes, the state turns clean. */
  function SealTrace(d: Disk, dirty: StateDoc, kind: Kind, w: World): seq<Disk>
    requires w.manifest.Some? && dirty.DirtyDoc?
  {
    if w.name in d.receipts then []
    else
      var created := d.(receipts := d.receipts[w.name := None]);
      var written := d.(receipts := d.receipts[w.name := Some(ProofOf(dirty, kind, w))]);
      if !Clears(written, w, Some(CredentialOf(dirty)), kind == CleanKind) then [created, written]
      else [created, written, Cleared(written), Cleared(written).(state := Some(CleanOf(dirty, kind, w)))]
  }

  function CleanTrace(d: Disk, kind: Kind, w: World): (t: seq<Disk>)
    ensures t != [] && t[0] == d
  {
    match kind
    case CleanKind => if !MayStop(d, w) then [d] else [d] + SealTrace(d, d.state.value, kind, w)
    case ResetKind =>
      if !MayReset(w) then [d]
      else
        var dirty := d.(state := Some(ResetDirty(d, w)));
        if !Clears(dirty, w, None, false) then [d, dirty]
        else [d, dirty, Cleared(dirty)] + SealTrace(Cleared(dirty), ResetDirty(d, w), kind, w)
  }

  // ---------------------------------------------------------------- executions

  /** Reboot is the machine's own: the credential lives under /run, state and receipts do not. */
  datatype Command = Start | Stop | Reset | Reboot

  function Trace(d: Disk, c: Command, w: World): (t: seq<Disk>)
    ensures t != [] && t[0] == d
  {
    match c
    case Start => StartTrace(d, w)
    case Stop => CleanTrace(d, CleanKind, w)
    case Reset => CleanTrace(d, ResetKind, w)
    case Reboot => [d, Cleared(d)]
  }

  /** One command under the recovery lock, ending after `steps` durable steps at the latest. */
  datatype Action = Action(command: Command, world: World, steps: nat)

  function Perform(d: Disk, a: Action): Disk {
    var t := Trace(d, a.command, a.world);
    if a.steps < |t| then t[a.steps] else t[|t| - 1]
  }

  function Execute(d: Disk, actions: seq<Action>): Disk
    decreases |actions|
  {
    if actions == [] then d else Perform(Execute(d, actions[..|actions| - 1]), actions[|actions| - 1])
  }

  /** The action is a stop or a reset that got to its last step, the clean state. */
  predicate Completes(d: Disk, a: Action) {
    var t := Trace(d, a.command, a.world);
    a.command in {Stop, Reset} && a.steps >= |t| - 1 && t[|t| - 1].state.Some? && t[|t| - 1].state.value.CleanDoc? && |t| > 1
  }
}
