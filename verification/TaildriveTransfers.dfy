/**
 Taildrive transfers and Taildrop staging (native/go_bridge/taildrive.go, native/go_bridge/backend.go):
 the one shared transfer slot, and files that are written beside their destination and then renamed.
 A World holds the slot, every transfer and the directory; an Event is one section under the slot's
 lock or one file system call, and Run takes any interleaving, crashes included.
 */
module TaildriveTransfers {
  import opened Wrappers

  type RequestId = int
  type Path = string

  /** Previews and uploads use the slot; manual downloads and staged Taildrop files do not. */
  datatype Kind = Preview | Manual | Upload | Staging

  datatype State = Idle | Queued | Transferring | Completed | Failed

  datatype Snapshot = Snapshot(
    requestId: RequestId, kind: Kind, state: State, reason: string, bytes: nat, totalBytes: nat)

  const NoTransfer := Snapshot(0, Preview, Idle, "", 0, 0)

  datatype Pc =
    | Requesting
    | CheckingDestination
    | CheckingTemporary
    | Creating
    | Copying
    | Syncing
    | Closing
    | Renaming
    | Published
    | Failing(reason: string)
    | Aborting(reason: string)
    | Removing
    | Uploading
    | Done
    | LeftBehind
    | Dead

  /** `content` is what the transfer has written to the file it created, `sent` what an upload has
      read; `sealed` is set once the whole body has been written and its length accepted, `published`
      by the rename, `answered` when the server takes an upload. */
  datatype Transfer = Transfer(
    kind: Kind, destination: Path, declared: Option<nat>, pc: Pc, content: seq<byte>, sent: nat, sealed: bool,
    published: bool, answered: bool)

  /** What a name in the directory refers to: the file a transfer created, or another file. */
  datatype Node = Foreign | Own(r: RequestId)

  datatype World = World(
    task: Snapshot, stop: Option<RequestId>, transfers: map<RequestId, Transfer>, names: map<Path, Node>)

  const Initial := World(NoTransfer, None, map[], map[])

  datatype Event =
    | Begin(r: RequestId, kind: Kind, destination: Path, size: nat)
    | Respond(r: RequestId, fault: Option<string>, length: Option<nat>)
    | Step(r: RequestId, fault: Option<string>)
    | Chunk(r: RequestId, data: seq<byte>)
    | CopyEnds(r: RequestId, fault: Option<string>)
    | Send(r: RequestId, count: nat)
    | UploadAnswered(r: RequestId, fault: Option<string>)
    | Cancel(why: string)
    | Crash
    | OtherFile(path: Path, exists_: bool)

  predicate Active(task: Snapshot) {
    task.state == Queued || task.state == Transferring
  }

  predicate Tracked(kind: Kind) {
    kind == Preview || kind == Upload
  }

  predicate Owns(w: World, r: RequestId) {
    w.task.requestId == r && Active(w.task)
  }

  function Temporary(t: Transfer): Path {
    if t.kind == Staging then t.destination + ".tmp" else t.destination + ".part"
  }

  function Length(declared: Option<nat>): nat {
    if declared.None? then 0 else declared.value
  }

  // ------------------------------------------------------------------ the slot

  function QueuedSnapshot(r: RequestId, kind: Kind, total: nat): Snapshot {
    Snapshot(r, kind, Queued, "", 0, total)
  }

  /** updateTaildriveTransfer of a tracked transfer, given what the update makes of the record. */
  function Update(w: World, r: RequestId, updated: Snapshot): World
    requires r in w.transfers
  {
    if Tracked(w.transfers[r].kind) && Owns(w, r) then w.(task := updated) else w
  }

  function Finish(w: World, r: RequestId, state: State, reason: string): World
    requires r in w.transfers
  {
    if Tracked(w.transfers[r].kind) && Owns(w, r)
    then w.(task := w.task.(state := state, reason := reason), stop := None)
    else w
  }

  function CancelSection(w: World, why: string): World {
    w.(task := if Active(w.task) then w.task.(state := Failed, reason := why) else w.task, stop := None)
  }

  // ------------------------------------------------------------------ steps

  predicate At(w: World, r: RequestId, pc: Pc) {
    r in w.transfers && w.transfers[r].pc == pc
  }

  function Goto(w: World, r: RequestId, pc: Pc): World
    requires r in w.transfers
  {
    w.(transfers := w.transfers[r := w.transfers[r].(pc := pc)])
  }

  /** A tracked transfer is turned away when the slot is busy. */
  function BeginStep(w: World, r: RequestId, kind: Kind, destination: Path, size: nat): World {
    if r in w.transfers || r <= 0 then w
    else if Tracked(kind) && Active(w.task) then w
    else
      var started := w.(transfers := w.transfers[r := Started(kind, destination, size)]);
      if !Tracked(kind) then started
      else started.(task := QueuedSnapshot(r, kind, if kind == Upload then size else 0), stop := Some(r))
  }

  function Started(kind: Kind, destination: Path, size: nat): Transfer {
    var pc := match kind case Preview => Requesting case Manual => Requesting case Upload => Uploading
              case Staging => CheckingDestination;
    var declared := if kind == Upload || kind == Staging then Some(size) else None;
    Transfer(kind, destination, declared, pc, [], 0, false, false, false)
  }

  function RespondStep(w: World, r: RequestId, fault: Option<string>, length: Option<nat>): World {
    if !At(w, r, Requesting) then w
    else if fault.Some? then Goto(w, r, Failing(fault.value))
    else
      var next := Update(w, r, w.task.(state := Transferring, totalBytes := Length(length)));
      next.(transfers := w.transfers[r := w.transfers[r].(declared := length, pc := CheckingDestination)])
  }

  /** A download starts only where neither its destination nor its temporary file exists. */
  function CheckStep(w: World, r: RequestId, fault: Option<string>, path: Path, next: Pc): World
    requires r in w.transfers
  {
    if fault.Some? then Goto(w, r, Failing(fault.value))
    else if path in w.names then Goto(w, r, Failing("file_exists"))
    else Goto(w, r, next)
  }

  /** The temporary file is created exclusively. */
  function CreateStep(w: World, r: RequestId, fault: Option<string>): World
    requires r in w.transfers
  {
    if fault.Some? then Goto(w, r, Failing(fault.value))
    else if Temporary(w.transfers[r]) in w.names then Goto(w, r, Failing("exists"))
    else Goto(w.(names := w.names[Temporary(w.transfers[r]) := Own(r)]), r, Copying)
  }

  function RenameStep(w: World, r: RequestId, fault: Option<string>): World
    requires r in w.transfers
  {
    var t := w.transfers[r];
    if fault.Some? then Goto(w, r, Aborting(fault.value))
    else if Temporary(t) !in w.names then Goto(w, r, Aborting("missing"))
    else
      w.(names := Renamed(w.names, Temporary(t), t.destination),
         transfers := w.transfers[r := t.(pc := Published, published := true)])
  }

  /** The deferred clean-up; a failing removal is ignored and leaves the temporary file behind. */
  function RemoveStep(w: World, r: RequestId, fault: Option<string>): World
    requires r in w.transfers
  {
    if fault.Some? then Goto(w, r, LeftBehind)
    else Goto(w.(names := w.names - {Temporary(w.transfers[r])}), r, Done)
  }

  /** The next file system call of a download, or the next section of its return. */
  function StepStep(w: World, r: RequestId, fault: Option<string>): World {
    if r !in w.transfers then w
    else
      var t := w.transfers[r];
      match t.pc
      case CheckingDestination =>
        CheckStep(w, r, fault, t.destination, if t.kind == Staging then Creating else CheckingTemporary)
      case CheckingTemporary => CheckStep(w, r, fault, Temporary(t), Creating)
      case Creating => CreateStep(w, r, fault)
      case Syncing => Goto(w, r, if fault.Some? then Aborting(fault.value) else Closing)
      case Closing => Goto(w, r, if fault.Some? then Aborting(fault.value) else Renaming)
      case Renaming => RenameStep(w, r, fault)
      case Published => Goto(Finish(w, r, Completed, ""), r, Done)
      case Failing(reason) => Goto(Finish(w, r, Failed, reason), r, Done)
      case Aborting(reason) => Goto(Finish(w, r, Failed, reason), r, Removing)
      case Removing => RemoveStep(w, r, fault)
      case _ => w
  }

  function Renamed(names: map<Path, Node>, from: Path, to: Path): map<Path, Node>
    requires from in names
  {
    (names - {from})[to := names[from]]
  }

  function ChunkStep(w: World, r: RequestId, data: seq<byte>): World {
    if !At(w, r, Copying) then w
    else
      var t := w.transfers[r];
      Update(w, r, w.task.(bytes := w.task.bytes + |data|)).(
        transfers := w.transfers[r := t.(content := t.content + data)])
  }

  /** The body has ended: a declared length must have been met. */
  function CopyEndsStep(w: World, r: RequestId, fault: Option<string>): World {
    if !At(w, r, Copying) then w
    else if fault.Some? then Goto(w, r, Aborting(fault.value))
    else if w.transfers[r].declared.Some? && |w.transfers[r].content| != w.transfers[r].declared.value
    then Goto(w, r, Aborting("network_interrupted"))
    else w.(transfers := w.transfers[r := w.transfers[r].(sealed := true, pc := Syncing)])
  }

  function SendStep(w: World, r: RequestId, count: nat): World {
    if !At(w, r, Uploading) then w
    else
      var t := w.transfers[r];
      Update(w, r, w.task.(state := Transferring, bytes := w.task.bytes + count)).(
        transfers := w.transfers[r := t.(sent := t.sent + count)])
  }

  function UploadAnsweredStep(w: World, r: RequestId, fault: Option<string>): World {
    if !At(w, r, Uploading) then w
    else if fault.Some? then Goto(Finish(w, r, Failed, fault.value), r, Done)
    else Goto(Finish(w, r, Completed, "").(transfers := w.transfers[r := w.transfers[r].(answered := true)]), r, Done)
  }

  predicate Ended(pc: Pc) {
    pc == Done || pc == LeftBehind || pc == Dead
  }

  /** The process dies: the slot is gone, every transfer stops where it is, the directory stays. */
  function CrashStep(w: World): World {
    w.(task := NoTransfer, stop := None,
       transfers := map r | r in w.transfers ::
         w.transfers[r].(pc := if Ended(w.transfers[r].pc) then w.transfers[r].pc else Dead))
  }

  /** The transfer has created its temporary file and not yet renamed or removed it. */
  predicate Holding(pc: Pc) {
    pc == Copying || pc == Syncing || pc == Closing || pc == Renaming || pc.Aborting? || pc == Removing
  }

  predicate Held(w: World, path: Path) {
    exists r :: r in w.transfers && Holding(w.transfers[r].pc) && path == Temporary(w.transfers[r])
  }

  /** Others may create or remove any file that is not the temporary file of a transfer at work. */
  function OtherFileStep(w: World, path: Path, present: bool): World {
    if Held(w, path) then w
    else w.(names := if present then w.names[path := Foreign] else w.names - {path})
  }

  function Apply(w: World, e: Event): World {
    match e
    case Begin(r, kind, destination, size) => BeginStep(w, r, kind, destination, size)
    case Respond(r, fault, length) => RespondStep(w, r, fault, length)
    case Step(r, fault) => StepStep(w, r, fault)
    case Chunk(r, data) => ChunkStep(w, r, data)
    case CopyEnds(r, fault) => CopyEndsStep(w, r, fault)
    case Send(r, count) => SendStep(w, r, count)
    case UploadAnswered(r, fault) => UploadAnsweredStep(w, r, fault)
    case Cancel(why) => CancelSection(w, why)
    case Crash => CrashStep(w)
    case OtherFile(path, present) => OtherFileStep(w, path, present)
  }

  function Run(w: World, events: seq<Event>): World {
    if events == [] then w else Apply(Run(w, events[..|events| - 1]), events[|events| - 1])
  }

  // ------------------------------------------------------------------ invariant: the slot

  predicate Early(pc: Pc) {
    pc == Requesting || pc == CheckingDestination || pc == CheckingTemporary || pc == Creating
  }

  predicate Late(pc: Pc) {
    pc == Syncing || pc == Closing || pc == Renaming || pc == Published
  }

  /** A sealed file has the declared length; only a sealed file is synced, closed and renamed. */
  predicate TransferOk(t: Transfer) {
    && (t.sealed && t.declared.Some? ==> |t.content| == t.declared.value)
    && (Early(t.pc) ==> t.content == [] && !t.sealed)
    && (t.pc == Copying ==> !t.sealed)
    && (Late(t.pc) ==> t.sealed)
    && (t.kind == Upload ==> t.pc.Uploading? || Ended(t.pc))
    && (t.pc.Uploading? ==> t.kind == Upload)
    && (t.pc == Requesting ==> t.kind != Staging)
    && (t.published ==> t.sealed && (t.pc == Published || Ended(t.pc)))
    && (t.pc == Published ==> t.published)
    && (t.published ==> t.kind != Upload)
    && (t.answered ==> t.kind == Upload && Ended(t.pc))
  }

  /** The record of an open transfer says what the transfer has done so far. */
  predicate Accounts(task: Snapshot, t: Transfer) {
    && Tracked(t.kind) && task.kind == t.kind
    && !Ended(t.pc) && !t.pc.Removing?
    && task.bytes == (if t.kind == Upload then t.sent else |t.content|)
    && (if t.pc == Requesting then task.state == Queued && task.totalBytes == 0
        else t.pc.Failing? || task.totalBytes == Length(t.declared))
  }

  /** A record that says "completed" tells the length of a file that was published whole. */
  predicate CompleteRecord(task: Snapshot, t: Transfer) {
    && t.pc.Done? && task.kind == t.kind
    && task.totalBytes == Length(t.declared)
    && (t.kind == Upload ==> t.answered && task.bytes == t.sent)
    && (t.kind == Preview ==>
          t.published && task.bytes == |t.content| && (t.declared.Some? ==> task.bytes == task.totalBytes))
  }

  predicate SlotOk(w: World) {
    && 0 !in w.transfers
    && w.stop == (if Active(w.task) then Some(w.task.requestId) else None)
    && (w.task.state != Idle ==> w.task.requestId in w.transfers)
    && (Active(w.task) ==> Accounts(w.task, w.transfers[w.task.requestId]))
    && (w.task.state == Completed ==> CompleteRecord(w.task, w.transfers[w.task.requestId]))
  }

  ghost predicate Inv(w: World) {
    && (forall r :: r in w.transfers ==> TransferOk(w.transfers[r]))
    && SlotOk(w)
    && FilesOk(w)
  }

  // ------------------------------------------------------------------ invariant: the files

  predicate Writes(t: Transfer) {
    t.kind != Upload
  }

  /** A whole file that its transfer has let go of.  A rename by another transfer can only have moved it
      on to a shorter path. */
  predicate Released(path: Path, t: Transfer) {
    Writes(t) && t.sealed && !Holding(t.pc) && |path| <= |t.destination|
  }

  /** The temporary file of a transfer at work, cut short by a crash or unable to remove it. */
  predicate Unfinished(path: Path, t: Transfer) {
    Writes(t) && path == Temporary(t) && (Holding(t.pc) || t.pc == LeftBehind || t.pc == Dead)
  }

  /** A name that leads to a transfer's file is its temporary name while that transfer is unfinished, or
      leads to a whole file. */
  predicate NameOk(w: World, path: Path, r: RequestId) {
    r in w.transfers && (Unfinished(path, w.transfers[r]) || Released(path, w.transfers[r]))
  }

  /** The temporary name of a transfer at work leads to its own file or to a whole one. */
  predicate TemporaryOk(w: World, r: RequestId)
    requires r in w.transfers
  {
    var temporary := Temporary(w.transfers[r]);
    && temporary in w.names && w.names[temporary].Own?
    && var author := w.names[temporary].r;
       author == r || (author in w.transfers && Released(temporary, w.transfers[author]))
  }

  /** Two transfers at work have different temporary names. */
  ghost predicate TemporariesDiffer(w: World) {
    forall r, s :: r in w.transfers && s in w.transfers && r != s
      ==> !(Holding(w.transfers[r].pc) && Holding(w.transfers[s].pc)
            && Temporary(w.transfers[r]) == Temporary(w.transfers[s]))
  }

  ghost predicate FilesOk(w: World) {
    && (forall r :: r in w.transfers && Holding(w.transfers[r].pc) ==> Writes(w.transfers[r]) && TemporaryOk(w, r))
    && TemporariesDiffer(w)
    && (forall path :: path in w.names && w.names[path].Own? ==> NameOk(w, path, w.names[path].r))
  }
}
