/**
 Taildrop sending: one shared transfer record, updated by the sender that owns it while
 cancels, rejected requests and busy callers come at any moment.  As in Lifecycle, a World
 holds the record and every sender in flight, an Event is one critical section or one
 outcome of an outside call, and Run takes any interleaving.
 */
module Taildrop {
  import opened Wrappers

  type RequestId = int

  const MAX_ATTEMPTS: nat := 3
  const MAX_FILES: nat := 100
  const MAX_INT64: nat := 0x7fff_ffff_ffff_ffff

  datatype File = File(name: string, size: nat)

  datatype State = Idle | Queued | Sending | Completed | Failed

  datatype Transfer = Transfer(
    requestId: RequestId,
    state: State,
    reason: string,
    targetName: string,
    fileName: string,
    fileIndex: nat,
    fileCount: nat,
    fileBytes: nat,
    fileSize: nat,
    bytesSent: nat,
    totalBytes: nat)

  const NoTransfer := Transfer(0, Idle, "", "", "", 0, 0, 0, 0, 0, 0)

  /** A push error is retried or final; a cancelled context is final. */
  datatype PushError = Transient(reason: string) | Final(reason: string)

  /** One push of a file that has returned. */
  datatype Push = Push(file: nat, attempt: nat, error: Option<PushError>)

  datatype Pc =
    | LookingUp
    | NextFile(file: nat)
    | Opening(file: nat, attempt: nat)
    | Pushing(file: nat, attempt: nat, read: nat)
    | Pushed(file: nat)
    | Failing(reason: string)
    | Done

  /** A sender's locals.  `overread` notes whether some push read past the size its file had when opened. */
  datatype Sender = Sender(
    files: seq<File>, target: string, pc: Pc, completedBytes: nat, log: seq<Push>, overread: bool)

  datatype World = World(
    task: Transfer,
    stop: Option<RequestId>,             // whose context the stored cancel function cancels
    senders: map<RequestId, Sender>,
    pendingCancels: set<RequestId>,      // taken out of the slot, cancel() not yet called
    cancelled: set<RequestId>,
    used: set<RequestId>)

  const Initial := World(NoTransfer, None, map[], {}, {}, {})

  datatype OpenOutcome = Opened | CannotOpen | Changed | WaitCancelled

  datatype Event =
    | Begin(r: RequestId, files: seq<File>)
    | Reject(r: RequestId, why: string, count: nat, bytes: nat)
    | LookupReturns(r: RequestId, name: Option<string>)
    | CheckContext(r: RequestId)
    | Open(r: RequestId, outcome: OpenOutcome)
    | Read(r: RequestId, count: nat)
    | PushReturns(r: RequestId, error: Option<PushError>)
    | CountFile(r: RequestId)
    | GiveUp(r: RequestId)
    | Cancel(why: string)
    | CancelFires(r: RequestId)

  function Sum(files: seq<File>): nat {
    if files == [] then 0 else Sum(files[..|files| - 1]) + files[|files| - 1].size
  }

  predicate Active(task: Transfer) {
    task.state == Queued || task.state == Sending
  }

  /** The request's record is in the slot and still open. */
  predicate Owns(w: World, r: RequestId) {
    w.task.requestId == r && Active(w.task)
  }

  // ------------------------------------------------------------ slot sections

  function QueuedRecord(r: RequestId, files: seq<File>): Transfer {
    Transfer(r, Queued, "", "", "", 0, |files|, 0, 0, 0, Sum(files))
  }

  function RejectedRecord(r: RequestId, why: string, count: nat, bytes: nat): Transfer {
    Transfer(r, Failed, why, "", "", 0, count, 0, 0, 0, bytes)
  }

  /** updateTaildropTransfer, given what the update would make of the record. */
  function Update(w: World, r: RequestId, updated: Transfer): World {
    if Owns(w, r) then w.(task := updated) else w
  }

  function Finish(w: World, r: RequestId, state: State, reason: string): World {
    if Owns(w, r) then w.(task := w.task.(state := state, reason := reason), stop := None) else w
  }

  function CancelSection(w: World, why: string): World {
    w.(task := if Active(w.task) then w.task.(state := Failed, reason := why) else w.task,
       pendingCancels := w.pendingCancels + (if w.stop.Some? then {w.stop.value} else {}),
       stop := None)
  }

  // ------------------------------------------------------------------- steps

  predicate SenderAt(w: World, r: RequestId) {
    r in w.senders
  }

  function Goto(w: World, r: RequestId, pc: Pc): World
    requires SenderAt(w, r)
  {
    w.(senders := w.senders[r := w.senders[r].(pc := pc)])
  }

  /** taildropSend returns: its deferred cancel runs. */
  function Return(w: World, r: RequestId): World
    requires SenderAt(w, r)
  {
    Goto(w, r, Done).(cancelled := w.cancelled + {r})
  }

  /** A request has at least one file, or it is refused before it comes here. */
  function BeginStep(w: World, r: RequestId, files: seq<File>): World {
    if r in w.used || files == [] then w
    else if Active(w.task) then w.(used := w.used + {r})
    else w.(task := QueuedRecord(r, files), stop := Some(r), used := w.used + {r},
            senders := w.senders[r := Sender(files, "", LookingUp, 0, [], false)])
  }

  function RejectStep(w: World, r: RequestId, why: string, count: nat, bytes: nat): World {
    if r in w.used then w
    else w.(task := RejectedRecord(r, why, count, bytes), used := w.used + {r})
  }

  function LookupReturnsStep(w: World, r: RequestId, name: Option<string>): World {
    if !SenderAt(w, r) || !w.senders[r].pc.LookingUp? then w
    else if name.None? then Goto(w, r, Failing("lookup"))
    else
      Update(w, r, w.task.(targetName := name.value)).(
        senders := w.senders[r := w.senders[r].(target := name.value, pc := NextFile(0))])
  }

  /** Past the last file the transfer completes; before any file a cancelled context ends it. */
  function CheckContextStep(w: World, r: RequestId): World {
    if !SenderAt(w, r) || !w.senders[r].pc.NextFile? then w
    else
      var s := w.senders[r];
      if s.pc.file >= |s.files| then Return(Finish(w, r, Completed, ""), r)
      else if r in w.cancelled then Goto(w, r, Failing("cancelled"))
      else Goto(w, r, Opening(s.pc.file, 1))
  }

  /** Wait before a retry, open, compare the size, reset the record for this attempt. */
  function OpenStep(w: World, r: RequestId, outcome: OpenOutcome): World {
    if !SenderAt(w, r) || !w.senders[r].pc.Opening? || w.senders[r].pc.file >= |w.senders[r].files| then w
    else
      var s := w.senders[r];
      var i := s.pc.file;
      match outcome
      case WaitCancelled => if s.pc.attempt > 1 && r in w.cancelled then Goto(w, r, Failing("cancelled")) else w
      case CannotOpen => Goto(w, r, Failing("file_unavailable"))
      case Changed => Goto(w, r, Failing("file_changed"))
      case Opened =>
        Goto(Update(w, r, w.task.(state := Sending, fileName := s.files[i].name, fileIndex := i + 1, fileBytes := 0,
                                  fileSize := s.files[i].size, bytesSent := s.completedBytes)),
             r, Pushing(i, s.pc.attempt, 0))
  }

  /** The progress callback. */
  function ReadStep(w: World, r: RequestId, count: nat): World {
    if !SenderAt(w, r) || !w.senders[r].pc.Pushing? || count == 0 || w.senders[r].pc.file >= |w.senders[r].files| then w
    else
      var s := w.senders[r];
      var bytes := w.task.fileBytes + count;
      var next := Update(w, r, w.task.(fileBytes := bytes, bytesSent := s.completedBytes + bytes));
      var read := s.pc.read + count;
      next.(senders := w.senders[r := s.(pc := s.pc.(read := read),
                                         overread := s.overread || read > s.files[s.pc.file].size)])
  }

  /** Count the file, try it again, or give up. */
  function AfterPush(s: Sender, i: nat, attempt: nat, error: Option<PushError>): Sender
    requires i < |s.files|
  {
    var logged := s.(log := s.log + [Push(i, attempt, error)]);
    if error.None? then logged.(pc := Pushed(i), completedBytes := s.completedBytes + s.files[i].size)
    else if error.value.Transient? && attempt < MAX_ATTEMPTS then logged.(pc := Opening(i, attempt + 1))
    else logged.(pc := Failing(error.value.reason))
  }

  function PushReturnsStep(w: World, r: RequestId, error: Option<PushError>): World {
    if !SenderAt(w, r) || !w.senders[r].pc.Pushing? || w.senders[r].pc.file >= |w.senders[r].files| then w
    else
      var s := w.senders[r];
      w.(senders := w.senders[r := AfterPush(s, s.pc.file, s.pc.attempt, error)])
  }

  function CountFileStep(w: World, r: RequestId): World {
    if !SenderAt(w, r) || !w.senders[r].pc.Pushed? || w.senders[r].pc.file >= |w.senders[r].files| then w
    else
      var s := w.senders[r];
      Goto(Update(w, r, w.task.(fileBytes := s.files[s.pc.file].size, bytesSent := s.completedBytes)),
           r, NextFile(s.pc.file + 1))
  }

  function GiveUpStep(w: World, r: RequestId): World {
    if !SenderAt(w, r) || !w.senders[r].pc.Failing? then w
    else Return(Finish(w, r, Failed, w.senders[r].pc.reason), r)
  }

  function Apply(w: World, e: Event): World {
    match e
    case Begin(r, files) => BeginStep(w, r, files)
    case Reject(r, why, count, bytes) => RejectStep(w, r, why, count, bytes)
    case LookupReturns(r, name) => LookupReturnsStep(w, r, name)
    case CheckContext(r) => CheckContextStep(w, r)
    case Open(r, outcome) => OpenStep(w, r, outcome)
    case Read(r, count) => ReadStep(w, r, count)
    case PushReturns(r, error) => PushReturnsStep(w, r, error)
    case CountFile(r) => CountFileStep(w, r)
    case GiveUp(r) => GiveUpStep(w, r)
    case Cancel(why) => CancelSection(w, why)
    case CancelFires(r) =>
      if r in w.pendingCancels
      then w.(cancelled := w.cancelled + {r}, pendingCancels := w.pendingCancels - {r}) else w
  }

  function Run(w: World, events: seq<Event>): World {
    if events == [] then w else Apply(Run(w, events[..|events| - 1]), events[|events| - 1])
  }

  // --------------------------------------------------------------- invariant

  /** The record a sender's locals call for, while the slot is its own. */
  predicate Accounts(task: Transfer, s: Sender) {
    && task.fileCount == |s.files| && task.totalBytes == Sum(s.files) && task.targetName == s.target
    && match s.pc
       case LookingUp => AtBoundary(task, s, 0)
       case NextFile(i) => AtBoundary(task, s, i)
       case Opening(i, attempt) =>
         if attempt == 1 then AtBoundary(task, s, i)
         else
           && InFile(task, s, i) && task.bytesSent == s.completedBytes + task.fileBytes
           && (!s.overread ==> task.fileBytes <= s.files[i].size)
       case Pushing(i, _, read) =>
         InFile(task, s, i) && task.fileBytes == read && task.bytesSent == s.completedBytes + read
       case Pushed(i) =>
         && InFile(task, s, i) && task.bytesSent == s.completedBytes - s.files[i].size + task.fileBytes
         && (!s.overread ==> task.fileBytes <= s.files[i].size)
       case Failing(_) => !s.overread ==> task.bytesSent <= task.totalBytes
       case Done => false
  }

  /** Between files: exactly the first i files are accounted for. */
  predicate AtBoundary(task: Transfer, s: Sender, i: nat) {
    && i <= |s.files| && task.fileIndex == i && task.bytesSent == s.completedBytes
    && task.fileBytes == task.fileSize == (if i == 0 then 0 else s.files[i - 1].size)
    && task.fileName == (if i == 0 then "" else s.files[i - 1].name)
  }

  predicate InFile(task: Transfer, s: Sender, i: nat) {
    i < |s.files| && task.state == Sending && task.fileIndex == i + 1
    && task.fileSize == s.files[i].size && task.fileName == s.files[i].name
  }

  /** The files whose push has succeeded, counted by the sender's program point. */
  function Position(s: Sender): nat {
    match s.pc
    case LookingUp => 0
    case NextFile(i) => i
    case Opening(i, _) => i
    case Pushing(i, _, _) => i
    case Pushed(i) => i + 1
    case Failing(_) => Successes(s.log)
    case Done => Successes(s.log)
  }

  function Successes(log: seq<Push>): nat {
    if log == [] then 0
    else Successes(log[..|log| - 1]) + if log[|log| - 1].error.None? then 1 else 0
  }

  /** Every push is of the first of n files not yet sent: a first attempt after a success, or the
      next attempt, at most the third, after a transient error. */
  predicate LogOk(log: seq<Push>, n: nat) {
    log == [] ||
    var before, last := log[..|log| - 1], log[|log| - 1];
    && LogOk(before, n)
    && last.file == Successes(before) < n
    && Retryable(before) && last.attempt == NextAttempt(before) <= MAX_ATTEMPTS
  }

  /** The attempt the log allows next for the file at hand. */
  function NextAttempt(log: seq<Push>): nat {
    if log == [] || log[|log| - 1].error.None? then 1 else log[|log| - 1].attempt + 1
  }

  predicate Retryable(log: seq<Push>) {
    log == [] || log[|log| - 1].error.None? || log[|log| - 1].error.value.Transient?
  }

  /** The last push failed for good. */
  predicate Spent(log: seq<Push>) {
    && log != [] && log[|log| - 1].error.Some?
    && (log[|log| - 1].error.value.Final? || log[|log| - 1].attempt == MAX_ATTEMPTS)
  }

  /** A send fails with the reason of the push that ended it, or of what kept it from a push. */
  predicate Explains(log: seq<Push>, reason: string) {
    if Spent(log) then reason == log[|log| - 1].error.value.reason
    else reason in ["cancelled", "file_unavailable", "file_changed"] || (log == [] && reason == "lookup")
  }

  predicate SenderOk(s: Sender) {
    && s.files != []
    && LogOk(s.log, |s.files|)
    && Position(s) == Successes(s.log) <= |s.files|
    && s.completedBytes == Sum(s.files[..Successes(s.log)])
    && match s.pc
       case LookingUp => s.log == []
       case NextFile(_) => Retryable(s.log) && NextAttempt(s.log) == 1
       case Opening(i, attempt) => i < |s.files| && Retryable(s.log) && attempt == NextAttempt(s.log) <= MAX_ATTEMPTS
       case Pushing(i, attempt, read) =>
         && i < |s.files| && Retryable(s.log) && attempt == NextAttempt(s.log) <= MAX_ATTEMPTS
         && (!s.overread ==> read <= s.files[i].size)
       case Pushed(i) => i < |s.files| && Retryable(s.log) && NextAttempt(s.log) == 1
       case Failing(reason) => Successes(s.log) < |s.files| && Explains(s.log, reason)
       case Done => true
  }

  /** A record that says "completed" accounts for every byte of every file of its request. */
  predicate CompleteRecord(task: Transfer, s: Sender) {
    && task.bytesSent == task.totalBytes == Sum(s.files)
    && task.fileIndex == task.fileCount == |s.files|
    && task.fileBytes == task.fileSize && task.targetName == s.target
    && (s.files != [] ==> task.fileName == s.files[|s.files| - 1].name)
    && Successes(s.log) == |s.files|
  }

  ghost predicate Inv(w: World) {
    && (forall r :: r in w.senders ==> r in w.used && SenderOk(w.senders[r]))
    && (Active(w.task) ==> w.task.requestId in w.senders && Accounts(w.task, w.senders[w.task.requestId]))
    && (w.task.state == Completed ==>
          w.task.requestId in w.senders && w.senders[w.task.requestId].pc.Done?
          && CompleteRecord(w.task, w.senders[w.task.requestId]))
    && (Active(w.task) ==> w.stop == Some(w.task.requestId))
    && (w.stop.Some? ==> w.stop.value in w.senders)
  }
}
