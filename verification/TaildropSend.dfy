/**
 Taildrop sending as the source writes it: the slot's sections as methods that assign the
 record in place, and taildropSend with its nested file and retry loops.  Wherever the slot's
 lock is free, cancels, rejections and other senders may take any number of steps.
 */
module TaildropSending {
  import opened Wrappers
  import opened Taildrop
  import opened TaildropProofs
  import opened TaildropVerdicts

  lemma RunOneMore(w: World, events: seq<Event>, e: Event)
    ensures Run(w, events + [e]) == Apply(Run(w, events), e)
  {
    assert (events + [e])[..|events + [e]| - 1] == events;
  }

  /** The total of a request's sizes, refused when it would not fit in 63 bits. */
  method ValidateSizes(files: seq<File>) returns (total: Option<nat>)
    ensures total == if Sum(files) < 0x8000_0000_0000_0000 then Some(Sum(files)) else None
  {
    var totalBytes: nat := 0;
    var i := 0;
    while i < |files|
      invariant 0 <= i <= |files| && totalBytes == Sum(files[..i]) <= MAX_INT64
    {
      SumOneMore(files, i);
      if files[i].size > MAX_INT64 - totalBytes {
        SumMonotone(files, i + 1, |files|);
        assert files[..|files|] == files;
        return None;
      }
      totalBytes := totalBytes + files[i].size;
      i := i + 1;
    }
    assert files[..|files|] == files;
    return Some(totalBytes);
  }

  predicate Missed(log: seq<Push>, k: nat)
    requires k < |log|
  {
    log[k].error.Some? && log[k].error.value.Transient?
  }

  /** A log has grown by at most three pushes of one file, numbered from one, all but the last of which
      failed transiently. */
  predicate Attempts(before: seq<Push>, log: seq<Push>, index: nat) {
    && before <= log && |log| <= |before| + MAX_ATTEMPTS
    && (forall k :: |before| <= k < |log| ==> log[k].file == index && log[k].attempt == k - |before| + 1)
    && forall k :: |before| <= k < |log| - 1 ==> Missed(log, k)
  }

  predicate Succeeded(before: seq<Push>, log: seq<Push>) {
    |log| > |before| && log[|log| - 1].error.None?
  }

  lemma OneMoreAttempt(before: seq<Push>, log: seq<Push>, index: nat, error: Option<PushError>)
    requires Attempts(before, log, index) && |log| < |before| + MAX_ATTEMPTS
    requires |log| > |before| ==> Missed(log, |log| - 1)
    ensures var longer := log + [Push(index, |log| - |before| + 1, error)];
            && Attempts(before, longer, index)
            && (Succeeded(before, longer) <==> error.None?)
            && (error.Some? && error.value.Transient? ==> Missed(longer, |longer| - 1))
  {
    var longer := log + [Push(index, |log| - |before| + 1, error)];
    forall k | |before| <= k < |longer| - 1 ensures Missed(longer, k) {
      assert Missed(log, k);
    }
  }

  // ------------------------------------------------------------------ the world outside

  /** One attempt at a file: how it opens, what its progress callbacks report, how the push ends.  An
      attempt that waits and finds its context cancelled ends there. */
  datatype Try = Try(open: OpenOutcome, counts: seq<nat>, error: Option<PushError>)

  function Total(counts: seq<nat>): nat {
    if counts == [] then 0 else Total(counts[..|counts| - 1]) + counts[|counts| - 1]
  }

  /** How a file fares if nobody cancels: sent, or failed with a reason, after at most three attempts. */
  function FileFate(tries: (nat, nat) -> Try, file: nat, attempt: nat): Option<string>
    decreases 3 - attempt
  {
    var t := tries(file, attempt);
    if t.open.CannotOpen? then Some("file_unavailable")
    else if t.open.Changed? then Some("file_changed")
    else if t.error.None? then None
    else if t.error.value.Transient? && attempt < 3 then FileFate(tries, file, attempt + 1)
    else Some(t.error.value.reason)
  }

  /** How a request fares from its i-th file on: the first failure, if any. */
  function SendFate(tries: (nat, nat) -> Try, n: nat, i: nat): Option<string>
    decreases n - i
  {
    if i >= n then None
    else
      var fate := FileFate(tries, i, 1);
      if fate.Some? then fate else SendFate(tries, n, i + 1)
  }

  lemma CancelledBefore(events: seq<Event>, e: Event, r: RequestId)
    ensures var w := Run(Initial, events);
            r in w.cancelled && r in w.senders && !w.senders[r].pc.Done? ==> CancelledAtWork(events + [e], r)
  {
    assert (events + [e])[..|events|] == events;
  }

  /** The context of r was cancelled before its sender returned. */
  predicate CancelledAtWork(events: seq<Event>, r: RequestId) {
    events != []
    && var w := Run(Initial, events[..|events| - 1]);
       || CancelledAtWork(events[..|events| - 1], r)
       || (r in w.cancelled && r in w.senders && !w.senders[r].pc.Done?)
  }

  class TransferSlot {
    var taildropTask: Transfer
    var taildropStop: Option<RequestId>

    /** The slot's surroundings: every sender in flight, and the cancel functions already taken. */
    var world: World
    ghost var trace: seq<Event>

    ghost predicate Valid()
      reads this
    {
      && taildropTask == world.task && taildropStop == world.stop
      && world == Run(Initial, trace)
    }

    ghost predicate SenderIs(r: RequestId, s: Sender)
      reads this`world
    {
      r in world.senders && world.senders[r] == s
    }

    constructor ()
      ensures Valid() && world == Initial
    {
      taildropTask, taildropStop := NoTransfer, None;
      world, trace := Initial, [];
    }

    method Advance(e: Event)
      requires world == Run(Initial, trace)
      requires taildropTask == Apply(world, e).task && taildropStop == Apply(world, e).stop
      modifies this`world, this`trace
      ensures Valid() && world == Apply(old(world), e) && trace == old(trace) + [e]
    {
      RunOneMore(Initial, trace, e);
      Become(Apply(world, e), trace + [e]);
    }

    method Become(next: World, ghost longer: seq<Event>)
      requires next == Run(Initial, longer) && taildropTask == next.task && taildropStop == next.stop
      modifies this`world, this`trace
      ensures Valid() && world == next && trace == longer
    {
      world, trace := next, longer;
    }

    /** The lock is free: anybody but the sender of r takes any number of steps. */
    method Interfere(r: RequestId, ghost s: Sender)
      requires Valid() && SenderIs(r, s)
      modifies this
      ensures Valid() && SenderIs(r, s)
      ensures old(world).cancelled <= world.cancelled
    {
      var steps: nat := *;
      while steps > 0
        invariant Valid() && SenderIs(r, s)
        invariant old(world).cancelled <= world.cancelled
      {
        var e: Event := *;
        if !Own(e) || e.r != r {
          ReachableInv(trace);
          OnlyOwnStepsMove(world, e, r);
          NeverUncancelled(world, e);
          taildropTask, taildropStop := Apply(world, e).task, Apply(world, e).stop;
          Advance(e);
        }
        steps := steps - 1;
      }
    }

    // ---------------------------------------------------------- slot sections

    method FinishTaildropTransfer(requestId: RequestId, state: State, reason: string) returns (snapshot: Transfer)
      requires Valid()
      modifies this`taildropTask, this`taildropStop
      ensures taildropTask == Finish(world, requestId, state, reason).task == snapshot
      ensures taildropStop == Finish(world, requestId, state, reason).stop
    {
      if taildropTask.requestId != requestId {
        return taildropTask;
      }
      if taildropTask.state != Queued && taildropTask.state != Sending {
        return taildropTask;
      }
      taildropTask := taildropTask.(state := state);
      taildropTask := taildropTask.(reason := reason);
      taildropStop := None;
      return taildropTask;
    }

    method CancelTaildropTransfer(why: string) returns (cancel: Option<RequestId>)
      requires Valid()
      modifies this
      ensures Valid() && world == Apply(old(world), Cancel(why)) && cancel == old(taildropStop)
    {
      cancel := taildropStop;
      if taildropTask.state == Queued || taildropTask.state == Sending {
        taildropTask := taildropTask.(state := Failed);
        taildropTask := taildropTask.(reason := why);
      }
      taildropStop := None;
      Advance(Cancel(why));
    }

    method ReplaceTaildropTransfer(r: RequestId, why: string, count: nat, bytes: nat)
      requires Valid() && r !in world.used
      modifies this
      ensures Valid() && world == Apply(old(world), Reject(r, why, count, bytes))
    {
      taildropTask := RejectedRecord(r, why, count, bytes);
      Advance(Reject(r, why, count, bytes));
    }

    predicate Open(r: RequestId)
      reads this`taildropTask
    {
      taildropTask.requestId == r && (taildropTask.state == Queued || taildropTask.state == Sending)
    }

    // ------------------------------------------------------------------- send

    ghost predicate Returned(r: RequestId, files: seq<File>, snapshot: Transfer)
      reads this`world, this`trace
    {
      && r in world.senders && world.senders[r].files == files
      && Concluded(snapshot, r, world.senders[r], Withdrawn(trace, r))
    }

    /** An accepted send came to what the world outside made of it, unless it was cancelled at work. */
    ghost predicate Fared(r: RequestId, snapshot: Transfer, fate: Option<string>)
      reads this`world, this`trace
    {
      && r in world.senders
      && (Delivered(world.senders[r]) ==> fate.None?)
      && (!CancelledAtWork(trace, r) ==>
            && (Delivered(world.senders[r]) <==> fate.None?)
            && (fate.Some? && !Withdrawn(trace, r) ==> snapshot.reason == fate.value))
    }

    /** One send, accepted or refused.  An invalid request or an unready backend puts its own failed
        record into the slot, whoever is in it; a busy slot is left alone. */
    method TaildropSend(r: RequestId, files: seq<File>, metadataOk: bool, backendReady: bool,
                        target: Option<string>, tries: (nat, nat) -> Try)
      returns (snapshot: Transfer)
      requires Valid() && r !in world.used
      modifies this
      ensures Valid()
      ensures var valid := metadataOk && 0 < |files| <= 100 && Sum(files) < 0x8000_0000_0000_0000;
              var busy := Active(old(taildropTask));
              if valid && backendReady && !busy then
                && Returned(r, files, snapshot)
                && Fared(r, snapshot, if target.None? then Some("lookup") else SendFate(tries, |files|, 0))
              else
                && r !in world.senders && snapshot.requestId == r && snapshot.state == Failed
                && snapshot.reason
                   == (if !valid then "invalid_request" else if !backendReady then "backend_unavailable" else "busy")
                && taildropTask == if valid && backendReady then old(taildropTask) else snapshot
    {
      ReachableInv(trace);
      var total := ValidateSizes(files);
      if !metadataOk || |files| == 0 || |files| > MAX_FILES || total.None? {
        ReplaceTaildropTransfer(r, "invalid_request", |files|, 0);
        return RejectedRecord(r, "invalid_request", |files|, 0);
      }
      if !backendReady {
        ReplaceTaildropTransfer(r, "backend_unavailable", |files|, total.value);
        return RejectedRecord(r, "backend_unavailable", |files|, total.value);
      }
      snapshot := SendValidated(r, files, target, tries);
    }

    method SendValidated(r: RequestId, files: seq<File>, target: Option<string>, tries: (nat, nat) -> Try)
      returns (snapshot: Transfer)
      requires Valid() && r !in world.used && files != []
      modifies this
      ensures Valid()
      ensures if !Active(old(taildropTask)) then
                && Returned(r, files, snapshot)
                && Fared(r, snapshot, if target.None? then Some("lookup") else SendFate(tries, |files|, 0))
              else
                && r !in world.senders && taildropTask == old(taildropTask)
                && snapshot == QueuedRecord(r, files).(state := Failed, reason := "busy")
    {
      ReachableInv(trace);
      if Active(taildropTask) {
        Advance(Begin(r, files));
        return QueuedRecord(r, files).(state := Failed, reason := "busy");
      }
      taildropTask := QueuedRecord(r, files);
      taildropStop := Some(r);
      Advance(Begin(r, files));
      snapshot := LookUpAndSend(r, files, target, tries);
    }

    /** The target is looked up, and then the files are sent. */
    method LookUpAndSend(r: RequestId, files: seq<File>, target: Option<string>, tries: (nat, nat) -> Try)
      returns (snapshot: Transfer)
      requires Valid() && SenderIs(r, Sender(files, "", LookingUp, 0, [], false))
      modifies this
      ensures Valid() && Returned(r, files, snapshot)
      ensures Fared(r, snapshot, if target.None? then Some("lookup") else SendFate(tries, |files|, 0))
    {
      ghost var s := world.senders[r];
      Interfere(r, s);
      match target
      case None =>
        Advance(LookupReturns(r, None));
        snapshot := FailSend(r, "lookup", s.(pc := Failing("lookup")));
      case Some(name) =>
        if Open(r) {
          taildropTask := taildropTask.(targetName := name);
        }
        Advance(LookupReturns(r, target));
        snapshot := SendFiles(r, files, tries);
    }

    /** finishTaildropTransfer("failed") and the deferred cancel. */
    method FailSend(r: RequestId, reason: string, ghost s: Sender) returns (snapshot: Transfer)
      requires Valid() && SenderIs(r, s) && s.pc == Failing(reason)
      modifies this
      ensures Valid() && SenderIs(r, s.(pc := Done)) && !Delivered(s)
      ensures Returned(r, s.files, snapshot)
      ensures !Withdrawn(trace, r) ==> snapshot.state == Failed && snapshot.reason == reason
      ensures r in old(world).cancelled ==> CancelledAtWork(trace, r)
    {
      Interfere(r, s);
      ReachableInv(trace);
      LastStepConcludes(trace, GiveUp(r));
      snapshot := FinishTaildropTransfer(r, Failed, reason);
      CancelledBefore(trace, GiveUp(r), r);
      Advance(GiveUp(r));
    }

    /** The loop over the files. */
    method SendFiles(r: RequestId, files: seq<File>, tries: (nat, nat) -> Try) returns (snapshot: Transfer)
      requires Valid() && r in world.senders && world.senders[r].files == files && world.senders[r].pc == NextFile(0)
      modifies this
      ensures Valid() && Returned(r, files, snapshot) && Fared(r, snapshot, SendFate(tries, |files|, 0))
    {
      var index: nat := 0;
      while index < |files|
        invariant SendFate(tries, |files|, 0) == SendFate(tries, |files|, index)
        invariant Valid() && r in world.senders && world.senders[r].files == files
        invariant index <= |files| && world.senders[r].pc == NextFile(index)
      {
        ghost var s := world.senders[r];
        Interfere(r, s);
        var cancelled := r in world.cancelled;
        Advance(CheckContext(r));
        if cancelled {
          snapshot := FailSend(r, "cancelled", s.(pc := Failing("cancelled")));
          return;
        }
        var failure := SendFile(r, files, index, tries);
        if failure.Some? {
          snapshot := FailSend(r, failure.value, world.senders[r]);
          return;
        }
        index := index + 1;
      }
      snapshot := CompleteSend(r, files);
    }

    /** finishTaildropTransfer("completed") past the last file. */
    method CompleteSend(r: RequestId, files: seq<File>) returns (snapshot: Transfer)
      requires Valid() && r in world.senders && world.senders[r].files == files
      requires world.senders[r].pc == NextFile(|files|)
      modifies this
      ensures Valid() && Returned(r, files, snapshot) && Delivered(world.senders[r])
    {
      Interfere(r, world.senders[r]);
      ReachableInv(trace);
      LastStepConcludes(trace, CheckContext(r));
      snapshot := FinishTaildropTransfer(r, Completed, "");
      Advance(CheckContext(r));
      ReachableInv(trace);
    }

    /** The loop over the attempts at one file: at most three, and only after transient errors. */
    method SendFile(r: RequestId, files: seq<File>, index: nat, tries: (nat, nat) -> Try)
      returns (failure: Option<string>)
      requires Valid() && r in world.senders && world.senders[r].files == files
      requires index < |files| && world.senders[r].pc == Opening(index, 1)
      modifies this
      ensures Valid() && r in world.senders && world.senders[r].files == files
      ensures world.senders[r].pc == if failure.Some? then Failing(failure.value) else NextFile(index + 1)
      ensures Attempts(old(world).senders[r].log, world.senders[r].log, index)
      ensures failure.None? <==> Succeeded(old(world).senders[r].log, world.senders[r].log)
      ensures failure == FileFate(tries, index, 1) || (failure == Some("cancelled") && r in world.cancelled)
    {
      ghost var before := world.senders[r].log;
      var attempt: nat := 1;
      var pushErr: Option<PushError> := None;
      while attempt <= MAX_ATTEMPTS
        invariant 1 <= attempt <= MAX_ATTEMPTS + 1
        invariant Valid() && r in world.senders && world.senders[r].files == files
        invariant world.senders[r].pc == if attempt <= MAX_ATTEMPTS then Opening(index, attempt)
                                         else if pushErr.Some? then Failing(pushErr.value.reason) else Pushed(index)
        invariant attempt > MAX_ATTEMPTS ==> pushErr.Some?
        invariant Attempts(before, world.senders[r].log, index) && !Succeeded(before, world.senders[r].log)
        invariant |world.senders[r].log| == |before| + attempt - 1
        invariant attempt <= MAX_ATTEMPTS ==> FileFate(tries, index, 1) == FileFate(tries, index, attempt)
        invariant attempt > MAX_ATTEMPTS ==> FileFate(tries, index, 1) == Some(pushErr.value.reason)
        invariant attempt > 1 ==> Missed(world.senders[r].log, |world.senders[r].log| - 1)
      {
        var ok, reason := OpenFile(r, files, index, attempt, tries(index, attempt).open);
        if !ok {
          return Some(reason);
        }
        ghost var log := world.senders[r].log;
        pushErr := tries(index, attempt).error;
        PushFile(r, files, index, attempt, tries(index, attempt));
        OneMoreAttempt(before, log, index, pushErr);
        if pushErr.None? || pushErr.value.Final? {
          break;
        }
        attempt := attempt + 1;
      }
      if pushErr.Some? {
        return Some(pushErr.value.reason);
      }
      CountSentFile(r, files, index);
      return None;
    }

    /** The wait before a retry, the open and the size check, each with its own failure. */
    method OpenFile(r: RequestId, files: seq<File>, index: nat, attempt: nat, outcome: OpenOutcome)
      returns (ok: bool, reason: string)
      requires Valid() && r in world.senders && world.senders[r].files == files
      requires index < |files| && world.senders[r].pc == Opening(index, attempt)
      modifies this
      ensures Valid() && r in world.senders && world.senders[r].files == files
      ensures world.senders[r].pc == if ok then Pushing(index, attempt, 0) else Failing(reason)
      ensures world.senders[r].log == old(world).senders[r].log
      ensures match outcome
              case Opened => ok
              case CannotOpen => !ok && reason == "file_unavailable"
              case Changed => !ok && reason == "file_changed"
              case WaitCancelled => ok || (reason == "cancelled" && r in world.cancelled)
    {
      ghost var s := world.senders[r];
      Interfere(r, s);
      if outcome == WaitCancelled && attempt > 1 && r in world.cancelled {
        Advance(Taildrop.Open(r, WaitCancelled));
        return false, "cancelled";
      }
      if outcome == CannotOpen {
        Advance(Taildrop.Open(r, CannotOpen));
        return false, "file_unavailable";
      }
      if outcome == Changed {
        Advance(Taildrop.Open(r, Changed));
        return false, "file_changed";
      }
      if Open(r) {
        taildropTask := world.task.(
          state := Sending, fileName := files[index].name, fileIndex := index + 1, fileBytes := 0,
          fileSize := files[index].size, bytesSent := world.senders[r].completedBytes);
      }
      Advance(Taildrop.Open(r, Opened));
      return true, "";
    }

    /** PushFile: its progress callbacks, then a result. */
    method PushFile(r: RequestId, files: seq<File>, index: nat, attempt: nat, t: Try)
      requires Valid() && r in world.senders && world.senders[r].files == files
      requires index < |files| && world.senders[r].pc == Pushing(index, attempt, 0)
      modifies this
      ensures Valid() && r in world.senders && world.senders[r].files == files
      ensures world.senders[r].pc ==
              if t.error.None? then Pushed(index)
              else if t.error.value.Transient? && attempt < MAX_ATTEMPTS then Opening(index, attempt + 1)
              else Failing(t.error.value.reason)
      ensures world.senders[r].log == old(world).senders[r].log + [Push(index, attempt, t.error)]
    {
      for i := 0 to |t.counts|
        invariant Valid() && r in world.senders && world.senders[r].files == files
        invariant world.senders[r].pc == Pushing(index, attempt, Total(t.counts[..i]))
        invariant world.senders[r].log == old(world).senders[r].log
      {
        assert t.counts[..i + 1][..i] == t.counts[..i];
        OnRead(r, t.counts[i]);
      }
      Interfere(r, world.senders[r]);
      Advance(PushReturns(r, t.error));
    }

    /** The progress callback adds what was read to the file's bytes and recomputes the total. */
    method OnRead(r: RequestId, count: nat)
      requires Valid() && r in world.senders && world.senders[r].pc.Pushing?
      requires world.senders[r].pc.file < |world.senders[r].files|
      modifies this
      ensures Valid() && r in world.senders && world.senders[r].files == old(world).senders[r].files
      ensures var pc := old(world).senders[r].pc; world.senders[r].pc == pc.(read := pc.read + count)
      ensures world.senders[r].log == old(world).senders[r].log
    {
      Interfere(r, world.senders[r]);
      if count > 0 {
        if Open(r) {
          taildropTask := taildropTask.(fileBytes := taildropTask.fileBytes + count);
          taildropTask := taildropTask.(bytesSent := world.senders[r].completedBytes + taildropTask.fileBytes);
        }
        Advance(Read(r, count));
      }
    }

    method CountSentFile(r: RequestId, files: seq<File>, index: nat)
      requires Valid() && r in world.senders && world.senders[r].files == files
      requires index < |files| && world.senders[r].pc == Pushed(index)
      modifies this
      ensures Valid() && r in world.senders && world.senders[r].files == files
      ensures world.senders[r].pc == NextFile(index + 1)
      ensures world.senders[r].log == old(world).senders[r].log
    {
      ghost var s := world.senders[r];
      Interfere(r, s);
      if Open(r) {
        taildropTask := taildropTask.(fileBytes := files[index].size);
        taildropTask := taildropTask.(bytesSent := world.senders[r].completedBytes);
      }
      Advance(CountFile(r));
    }
  }
}
