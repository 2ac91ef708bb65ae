/** What holds of the transfer record and of every sender, in every interleaving. */
module TaildropProofs {
  import opened Wrappers
  import opened Taildrop

  lemma LogGrows(log: seq<Push>, n: nat, push: Push)
    requires LogOk(log, n) && Retryable(log)
    requires push.file == Successes(log) < n && push.attempt == NextAttempt(log) <= MAX_ATTEMPTS
    ensures LogOk(log + [push], n)
    ensures Successes(log + [push]) == Successes(log) + if push.error.None? then 1 else 0
  {
    assert (log + [push])[..|log|] == log;
  }

  lemma SumOneMore(files: seq<File>, i: nat)
    requires i < |files|
    ensures Sum(files[..i + 1]) == Sum(files[..i]) + files[i].size
  {
    assert files[..i + 1][..i] == files[..i];
  }

  lemma {:induction false} SumMonotone(files: seq<File>, i: nat, j: nat)
    requires i <= j <= |files|
    ensures Sum(files[..i]) <= Sum(files[..j])
    decreases j
  {
    if i < j {
      SumOneMore(files, j - 1);
      SumMonotone(files, i, j - 1);
    }
  }

  lemma WithinTotal(task: Transfer, s: Sender)
    requires SenderOk(s) && Accounts(task, s) && !s.overread
    ensures task.bytesSent <= task.totalBytes
  {
    assert s.files[..|s.files|] == s.files;
    SumMonotone(s.files, Successes(s.log), |s.files|);
    if Successes(s.log) < |s.files| {
      SumOneMore(s.files, Successes(s.log));
      SumMonotone(s.files, Successes(s.log) + 1, |s.files|);
    }
  }

  lemma BeginKeeps(w: World, r: RequestId, files: seq<File>)
    requires Inv(w)
    ensures Inv(BeginStep(w, r, files))
  {
  }

  /** A step of one sender that leaves the slot in its own hands or alone. */
  lemma SenderStepKeeps(w: World, v: World, r: RequestId)
    requires Inv(w) && SenderAt(w, r) && SenderAt(v, r) && v.senders == w.senders[r := v.senders[r]]
    requires v.used == w.used && v.stop == w.stop && SenderOk(v.senders[r]) && !w.senders[r].pc.Done?
    requires if Owns(w, r) then Owns(v, r) && Accounts(v.task, v.senders[r]) else v.task == w.task
    ensures Inv(v)
  {
  }

  lemma LookupKeeps(w: World, r: RequestId, name: Option<string>)
    requires Inv(w)
    ensures Inv(LookupReturnsStep(w, r, name))
  {
    if SenderAt(w, r) && w.senders[r].pc.LookingUp? {
      OwnerWithinTotal(w, r);
      SenderStepKeeps(w, LookupReturnsStep(w, r, name), r);
    }
  }

  lemma OwnerWithinTotal(w: World, r: RequestId)
    requires Inv(w)
    ensures Owns(w, r) && !w.senders[r].overread ==> w.task.bytesSent <= w.task.totalBytes
  {
    if Owns(w, r) && !w.senders[r].overread {
      WithinTotal(w.task, w.senders[r]);
    }
  }

  /** The sender returns, and with it closes its record if that is still open. */
  lemma ReturnKeeps(w: World, r: RequestId, state: State, reason: string)
    requires Inv(w) && SenderAt(w, r) && (state == Completed || state == Failed)
    requires Position(w.senders[r]) == Successes(w.senders[r].log)
    requires state == Completed && Owns(w, r) ==> CompleteRecord(w.task, w.senders[r])
    ensures Inv(Return(Finish(w, r, state, reason), r))
  {
    DoneIsOk(w.senders[r]);
    if Owns(w, r) {
      OwnerReturns(w, r, state, reason);
    } else {
      OtherReturns(w, r);
      assert Finish(w, r, state, reason) == w;
    }
  }

  lemma DoneIsOk(s: Sender)
    requires SenderOk(s) && Position(s) == Successes(s.log)
    ensures SenderOk(s.(pc := Done))
  {
  }

  lemma OwnerReturns(w: World, r: RequestId, state: State, reason: string)
    requires Inv(w) && SenderAt(w, r) && Owns(w, r) && SenderOk(w.senders[r].(pc := Done))
    requires state == Failed || (state == Completed && CompleteRecord(w.task, w.senders[r]))
    ensures Inv(Return(Finish(w, r, state, reason), r))
  {
  }

  lemma OtherReturns(w: World, r: RequestId)
    requires Inv(w) && SenderAt(w, r) && !Owns(w, r) && SenderOk(w.senders[r].(pc := Done))
    ensures Inv(Return(w, r))
  {
  }

  lemma CheckContextKeeps(w: World, r: RequestId)
    requires Inv(w)
    ensures Inv(CheckContextStep(w, r))
  {
    if SenderAt(w, r) && w.senders[r].pc.NextFile? {
      if w.senders[r].pc.file >= |w.senders[r].files| {
        assert CheckContextStep(w, r) == Return(Finish(w, r, Completed, ""), r);
        CompletionKeeps(w, r);
      } else {
        EnterFileKeeps(w, r);
      }
    }
  }

  lemma EnterFileKeeps(w: World, r: RequestId)
    requires Inv(w) && SenderAt(w, r) && w.senders[r].pc.NextFile?
    requires w.senders[r].pc.file < |w.senders[r].files|
    ensures Inv(CheckContextStep(w, r))
  {
    OwnerWithinTotal(w, r);
    SenderStepKeeps(w, CheckContextStep(w, r), r);
  }

  lemma CompletionKeeps(w: World, r: RequestId)
    requires Inv(w) && SenderAt(w, r) && w.senders[r].pc.NextFile?
    requires w.senders[r].pc.file >= |w.senders[r].files|
    ensures Inv(Return(Finish(w, r, Completed, ""), r))
  {
    if Owns(w, r) {
      LastBoundaryIsComplete(w.task, w.senders[r]);
    }
    ReturnKeeps(w, r, Completed, "");
  }

  /** The boundary after the last file is a complete account. */
  lemma LastBoundaryIsComplete(task: Transfer, s: Sender)
    requires SenderOk(s) && Accounts(task, s) && s.pc.NextFile?
    ensures s.pc.file >= |s.files| ==> CompleteRecord(task, s)
  {
    assert s.files[..|s.files|] == s.files;
  }

  lemma FailureKeeps(w: World, r: RequestId, reason: string)
    requires Inv(w) && SenderAt(w, r) && w.senders[r].pc.Opening?
    requires reason in ["cancelled", "file_unavailable", "file_changed"]
    ensures Inv(Goto(w, r, Failing(reason)))
  {
    OwnerWithinTotal(w, r);
    SenderStepKeeps(w, Goto(w, r, Failing(reason)), r);
  }

  /** The record at the start of an attempt. */
  function AttemptRecord(task: Transfer, s: Sender, i: nat): Transfer
    requires i < |s.files|
  {
    task.(state := Sending, fileName := s.files[i].name, fileIndex := i + 1, fileBytes := 0,
          fileSize := s.files[i].size, bytesSent := s.completedBytes)
  }

  lemma AttemptIsAccounted(task: Transfer, s: Sender)
    requires SenderOk(s) && s.pc.Opening?
    ensures SenderOk(s.(pc := Pushing(s.pc.file, s.pc.attempt, 0)))
    ensures Accounts(task, s) ==>
              Accounts(AttemptRecord(task, s, s.pc.file), s.(pc := Pushing(s.pc.file, s.pc.attempt, 0)))
  {
  }

  lemma OpenedKeeps(w: World, r: RequestId)
    requires Inv(w) && SenderAt(w, r) && w.senders[r].pc.Opening?
    ensures Inv(OpenStep(w, r, Opened))
  {
    AttemptIsAccounted(w.task, w.senders[r]);
    SenderStepKeeps(w, OpenStep(w, r, Opened), r);
  }

  lemma OpenKeeps(w: World, r: RequestId, outcome: OpenOutcome)
    requires Inv(w)
    ensures Inv(OpenStep(w, r, outcome))
  {
    if SenderAt(w, r) && w.senders[r].pc.Opening? {
      match outcome
      case Opened => OpenedKeeps(w, r);
      case CannotOpen => FailureKeeps(w, r, "file_unavailable");
      case Changed => FailureKeeps(w, r, "file_changed");
      case WaitCancelled => FailureKeeps(w, r, "cancelled");
    }
  }

  lemma ReadKeeps(w: World, r: RequestId, count: nat)
    requires Inv(w)
    ensures Inv(ReadStep(w, r, count))
  {
    if SenderAt(w, r) && w.senders[r].pc.Pushing? && count > 0 {
      SenderStepKeeps(w, ReadStep(w, r, count), r);
    }
  }

  lemma PushReturnsKeeps(w: World, r: RequestId, error: Option<PushError>)
    requires Inv(w)
    ensures Inv(PushReturnsStep(w, r, error))
  {
    if SenderAt(w, r) && w.senders[r].pc.Pushing? {
      AfterPushOk(w.senders[r], error);
      if Owns(w, r) {
        AfterPushAccounts(w.task, w.senders[r], error);
      }
      SenderStepKeeps(w, PushReturnsStep(w, r, error), r);
    }
  }

  lemma AfterPushOk(s: Sender, error: Option<PushError>)
    requires SenderOk(s) && s.pc.Pushing?
    ensures SenderOk(AfterPush(s, s.pc.file, s.pc.attempt, error))
  {
    var push := Push(s.pc.file, s.pc.attempt, error);
    LogGrows(s.log, |s.files|, push);
    SumOneMore(s.files, s.pc.file);
    var log := s.log + [push];
    assert log[|log| - 1] == push;
    assert Retryable(log) <==> error.None? || error.value.Transient?;
    assert NextAttempt(log) == if error.None? then 1 else push.attempt + 1;
  }

  lemma AfterPushAccounts(task: Transfer, s: Sender, error: Option<PushError>)
    requires SenderOk(s) && s.pc.Pushing? && Accounts(task, s)
    ensures Accounts(task, AfterPush(s, s.pc.file, s.pc.attempt, error))
  {
    if !s.overread {
      WithinTotal(task, s);
    }
  }

  lemma CountFileKeeps(w: World, r: RequestId)
    requires Inv(w)
    ensures Inv(CountFileStep(w, r))
  {
    if SenderAt(w, r) && w.senders[r].pc.Pushed? {
      SenderStepKeeps(w, CountFileStep(w, r), r);
    }
  }

  lemma GiveUpKeeps(w: World, r: RequestId)
    requires Inv(w)
    ensures Inv(GiveUpStep(w, r))
  {
    if SenderAt(w, r) && w.senders[r].pc.Failing? {
      ReturnKeeps(w, r, Failed, w.senders[r].pc.reason);
    }
  }

  lemma StepKeepsInv(w: World, e: Event)
    requires Inv(w)
    ensures Inv(Apply(w, e))
  {
    match e
    case Begin(r, files) => BeginKeeps(w, r, files);
    case Reject(_, _, _, _) =>
    case LookupReturns(r, name) => LookupKeeps(w, r, name);
    case CheckContext(r) => CheckContextKeeps(w, r);
    case Open(r, outcome) => OpenKeeps(w, r, outcome);
    case Read(r, count) => ReadKeeps(w, r, count);
    case PushReturns(r, error) => PushReturnsKeeps(w, r, error);
    case CountFile(r) => CountFileKeeps(w, r);
    case GiveUp(r) => GiveUpKeeps(w, r);
    case Cancel(_) =>
    case CancelFires(_) =>
  }

  lemma {:induction false} ReachableInv(events: seq<Event>)
    ensures Inv(Run(Initial, events))
  {
    if events != [] {
      ReachableInv(events[..|events| - 1]);
      StepKeepsInv(Run(Initial, events[..|events| - 1]), events[|events| - 1]);
    }
  }

  // ---------------------------------------------------------- byte accounting

  /** A record that reads "completed" belongs to a sender all of whose files were pushed, and accounts
      for every byte of them, whatever cancels, rejections and busy callers came between. */
  lemma CompletedRecordAccountsForEveryFile(events: seq<Event>)
    requires Run(Initial, events).task.state == Completed
    ensures var w := Run(Initial, events);
            && w.task.requestId in w.senders
            && CompleteRecord(w.task, w.senders[w.task.requestId])
  {
    ReachableInv(events);
  }

  /** As long as no push reads past its file's size, an open record stays within its total. */
  lemma ActiveRecordStaysWithinTotal(events: seq<Event>)
    requires var w := Run(Initial, events);
             Active(w.task) && (w.task.requestId in w.senders ==>
               !w.senders[w.task.requestId].overread)
    ensures var w := Run(Initial, events); w.task.bytesSent <= w.task.totalBytes
  {
    ReachableInv(events);
    WithinTotal(Run(Initial, events).task, Run(Initial, events).senders[Run(Initial, events).task.requestId]);
  }

  /** The count of an open record goes down in one way only: a retry takes it back to the total of
      the files already sent. */
  lemma OnlyARetryLowersTheCount(events: seq<Event>, e: Event)
    requires var w, v := Run(Initial, events), Apply(Run(Initial, events), e);
             && Active(w.task) && Active(v.task) && v.task.requestId == w.task.requestId
             && v.task.bytesSent < w.task.bytesSent
             && w.task.requestId in v.senders && !v.senders[w.task.requestId].overread
    ensures var w, v := Run(Initial, events), Apply(Run(Initial, events), e);
            var s := w.senders[w.task.requestId];
            && e == Open(w.task.requestId, Opened) && s.pc.Opening? && s.pc.attempt > 1
            && v.task.bytesSent == Sum(s.files[..s.pc.file])
  {
    ReachableInv(events);
    var w := Run(Initial, events);
    StepLowersCount(w, e);
  }

  lemma StepLowersCount(w: World, e: Event)
    requires Inv(w) && Active(w.task) && Active(Apply(w, e).task)
    requires Apply(w, e).task.requestId == w.task.requestId && Apply(w, e).task.bytesSent < w.task.bytesSent
    requires !Apply(w, e).senders[w.task.requestId].overread
    ensures var s := w.senders[w.task.requestId];
            && e == Open(w.task.requestId, Opened) && s.pc.Opening? && s.pc.attempt > 1
            && Apply(w, e).task.bytesSent == Sum(s.files[..s.pc.file])
  {
    match e
    case Begin(_, _) =>
    case Reject(_, _, _, _) =>
    case Cancel(_) =>
    case CancelFires(_) =>
    case _ =>
      if e.r != w.task.requestId {
        OthersLeaveTheRecord(w, e);
      }
  }

  lemma OthersLeaveTheRecord(w: World, e: Event)
    requires e.LookupReturns? || e.CheckContext? || e.Open? || e.Read? || e.PushReturns? || e.CountFile? || e.GiveUp?
    requires e.r != w.task.requestId
    ensures Apply(w, e).task == w.task
  {
  }

  // ------------------------------------------------------------------- pushes

  predicate FirstTryOrRetry(log: seq<Push>, j: nat)
    requires j < |log|
  {
    if j == 0 || log[j - 1].error.None? then log[j].attempt == 1
    else log[j - 1].error.value.Transient? && log[j].attempt == log[j - 1].attempt + 1
  }

  /** In every reachable state a sender's successful pushes are the first files of its list in order,
      a file is pushed again only after a transient error and at most three times, and all in
      all there are at most three pushes a file. */
  lemma PushesFollowTheList(events: seq<Event>, r: RequestId)
    requires r in Run(Initial, events).senders
    ensures var s := Run(Initial, events).senders[r];
            && Successes(s.log) <= |s.files| && |s.log| <= 3 * |s.files|
            && forall j :: 0 <= j < |s.log| ==>
                 && s.log[j].file == Successes(s.log[..j]) < |s.files|
                 && 1 <= s.log[j].attempt <= MAX_ATTEMPTS && FirstTryOrRetry(s.log, j)
  {
    ReachableInv(events);
    var s := Run(Initial, events).senders[r];
    LogBound(s.log, |s.files|);
    forall j | 0 <= j < |s.log|
      ensures s.log[j].file == Successes(s.log[..j]) < |s.files|
      ensures 1 <= s.log[j].attempt <= MAX_ATTEMPTS && FirstTryOrRetry(s.log, j)
    {
      PushAt(s.log, |s.files|, j);
    }
  }

  lemma {:induction false} PushAt(log: seq<Push>, n: nat, j: nat)
    requires LogOk(log, n) && j < |log|
    ensures log[j].file == Successes(log[..j]) < n
    ensures 1 <= log[j].attempt <= MAX_ATTEMPTS && FirstTryOrRetry(log, j)
  {
    var before := log[..|log| - 1];
    if j < |log| - 1 {
      PushAt(before, n, j);
      assert before[..j] == log[..j];
    }
  }

  lemma {:induction false} LogBound(log: seq<Push>, n: nat)
    requires LogOk(log, n)
    ensures Successes(log) <= n
    ensures |log| <= MAX_ATTEMPTS * Successes(log) + NextAttempt(log) - 1
    ensures NextAttempt(log) > 1 ==> Successes(log) < n && NextAttempt(log) <= MAX_ATTEMPTS + 1
    ensures |log| <= MAX_ATTEMPTS * n
  {
    if log != [] {
      LogBound(log[..|log| - 1], n);
    }
  }

  /** How many of its own steps, reads apart, a sender can still take, with `rest` files not sent. */
  function StepsAt(pc: Pc, rest: int): int {
    match pc
    case LookingUp => 11 * rest + 4
    case NextFile(_) => 11 * rest + 3
    case Opening(_, attempt) => 11 * rest + 4 - 2 * attempt
    case Pushing(_, attempt, _) => 11 * rest + 3 - 2 * attempt
    case Pushed(_) => 11 * rest + 7
    case Failing(_) => 1
    case Done => 0
  }

  function StepsLeft(s: Sender): nat
    requires SenderOk(s)
  {
    StepsAt(s.pc, |s.files| - Successes(s.log))
  }

  /** Each of them brings it nearer its end, and nobody else moves it: with pushes that return, a send
      of n files is over after at most 11 n + 4 steps, retries and interference included. */
  lemma SendersTerminate(events: seq<Event>, e: Event, r: RequestId)
    requires r in Run(Initial, events).senders
    ensures var w, v := Run(Initial, events), Apply(Run(Initial, events), e);
            r in v.senders && Descends(w.senders[r], v.senders[r], e)
  {
    ReachableInv(events);
    var w := Run(Initial, events);
    StepKeepsInv(w, e);
    StepDescends(w, e, r);
  }

  /** The steps, reads apart, that a sender makes in a run. */
  function StepsMade(w: World, events: seq<Event>, r: RequestId): nat {
    if events == [] then 0
    else
      var prefix, e := events[..|events| - 1], events[|events| - 1];
      StepsMade(w, prefix, r) + if Moved(Run(w, prefix), e, r) then 1 else 0
  }

  predicate Moved(w: World, e: Event, r: RequestId) {
    !e.Read? && r in w.senders && r in Apply(w, e).senders && Apply(w, e).senders[r] != w.senders[r]
  }

  lemma {:induction false} StepsAreSpent(w: World, events: seq<Event>, r: RequestId)
    requires Inv(w) && r in w.senders
    ensures Inv(Run(w, events)) && r in Run(w, events).senders
    ensures StepsMade(w, events, r) + StepsLeft(Run(w, events).senders[r]) <= StepsLeft(w.senders[r])
  {
    if events != [] {
      var prefix, e := events[..|events| - 1], events[|events| - 1];
      StepsAreSpent(w, prefix, r);
      StepKeepsInv(Run(w, prefix), e);
      StepDescends(Run(w, prefix), e, r);
    }
  }

  /** Over any run, retries and interference included, a send of n files makes at most 11 n + 4 steps
      apart from its reads. */
  lemma SendIsBounded(before: seq<Event>, after: seq<Event>, r: RequestId)
    requires var w := Run(Initial, before); r in w.senders && w.senders[r].pc.LookingUp?
    ensures var w := Run(Initial, before); StepsMade(w, after, r) <= 11 * |w.senders[r].files| + 4
  {
    ReachableInv(before);
    StepsAreSpent(Run(Initial, before), after, r);
  }

  lemma StepDescends(w: World, e: Event, r: RequestId)
    requires Inv(w) && Inv(Apply(w, e)) && r in w.senders
    ensures r in Apply(w, e).senders
    ensures Descends(w.senders[r], Apply(w, e).senders[r], e)
  {
    OnlyOwnStepsMove(w, e, r);
    if Own(e) && e.r == r && Apply(w, e).senders[r] != w.senders[r] {
      if e.PushReturns? {
        PushDescends(w.senders[r], e.error);
      } else if e.Open? {
        OpenDescends(w, r, e.outcome);
      } else if e.CountFile? {
        CountDescends(w, r);
      } else if e.GiveUp? {
        GiveUpDescends(w, r);
      } else {
        OwnStepDescends(w, e, r);
      }
    }
  }

  ghost predicate Descends(before: Sender, after: Sender, e: Event) {
    && SenderOk(before) && SenderOk(after)
    && if e.Read? then StepsLeft(after) == StepsLeft(before)
       else after == before || StepsLeft(after) < StepsLeft(before)
  }

  predicate Own(e: Event) {
    e.LookupReturns? || e.CheckContext? || e.Open? || e.Read? || e.PushReturns? || e.CountFile? || e.GiveUp?
  }

  lemma OnlyOwnStepsMove(w: World, e: Event, r: RequestId)
    requires r in w.senders && r in w.used
    ensures r in Apply(w, e).senders
    ensures !Own(e) || e.r != r ==> Apply(w, e).senders[r] == w.senders[r]
  {
  }

  lemma OwnStepDescends(w: World, e: Event, r: RequestId)
    requires r in w.senders && (e.LookupReturns? || e.CheckContext? || e.Read?) && e.r == r
    requires Apply(w, e).senders[r] != w.senders[r]
    requires SenderOk(w.senders[r]) && SenderOk(Apply(w, e).senders[r])
    ensures Descends(w.senders[r], Apply(w, e).senders[r], e)
  {
  }

  lemma OpenDescends(w: World, r: RequestId, outcome: OpenOutcome)
    requires r in w.senders && OpenStep(w, r, outcome).senders[r] != w.senders[r]
    requires SenderOk(w.senders[r]) && SenderOk(OpenStep(w, r, outcome).senders[r])
    ensures StepsLeft(OpenStep(w, r, outcome).senders[r]) < StepsLeft(w.senders[r])
  {
  }

  lemma CountDescends(w: World, r: RequestId)
    requires r in w.senders && CountFileStep(w, r).senders[r] != w.senders[r]
    requires SenderOk(w.senders[r]) && SenderOk(CountFileStep(w, r).senders[r])
    ensures StepsLeft(CountFileStep(w, r).senders[r]) < StepsLeft(w.senders[r])
  {
  }

  lemma GiveUpDescends(w: World, r: RequestId)
    requires r in w.senders && GiveUpStep(w, r).senders[r] != w.senders[r]
    requires SenderOk(w.senders[r]) && SenderOk(GiveUpStep(w, r).senders[r])
    ensures StepsLeft(GiveUpStep(w, r).senders[r]) < StepsLeft(w.senders[r])
  {
  }

  lemma PushDescends(s: Sender, error: Option<PushError>)
    requires SenderOk(s) && s.pc.Pushing? && SenderOk(AfterPush(s, s.pc.file, s.pc.attempt, error))
    ensures StepsLeft(AfterPush(s, s.pc.file, s.pc.attempt, error)) < StepsLeft(s)
  {
    var after := AfterPush(s, s.pc.file, s.pc.attempt, error);
    LogGrows(s.log, |s.files|, Push(s.pc.file, s.pc.attempt, error));
    var rest := |s.files| - Successes(s.log);
    PushLowers(s.pc, rest, error);
    assert StepsLeft(s) == StepsAt(s.pc, rest);
    assert StepsLeft(after) == StepsAt(after.pc, if error.None? then rest - 1 else rest);
  }

  lemma PushLowers(pc: Pc, rest: nat, error: Option<PushError>)
    requires pc.Pushing? && pc.attempt <= MAX_ATTEMPTS && rest > 0
    ensures StepsAt(Pushed(pc.file), rest - 1) < StepsAt(pc, rest)
    ensures pc.attempt < MAX_ATTEMPTS ==> StepsAt(Opening(pc.file, pc.attempt + 1), rest) < StepsAt(pc, rest)
    ensures error.Some? ==> StepsAt(Failing(error.value.reason), rest) < StepsAt(pc, rest)
  {
  }
}
