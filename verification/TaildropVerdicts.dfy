/** What becomes of a request's record: whose verdict it shows, and what a cancel brings about. */
module TaildropVerdicts {
  import opened Wrappers
  import opened Taildrop
  import opened TaildropProofs

  // ----------------------------------------------------------------- verdicts

  lemma ClosedRecordChanges(w: World, e: Event)
    requires !Active(w.task)
    ensures var v := Apply(w, e);
            v.task == w.task || ((e.Begin? || e.Reject?) && e.r !in w.used && v.task.requestId == e.r)
  {
  }

  lemma RecordChangesHands(w: World, e: Event)
    ensures w.used <= Apply(w, e).used
    ensures var id := Apply(w, e).task.requestId;
            id == w.task.requestId || ((e.Begin? || e.Reject?) && id == e.r && e.r !in w.used)
  {
  }

  lemma {:induction false} RecordIsUsed(events: seq<Event>)
    ensures var w := Run(Initial, events); w.task.state != Idle ==> w.task.requestId in w.used
  {
    if events != [] {
      RecordIsUsed(events[..|events| - 1]);
      ReachableInv(events);
    }
  }

  /** Over any run the first terminal verdict on a request stands until another request takes the slot,
      and its record never comes back changed. */
  lemma {:induction false} FirstVerdictStands(before: seq<Event>, after: seq<Event>)
    requires var w := Run(Initial, before); !Active(w.task) && w.task.state != Idle
    ensures var w, v := Run(Initial, before), Run(Run(Initial, before), after);
            && w.task.requestId in v.used
            && (v.task == w.task || v.task.requestId != w.task.requestId)
  {
    RecordIsUsed(before);
    if after != [] {
      FirstVerdictStands(before, after[..|after| - 1]);
      var w, u := Run(Initial, before), Run(Run(Initial, before), after[..|after| - 1]);
      RecordChangesHands(u, after[|after| - 1]);
      if u.task == w.task {
        ClosedRecordChanges(u, after[|after| - 1]);
      }
    }
  }

  /** The record of r was cancelled or replaced while it was open. */
  predicate Withdrawn(events: seq<Event>, r: RequestId) {
    events != [] &&
    var before, e := events[..|events| - 1], events[|events| - 1];
    Withdrawn(before, r) || Withdraws(Run(Initial, before), e, r)
  }

  /** A cancel, or the record of a refused request, that meets r's open record. */
  predicate Withdraws(w: World, e: Event, r: RequestId) {
    Owns(w, r) && (e.Cancel? || (e.Reject? && e.r !in w.used))
  }

  /** All the files of the request were pushed. */
  predicate Delivered(s: Sender) {
    Successes(s.log) == |s.files|
  }

  /** An open record that its own sender closes is completed if every file was pushed, and otherwise
      failed with what explains it. */
  predicate OwnVerdict(before: Transfer, after: Transfer, s: Sender) {
    && after == before.(state := after.state, reason := after.reason)
    && if Delivered(s) then after.state == Completed && after.reason == ""
       else after.state == Failed && Explains(s.log, after.reason)
  }

  lemma OwnVerdictIsExact(events: seq<Event>, e: Event)
    requires Own(e) && Owns(Run(Initial, events), e.r) && !Owns(Apply(Run(Initial, events), e), e.r)
    ensures var w, v := Run(Initial, events), Apply(Run(Initial, events), e);
            && e.r in v.senders && v.senders[e.r].pc.Done? && v.stop.None?
            && OwnVerdict(w.task, v.task, v.senders[e.r])
  {
    ReachableInv(events);
    OwnersStep(Run(Initial, events), e);
  }

  /** The owner's step leaves its record open and itself at work, or closes both with its verdict. */
  lemma OwnersStep(w: World, e: Event)
    requires Inv(w) && Own(e) && Owns(w, e.r)
    ensures var v := Apply(w, e);
            && e.r in v.senders
            && if v.senders[e.r].pc.Done? then v.stop.None? && OwnVerdict(w.task, v.task, v.senders[e.r])
               else Owns(v, e.r)
  {
    if e.CheckContext? || e.GiveUp? {
      OwnerChecksOrGivesUp(w, e);
    } else {
      OwnerGoesOn(w, e);
    }
  }

  lemma OwnerChecksOrGivesUp(w: World, e: Event)
    requires Inv(w) && (e.CheckContext? || e.GiveUp?) && Owns(w, e.r)
    ensures var v := Apply(w, e);
            && e.r in v.senders
            && if v.senders[e.r].pc.Done? then v.stop.None? && OwnVerdict(w.task, v.task, v.senders[e.r])
               else Owns(v, e.r)
  {
  }

  lemma OwnerGoesOn(w: World, e: Event)
    requires Inv(w) && Own(e) && !e.CheckContext? && !e.GiveUp? && Owns(w, e.r)
    ensures var v := Apply(w, e); e.r in v.senders && !v.senders[e.r].pc.Done? && Owns(v, e.r)
  {
  }

  /** A sender without the slot writes nothing, and one that has returned stays so. */
  lemma OthersStep(w: World, e: Event)
    requires Inv(w) && Own(e) && !Owns(w, e.r)
    ensures Apply(w, e).task == w.task && Apply(w, e).senders.Keys == w.senders.Keys
    ensures e.r in w.senders && w.senders[e.r].pc.Done? ==> Apply(w, e).senders == w.senders
  {
  }

  /** While a sender is at work its record is open in the slot unless it was withdrawn, and the record
      of one that has returned is completed if and only if every file was pushed and it was not withdrawn. */
  predicate VerdictOk(w: World, r: RequestId, withdrawn: bool) {
    if r !in w.senders then !withdrawn && (w.task.requestId == r ==> w.task.state != Completed)
    else
      && (Owns(w, r) <==> !w.senders[r].pc.Done? && !withdrawn)
      && (w.task.requestId == r ==> (w.task.state == Completed <==>
            w.senders[r].pc.Done? && Delivered(w.senders[r]) && !withdrawn))
  }

  lemma {:induction false} VerdictIsExact(events: seq<Event>, r: RequestId)
    ensures VerdictOk(Run(Initial, events), r, Withdrawn(events, r))
  {
    if events != [] {
      var before, e := events[..|events| - 1], events[|events| - 1];
      VerdictIsExact(before, r);
      ReachableInv(before);
      var w := Run(Initial, before);
      if Own(e) {
        SenderKeepsVerdict(w, e, r, Withdrawn(before, r));
      } else {
        SlotKeepsVerdict(w, e, r, Withdrawn(before, r));
      }
    }
  }

  lemma SenderKeepsVerdict(w: World, e: Event, r: RequestId, withdrawn: bool)
    requires Inv(w) && VerdictOk(w, r, withdrawn) && Own(e)
    ensures VerdictOk(Apply(w, e), r, withdrawn)
  {
    if r in w.senders {
      OnlyOwnStepsMove(w, e, r);
    }
    if Owns(w, e.r) {
      OwnersStep(w, e);
      OwnerKeepsTheSlot(w, e);
    } else {
      OthersStep(w, e);
      StepKeepsInv(w, e);
    }
  }

  /** What a send has come to: if its record was not withdrawn from it, completed if and only if every
      file was pushed and otherwise failed with what explains it; if it was, never completed. */
  predicate Concluded(task: Transfer, r: RequestId, s: Sender, withdrawn: bool) {
    && s.pc.Done?
    && if withdrawn then task.requestId == r ==> task.state != Completed
       else
         && task.requestId == r
         && if Delivered(s) then task.state == Completed && task.reason == "" && CompleteRecord(task, s)
            else task.state == Failed && Explains(s.log, task.reason)
  }

  /** The slot at the moment a sender returns. */
  lemma LastStepConcludes(events: seq<Event>, e: Event)
    requires var w, v := Run(Initial, events), Apply(Run(Initial, events), e);
             && Own(e) && e.r in w.senders && !w.senders[e.r].pc.Done?
             && e.r in v.senders && v.senders[e.r].pc.Done?
    ensures var v := Apply(Run(Initial, events), e);
            Concluded(v.task, e.r, v.senders[e.r], Withdrawn(events + [e], e.r))
    ensures Owns(Run(Initial, events), e.r) <==> !Withdrawn(events + [e], e.r)
  {
    var w := Run(Initial, events);
    ReachableInv(events);
    VerdictIsExact(events, e.r);
    assert (events + [e])[..|events|] == events;
    StepKeepsInv(w, e);
    if Owns(w, e.r) {
      OwnersStep(w, e);
      OwnerKeepsTheSlot(w, e);
    } else {
      SenderKeepsVerdict(w, e, e.r, Withdrawn(events, e.r));
    }
  }

  lemma OwnerKeepsTheSlot(w: World, e: Event)
    requires Own(e) && Owns(w, e.r)
    ensures Apply(w, e).task.requestId == e.r && Apply(w, e).senders.Keys == w.senders.Keys
  {
  }

  lemma SlotKeepsVerdict(w: World, e: Event, r: RequestId, withdrawn: bool)
    requires Inv(w) && VerdictOk(w, r, withdrawn) && !Own(e)
    ensures VerdictOk(Apply(w, e), r, withdrawn || Withdraws(w, e, r))
  {
    match e
    case Begin(_, _) => assert r in w.senders ==> r in w.used;
    case Reject(_, _, _, _) => assert r in w.senders ==> r in w.used;
    case Cancel(_) =>
    case CancelFires(_) =>
  }

  // ----------------------------------------------------------------- targets and cancelled contexts

  lemma TargetStays(w: World, e: Event, r: RequestId)
    requires r in w.senders && r in w.used && !w.senders[r].pc.LookingUp?
    ensures r in Apply(w, e).senders && r in Apply(w, e).used
    ensures Apply(w, e).senders[r].target == w.senders[r].target && !Apply(w, e).senders[r].pc.LookingUp?
  {
  }

  lemma {:induction false} TargetStaysOverRuns(w: World, events: seq<Event>, r: RequestId)
    requires r in w.senders && r in w.used && !w.senders[r].pc.LookingUp?
    ensures var v := Run(w, events);
            && r in v.senders && r in v.used
            && !v.senders[r].pc.LookingUp? && v.senders[r].target == w.senders[r].target
  {
    if events != [] {
      TargetStaysOverRuns(w, events[..|events| - 1], r);
      TargetStays(Run(w, events[..|events| - 1]), events[|events| - 1], r);
    }
  }

  lemma {:induction false} RunKeepsInv(w: World, events: seq<Event>)
    requires Inv(w)
    ensures Inv(Run(w, events))
  {
    if events != [] {
      RunKeepsInv(w, events[..|events| - 1]);
      StepKeepsInv(Run(w, events[..|events| - 1]), events[|events| - 1]);
    }
  }

  /** The record in the slot is that of r, on its way or completed. */
  predicate Sends(w: World, r: RequestId)
    requires r in w.senders
  {
    w.task.requestId == r && ((Active(w.task) && !w.senders[r].pc.Failing?) || w.task.state == Completed)
  }

  /** From the lookup on, and to the end, the record of a request names the target that was found. */
  lemma RecordNamesTheTarget(before: seq<Event>, r: RequestId, name: string, after: seq<Event>)
    requires var w := Run(Initial, before); r in w.senders && w.senders[r].pc.LookingUp?
    ensures var v := Run(Apply(Run(Initial, before), LookupReturns(r, Some(name))), after);
            r in v.senders && (Sends(v, r) ==> v.task.targetName == name)
  {
    ReachableInv(before);
    var w := Run(Initial, before);
    var found := Apply(w, LookupReturns(r, Some(name)));
    StepKeepsInv(w, LookupReturns(r, Some(name)));
    TargetStaysOverRuns(found, after, r);
    RunKeepsInv(found, after);
    NamesItsTarget(Run(found, after), r);
  }

  lemma NamesItsTarget(w: World, r: RequestId)
    requires Inv(w) && r in w.senders
    ensures Sends(w, r) ==> w.task.targetName == w.senders[r].target
  {
  }

  /** How many files a sender may have begun when its context is cancelled. */
  function Begun(s: Sender): nat {
    match s.pc
    case LookingUp => 0
    case NextFile(i) => i
    case Opening(i, _) => i + 1
    case Pushing(i, _, _) => i + 1
    case Pushed(i) => i + 1
    case Failing(_) => Successes(s.log)
    case Done => Successes(s.log)
  }

  /** Since the log had `known` entries, the sender has touched none but the first `bound` files. */
  predicate Within(s: Sender, known: nat, bound: nat) {
    Begun(s) <= bound && known <= |s.log| && forall j :: known <= j < |s.log| ==> s.log[j].file < bound
  }

  /** Cancelled, a sender pushes nothing but the file at hand. */
  predicate Winding(w: World, r: RequestId, known: nat, bound: nat) {
    r in w.used && r in w.cancelled && r in w.senders && Within(w.senders[r], known, bound)
  }

  lemma StepKeepsWinding(w: World, e: Event, r: RequestId, known: nat, bound: nat)
    requires Inv(w) && Winding(w, r, known, bound)
    ensures Winding(Apply(w, e), r, known, bound)
  {
    OnlyOwnStepsMove(w, e, r);
    NeverUncancelled(w, e);
    if Own(e) && e.r == r {
      assert SenderOk(w.senders[r]);
      if !e.PushReturns? {
        BeginsNothingNew(w, e);
      } else if w.senders[r].pc.Pushing? {
        PushStaysWithin(w.senders[r], e.error, known, bound);
      }
    }
  }

  lemma BeginsNothingNew(w: World, e: Event)
    requires Own(e) && !e.PushReturns? && e.r in w.senders && e.r in w.cancelled && SenderOk(w.senders[e.r])
    ensures e.r in Apply(w, e).senders
    ensures Begun(Apply(w, e).senders[e.r]) <= Begun(w.senders[e.r])
    ensures Apply(w, e).senders[e.r].log == w.senders[e.r].log
  {
  }

  lemma NeverUncancelled(w: World, e: Event)
    ensures w.cancelled <= Apply(w, e).cancelled && w.used <= Apply(w, e).used
  {
  }

  lemma PushStaysWithin(s: Sender, error: Option<PushError>, known: nat, bound: nat)
    requires SenderOk(s) && s.pc.Pushing? && Within(s, known, bound)
    ensures Within(AfterPush(s, s.pc.file, s.pc.attempt, error), known, bound)
  {
    LogGrows(s.log, |s.files|, Push(s.pc.file, s.pc.attempt, error));
  }

  /** Over any run, a sender whose context was cancelled pushes at most the file it had begun. */
  lemma {:induction false} CancelledSenderWindsUp(before: seq<Event>, after: seq<Event>, r: RequestId)
    requires var w := Run(Initial, before); r in w.senders && r in w.cancelled
    ensures var w, v := Run(Initial, before), Run(Run(Initial, before), after);
            && r in v.senders && |w.senders[r].log| <= |v.senders[r].log|
            && forall j :: |w.senders[r].log| <= j < |v.senders[r].log| ==>
                 v.senders[r].log[j].file < Begun(w.senders[r])
  {
    ReachableInv(before);
    var w := Run(Initial, before);
    WindingOverRuns(w, after, r, |w.senders[r].log|, Begun(w.senders[r]));
  }

  lemma {:induction false} WindingOverRuns(w: World, events: seq<Event>, r: RequestId, known: nat, bound: nat)
    requires Inv(w) && Winding(w, r, known, bound)
    ensures Winding(Run(w, events), r, known, bound)
  {
    if events != [] {
      var before := events[..|events| - 1];
      WindingOverRuns(w, before, r, known, bound);
      RunKeepsInv(w, before);
      StepKeepsWinding(Run(w, before), events[|events| - 1], r, known, bound);
    }
  }

  /** A sender that has lost the slot, to a cancel or to another request's record, never writes it again. */
  lemma {:induction false} LostSlotStaysLost(before: seq<Event>, after: seq<Event>, r: RequestId)
    requires var w := Run(Initial, before); r in w.used && !Owns(w, r)
    ensures var v := Run(Run(Initial, before), after); r in v.used && !Owns(v, r)
  {
    if after != [] {
      LostSlotStaysLost(before, after[..|after| - 1], r);
      StepKeepsLost(Run(Run(Initial, before), after[..|after| - 1]), after[|after| - 1], r);
    }
  }

  lemma StepKeepsLost(w: World, e: Event, r: RequestId)
    requires r in w.used && !Owns(w, r)
    ensures r in Apply(w, e).used && !Owns(Apply(w, e), r)
  {
  }

  /** Cancelling reaches the open transfer: its record fails at once and its own context is cancelled
      as soon as the captured cancel function is called. */
  lemma CancelReachesTheOwner(events: seq<Event>, why: string)
    requires Active(Run(Initial, events).task)
    ensures var w := Run(Initial, events);
            var v := Apply(w, Cancel(why));
            && v.task == w.task.(state := Failed, reason := why)
            && v.stop.None? && w.task.requestId in v.pendingCancels
            && w.task.requestId in Apply(v, CancelFires(w.task.requestId)).cancelled
  {
    ReachableInv(events);
  }
}
