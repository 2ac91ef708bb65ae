/** What becomes of a tracked transfer's record: the verdict is the transfer's own unless it is withdrawn. */
module TaildriveVerdicts {
  import opened Wrappers
  import opened TaildriveTransfers
  import opened TaildriveTransferProofs
  import opened TaildriveTransferTheorems

  /** The events that only the goroutine of a transfer takes. */
  predicate Private(e: Event) {
    e.Begin? || e.Respond? || e.Step? || e.Chunk? || e.CopyEnds? || e.Send? || e.UploadAnswered?
  }

  lemma OthersLeaveTransferAlone(w: World, e: Event, r: RequestId)
    requires r in w.transfers && !e.Crash? && (Private(e) ==> e.r != r)
    ensures r in Apply(w, e).transfers && Apply(w, e).transfers[r] == w.transfers[r]
  {
    if e.Step? && e.r in w.transfers {
      StepMovesOneTransfer(w, e.r, e.fault);
    }
  }

  /** The transfer has given its verdict and is over but for the removal of its temporary file. */
  predicate Closed(pc: Pc) {
    Ended(pc) || pc.Removing?
  }

  /** A download has published its file, or the server has taken an upload. */
  predicate Succeeded(t: Transfer) {
    if t.kind == Upload then t.answered else t.published
  }

  /** An open record is cancelled, or lost in a crash. */
  predicate Withdraws(w: World, e: Event, r: RequestId) {
    Owns(w, r) && (e.Cancel? || e.Crash?)
  }

  /** The record of r was cancelled or lost while it was open. */
  predicate Withdrawn(events: seq<Event>, r: RequestId) {
    events != []
    && var before, e := events[..|events| - 1], events[|events| - 1];
       Withdrawn(before, r) || Withdraws(Run(Initial, before), e, r)
  }

  // ------------------------------------------------------------------ one step

  predicate Works(e: Event) {
    Private(e) && !e.Begin?
  }

  /** What the step that closes a record fails with. */
  predicate FailsWith(t: Transfer, e: Event, reason: string) {
    match t.pc
    case Failing(why) => reason == why
    case Aborting(why) => reason == why
    case Uploading => e.UploadAnswered? && e.fault == Some(reason)
    case _ => false
  }

  /** An open record that its own transfer closes is completed if that succeeded, and otherwise failed. */
  predicate OwnVerdict(w: World, v: World, e: Event)
    requires Works(e) && e.r in w.transfers && e.r in v.transfers
  {
    && v.stop.None? && v.task == w.task.(state := v.task.state, reason := v.task.reason)
    && if Succeeded(v.transfers[e.r]) then v.task.state == Completed && v.task.reason == ""
       else v.task.state == Failed && FailsWith(w.transfers[e.r], e, v.task.reason)
  }

  /** The owner's step leaves its record open and itself at work, or closes both with its verdict. */
  lemma OwnersStep(w: World, e: Event)
    requires Inv(w) && Works(e) && Owns(w, e.r)
    ensures var v := Apply(w, e);
            && e.r in w.transfers && e.r in v.transfers && v.task.requestId == e.r
            && if Closed(v.transfers[e.r].pc) then OwnVerdict(w, v, e) else Owns(v, e.r)
  {
    assert TransferOk(w.transfers[e.r]);
    if e.Step? {
      OwnersCall(w, e.r, e.fault);
    }
  }

  lemma OwnersCall(w: World, r: RequestId, fault: Option<string>)
    requires TransfersOk(w) && SlotOk(w) && Owns(w, r)
    ensures var v := StepStep(w, r, fault);
            && r in w.transfers && r in v.transfers && v.task.requestId == r
            && if Closed(v.transfers[r].pc) then OwnVerdict(w, v, Step(r, fault)) else Owns(v, r)
  {
    assert TransferOk(w.transfers[r]);
  }

  /** A transfer that does not own the slot writes nothing there, and one that is over stays so. */
  lemma OthersStep(w: World, e: Event)
    requires Works(e) && !Owns(w, e.r)
    ensures Apply(w, e).task == w.task && Apply(w, e).transfers.Keys == w.transfers.Keys
  {
  }

  lemma OverStaysOver(w: World, e: Event)
    requires TransfersOk(w) && Works(e) && e.r in w.transfers && Closed(w.transfers[e.r].pc)
    ensures e.r in Apply(w, e).transfers && Closed(Apply(w, e).transfers[e.r].pc)
    ensures Succeeded(Apply(w, e).transfers[e.r]) == Succeeded(w.transfers[e.r])
  {
    assert TransferOk(w.transfers[e.r]);
    if e.Step? {
      StepLeadsOn(w, e.r, e.fault);
      StepMovesOneTransfer(w, e.r, e.fault);
    }
  }

  // ------------------------------------------------------------------ file system calls

  /** Where a file system call that succeeds leads. */
  function NextPc(t: Transfer): Pc {
    match t.pc
    case CheckingDestination => if t.kind == Staging then Creating else CheckingTemporary
    case CheckingTemporary => Creating
    case Creating => Copying
    case Syncing => Closing
    case Closing => Renaming
    case Renaming => Published
    case pc => pc
  }

  predicate CallsFiles(pc: Pc) {
    && (pc == CheckingDestination || pc == CheckingTemporary || pc == Creating
        || pc == Syncing || pc == Closing || pc == Renaming)
  }

  /** A name that the next call needs to be free is taken. */
  predicate Blocked(names: map<Path, Node>, t: Transfer) {
    || (t.pc == CheckingDestination && t.destination in names)
    || ((t.pc == CheckingTemporary || t.pc == Creating) && Temporary(t) in names)
  }

  predicate Taken(w: World, r: RequestId) {
    r in w.transfers && Blocked(w.names, w.transfers[r])
  }

  /** A call leads on if and only if it meets no fault and no taken name. */
  lemma CallSucceedsExactlyWhenFree(events: seq<Event>, r: RequestId, fault: Option<string>)
    requires var w := Run(Initial, events); r in w.transfers && CallsFiles(w.transfers[r].pc)
    ensures var w := Run(Initial, events);
            At(Apply(w, Step(r, fault)), r, NextPc(w.transfers[r])) <==> fault.None? && !Taken(w, r)
  {
    var w := Run(Initial, events);
    ReachableInv(events);
    assert TransferOk(w.transfers[r]);
    assert w.transfers[r].pc == Renaming ==> TemporaryOk(w, r);
  }

  /** At some point of the run, a call of r found a name taken that it needed free. */
  predicate NameTaken(events: seq<Event>, r: RequestId) {
    events != []
    && var before, e := events[..|events| - 1], events[|events| - 1];
       NameTaken(before, r) || (e == Step(r, None) && Taken(Run(Initial, before), r))
  }

  lemma NameTakenOneMore(events: seq<Event>, e: Event, r: RequestId)
    ensures NameTaken(events + [e], r) <==>
              NameTaken(events, r) || (e == Step(r, None) && Taken(Run(Initial, events), r))
  {
    assert (events + [e])[..|events|] == events;
  }

  lemma {:induction false} NotBegunNotTaken(events: seq<Event>, r: RequestId)
    requires r !in Run(Initial, events).transfers
    ensures !NameTaken(events, r)
  {
    if events != [] {
      var before, e := events[..|events| - 1], events[|events| - 1];
      if r in Run(Initial, before).transfers {
        SameFile(Run(Initial, before), e, r);
      }
      NotBegunNotTaken(before, r);
    }
  }

  // ------------------------------------------------------------------ whole runs

  /** While a tracked transfer is at work its record is open in the slot unless it was withdrawn, and the
      record of one that is over is completed if and only if it succeeded and was not withdrawn. */
  predicate VerdictOk(w: World, r: RequestId, withdrawn: bool) {
    if r !in w.transfers || !Tracked(w.transfers[r].kind) then !withdrawn && (r != 0 ==> w.task.requestId != r)
    else
      && (Owns(w, r) <==> !Closed(w.transfers[r].pc) && !withdrawn)
      && (w.task.requestId == r ==> (w.task.state == Completed <==>
            Closed(w.transfers[r].pc) && Succeeded(w.transfers[r]) && !withdrawn))
  }

  lemma {:induction false} VerdictIsExact(events: seq<Event>, r: RequestId)
    ensures VerdictOk(Run(Initial, events), r, Withdrawn(events, r))
  {
    if events != [] {
      var before, e := events[..|events| - 1], events[|events| - 1];
      VerdictIsExact(before, r);
      ReachableInv(before);
      if Works(e) {
        TransferKeepsVerdict(Run(Initial, before), e, r, Withdrawn(before, r));
      } else {
        SlotKeepsVerdict(Run(Initial, before), e, r, Withdrawn(before, r));
      }
    }
  }

  lemma TransferKeepsVerdict(w: World, e: Event, r: RequestId, withdrawn: bool)
    requires Inv(w) && VerdictOk(w, r, withdrawn) && Works(e)
    ensures VerdictOk(Apply(w, e), r, withdrawn)
  {
    if r in w.transfers && r != e.r {
      OthersLeaveTransferAlone(w, e, r);
    }
    if Owns(w, e.r) {
      OwnersStep(w, e);
      SameFile(w, e, e.r);
      OwnerAddsNobody(w, e);
    } else {
      OthersStep(w, e);
      StepKeepsInv(w, e);
      if e.r in w.transfers {
        SameFile(w, e, e.r);
        if Closed(w.transfers[e.r].pc) {
          OverStaysOver(w, e);
        }
      }
    }
  }

  lemma OwnerAddsNobody(w: World, e: Event)
    requires Works(e)
    ensures Apply(w, e).transfers.Keys == w.transfers.Keys
  {
  }

  lemma SlotKeepsVerdict(w: World, e: Event, r: RequestId, withdrawn: bool)
    requires Inv(w) && VerdictOk(w, r, withdrawn) && !Works(e)
    ensures VerdictOk(Apply(w, e), r, withdrawn || Withdraws(w, e, r))
  {
    match e
    case Begin(_, _, _, _) =>
    case Cancel(_) =>
    case Crash =>
    case OtherFile(_, _) =>
  }

  /** What a caller is told of a transfer that is over: its success or failure, unless its record was
      withdrawn from it, and then never a success. */
  predicate Told(snapshot: Snapshot, r: RequestId, t: Transfer, withdrawn: bool) {
    && Closed(t.pc)
    && if withdrawn then snapshot.requestId == r ==> snapshot.state != Completed
       else
         && snapshot.requestId == r
         && if Succeeded(t) then snapshot.state == Completed && snapshot.reason == "" else snapshot.state == Failed
  }

  /** The step with which a transfer gives its verdict. */
  predicate Concludes(w: World, e: Event)
    requires Works(e)
  {
    && e.r in w.transfers && !Closed(w.transfers[e.r].pc)
    && e.r in Apply(w, e).transfers && Closed(Apply(w, e).transfers[e.r].pc)
  }

  lemma LastStepTells(events: seq<Event>, e: Event)
    requires Works(e) && Concludes(Run(Initial, events), e) && Tracked(Run(Initial, events).transfers[e.r].kind)
    ensures var w, v := Run(Initial, events), Apply(Run(Initial, events), e);
            && Told(v.task, e.r, v.transfers[e.r], Withdrawn(events + [e], e.r)) && !Owns(v, e.r)
            && (Owns(w, e.r) <==> !Withdrawn(events + [e], e.r))
            && (Owns(w, e.r) && v.task.state == Failed ==> FailsWith(w.transfers[e.r], e, v.task.reason))
  {
    var w := Run(Initial, events);
    ReachableInv(events);
    VerdictIsExact(events, e.r);
    assert (events + [e])[..|events|] == events;
    TransferKeepsVerdict(w, e, e.r, Withdrawn(events, e.r));
    SameFile(w, e, e.r);
    if Owns(w, e.r) {
      OwnersStep(w, e);
    }
  }

  lemma UntrackedIsNotWithdrawn(events: seq<Event>, e: Event, r: RequestId)
    requires r in Run(Initial, events).transfers && !Tracked(Run(Initial, events).transfers[r].kind)
    ensures !Withdrawn(events + [e], r) && !Owns(Apply(Run(Initial, events), e), r)
  {
    assert (events + [e])[..|events|] == events;
    ReachableInv(events);
    ReachableInv(events + [e]);
    SameFile(Run(Initial, events), e, r);
    VerdictIsExact(events + [e], r);
  }

  /** A record that is no longer its request's, or closed, cannot be withdrawn any more. */
  lemma {:induction false} WithdrawnIsSettled(before: seq<Event>, after: seq<Event>, r: RequestId)
    requires before <= after && r in Run(Initial, before).transfers && !Owns(Run(Initial, before), r)
    ensures Withdrawn(after, r) == Withdrawn(before, r) && r in Run(Initial, after).transfers
    ensures !Owns(Run(Initial, after), r)
    decreases |after|
  {
    if |before| < |after| {
      var prefix, e := after[..|after| - 1], after[|after| - 1];
      assert before <= prefix;
      WithdrawnIsSettled(before, prefix, r);
      ReachableInv(prefix);
      SameFile(Run(Initial, prefix), e, r);
      LostSlot(Run(Initial, prefix), e, r);
    } else {
      assert before == after;
    }
  }
}
