/** What every run of Taildrive transfers and Taildrop staging guarantees of the slot and of the files. */
module TaildriveTransferTheorems {
  import opened Wrappers
  import opened TaildriveTransfers
  import opened TaildriveTransferProofs

  // ------------------------------------------------------------------ the slot

  /** What a "completed" record says. */
  lemma CompletedRecordTellsTheLength(events: seq<Event>)
    requires Run(Initial, events).task.state == Completed
    ensures var w := Run(Initial, events);
            w.task.requestId in w.transfers && CompleteRecord(w.task, w.transfers[w.task.requestId])
  {
    ReachableInv(events);
  }

  /** The cancel function in the slot is that of the open record, and there is one exactly then. */
  lemma StopBelongsToTheRecord(events: seq<Event>, r: RequestId)
    ensures var w := Run(Initial, events); w.stop == Some(r) <==> Owns(w, r)
  {
    ReachableInv(events);
  }

  /** Manual downloads and staged files never touch the slot, from their beginning on. */
  lemma UntrackedLeavesTheSlot(w: World, e: Event, r: RequestId)
    requires e.Begin? || e.Respond? || e.Step? || e.Chunk? || e.CopyEnds? || e.Send? || e.UploadAnswered?
    requires e.r == r && (r in w.transfers ==> !Tracked(w.transfers[r].kind))
    requires e.Begin? ==> !Tracked(e.kind)
    ensures Apply(w, e).task == w.task && Apply(w, e).stop == w.stop
  {
  }

  /** The slot passes to a request only by its own beginning, and is nobody's after a crash. */
  lemma SlotChangesHands(w: World, e: Event)
    ensures var id := Apply(w, e).task.requestId;
            id == w.task.requestId || id == 0 || (e.Begin? && id == e.r && e.r !in w.transfers)
  {
  }

  lemma ClosedRecordChanges(w: World, e: Event)
    requires !Active(w.task)
    ensures var v := Apply(w, e);
            v.task == w.task || v.task == NoTransfer || (e.Begin? && e.r !in w.transfers && v.task.requestId == e.r)
  {
  }

  lemma {:induction false} TransfersStay(w: World, events: seq<Event>, r: RequestId)
    requires r in w.transfers
    ensures r in Run(w, events).transfers && Run(w, events).transfers[r].kind == w.transfers[r].kind
  {
    if events != [] {
      TransfersStay(w, events[..|events| - 1], r);
      SameFile(Run(w, events[..|events| - 1]), events[|events| - 1], r);
    }
  }

  /** The first verdict on a request stands until another request, or a crash, takes the slot. */
  lemma {:induction false} FirstVerdictStands(w: World, events: seq<Event>)
    requires SlotOk(w) && !Active(w.task) && w.task.state != Idle
    ensures Run(w, events).task == w.task || Run(w, events).task.requestId != w.task.requestId
  {
    if events != [] {
      var before, e := Run(w, events[..|events| - 1]), events[|events| - 1];
      FirstVerdictStands(w, events[..|events| - 1]);
      TransfersStay(w, events[..|events| - 1], w.task.requestId);
      SlotChangesHands(before, e);
      if before.task == w.task {
        ClosedRecordChanges(before, e);
      }
    }
  }

  lemma LostSlot(w: World, e: Event, r: RequestId)
    requires r in w.transfers && r != 0 && !Owns(w, r)
    ensures !Owns(Apply(w, e), r)
  {
    SlotChangesHands(w, e);
    if w.task.requestId == r {
      ClosedRecordChanges(w, e);
    }
  }

  lemma OpenSlotKeepsOthersOut(w: World, e: Event, r: RequestId, s: RequestId)
    requires Owns(w, r) && s in Apply(w, e).transfers && s !in w.transfers
    ensures !Tracked(Apply(w, e).transfers[s].kind)
  {
  }

  /** While a request's record stays open, whatever runs, no other tracked transfer begins. */
  lemma {:induction false} BusySlotTurnsAway(w: World, events: seq<Event>, r: RequestId, s: RequestId)
    requires SlotOk(w) && Owns(w, r) && Owns(Run(w, events), r)
    requires s in Run(w, events).transfers && s !in w.transfers
    ensures !Tracked(Run(w, events).transfers[s].kind)
  {
    if events != [] {
      var before, e := Run(w, events[..|events| - 1]), events[|events| - 1];
      TransfersStay(w, events[..|events| - 1], r);
      if !Owns(before, r) {
        LostSlot(before, e, r);
      }
      if s in before.transfers {
        BusySlotTurnsAway(w, events[..|events| - 1], r, s);
        SameFile(before, e, s);
      } else {
        OpenSlotKeepsOthersOut(before, e, r, s);
      }
    }
  }

  // ------------------------------------------------------------------ whole files

  predicate Whole(t: Transfer) {
    t.sealed && (t.declared.Some? ==> |t.content| == t.declared.value)
  }

  /** With a fault or crash at any point, and whatever names the transfers use: a transfer's file found
      under any name is whole, or it is an unfinished transfer's file under its own temporary name. */
  lemma EveryFileIsWholeOrUnfinished(events: seq<Event>, path: Path)
    requires var w := Run(Initial, events); path in w.names && w.names[path].Own?
    ensures var w := Run(Initial, events);
            && w.names[path].r in w.transfers
            && var author := w.transfers[w.names[path].r]; Whole(author) || Unfinished(path, author)
  {
    var w := Run(Initial, events);
    ReachableInv(events);
    assert NameOk(w, path, w.names[path].r);
    assert TransferOk(w.transfers[w.names[path].r]);
  }

  /** A transfer that has ended, short of a crash or a failed removal, leaves no temporary file. */
  lemma NothingLeftBehind(events: seq<Event>, r: RequestId, path: Path)
    requires var w := Run(Initial, events);
             r in w.transfers && w.transfers[r].pc.Done? && path in w.names && w.names[path] == Own(r)
    ensures var t := Run(Initial, events).transfers[r]; Whole(t) && path != Temporary(t)
  {
    ReachableInv(events);
    assert NameOk(Run(Initial, events), path, r);
    assert TransferOk(Run(Initial, events).transfers[r]);
  }

  // ------------------------------------------------------------------ one's own file

  /** A transfer renames its file over the temporary file of r while r is at work on it. */
  predicate Intrudes(w: World, e: Event, r: RequestId) {
    && e.Step? && e.fault.None? && e.r != r && At(w, e.r, Renaming)
    && r in w.transfers && Holding(w.transfers[r].pc)
    && w.transfers[e.r].destination == Temporary(w.transfers[r])
  }

  predicate Intruded(events: seq<Event>, r: RequestId) {
    events != []
    && var before, e := events[..|events| - 1], events[|events| - 1];
       Intruded(before, r) || Intrudes(Run(Initial, before), e, r)
  }

  /** The destination leads to the transfer's own file. */
  predicate Named(w: World, r: RequestId) {
    && r in w.transfers && w.transfers[r].sealed
    && w.transfers[r].destination in w.names && w.names[w.transfers[r].destination] == Own(r)
  }

  predicate HoldsName(w: World, r: RequestId)
    requires r in w.transfers
  {
    var temporary := Temporary(w.transfers[r]);
    temporary in w.names && w.names[temporary] == Own(r)
  }

  /** Not yet at work on a temporary file. */
  predicate NotAtWork(w: World, r: RequestId) {
    r in w.transfers ==> Early(w.transfers[r].pc) || w.transfers[r].kind == Upload
  }

  lemma WorkStaysBehind(w: World, e: Event, r: RequestId)
    requires TransfersOk(w) && r in w.transfers && Writes(w.transfers[r]) && !Early(w.transfers[r].pc)
    ensures r in Apply(w, e).transfers && !NotAtWork(Apply(w, e), r)
  {
    SameFile(w, e, r);
    if e.Step? && e.r in w.transfers {
      StepMovesOneTransfer(w, e.r, e.fault);
      StepLeadsOn(w, e.r, e.fault);
    }
  }

  lemma {:induction false} NotAtWorkNotIntruded(events: seq<Event>, r: RequestId)
    requires NotAtWork(Run(Initial, events), r)
    ensures !Intruded(events, r)
  {
    if events != [] {
      var before := events[..|events| - 1];
      ReachableInv(before);
      if !NotAtWork(Run(Initial, before), r) {
        WorkStaysBehind(Run(Initial, before), events[|events| - 1], r);
      } else {
        NotAtWorkNotIntruded(before, r);
        NotAtWorkNotHolding(Run(Initial, before), r);
      }
    }
  }

  lemma NotAtWorkNotHolding(w: World, r: RequestId)
    requires TransfersOk(w) && NotAtWork(w, r)
    ensures r in w.transfers ==> !Holding(w.transfers[r].pc)
  {
    assert r in w.transfers ==> TransferOk(w.transfers[r]);
  }

  /** An intruding rename takes the name away; no other event does while the transfer is at work. */
  lemma OnlyIntrusionTakesTheName(w: World, e: Event, r: RequestId)
    requires TransfersOk(w) && FilesOk(w) && r in w.transfers && Holding(w.transfers[r].pc)
    requires r in Apply(w, e).transfers && Holding(Apply(w, e).transfers[r].pc)
    ensures HoldsName(Apply(w, e), r) <==> HoldsName(w, r) && !Intrudes(w, e, r)
  {
    SameFile(w, e, r);
    assert TemporaryOk(w, r);
    match e
    case Step(s, fault) =>
      if s in w.transfers {
        StepMovesOneTransfer(w, s, fault);
        CallTakesName(w, s, fault, r);
      }
    case OtherFile(_, _) =>
    case _ => OnlyCallsAndOthersName(w, e);
  }

  lemma OnlyCallsAndOthersName(w: World, e: Event)
    requires !e.Step? && !e.OtherFile?
    ensures Apply(w, e).names == w.names
  {
  }

  lemma CallTakesName(w: World, s: RequestId, fault: Option<string>, r: RequestId)
    requires TransfersOk(w) && FilesOk(w) && r in w.transfers && Holding(w.transfers[r].pc) && s in w.transfers
    requires TemporaryOk(w, r)
    requires var v := StepStep(w, s, fault);
             r in v.transfers && Holding(v.transfers[r].pc) && Temporary(v.transfers[r]) == Temporary(w.transfers[r])
    ensures HoldsName(StepStep(w, s, fault), r) <==> HoldsName(w, r) && !Intrudes(w, Step(s, fault), r)
  {
    if At(w, s, Renaming) && fault.None? {
      if s == r {
        StepLeadsOn(w, s, fault);
        assert false;
      }
      RenameTakesName(w, s, r);
    } else {
      CallTouchesItsTemporary(w, s, fault);
      assert s != r && Holding(w.transfers[s].pc) ==> Temporary(w.transfers[s]) != Temporary(w.transfers[r]);
    }
  }

  /** Renames apart, a call touches at most the transfer's own temporary name, and that only to create the
      file, where there is none, or to remove it. */
  lemma CallTouchesItsTemporary(w: World, s: RequestId, fault: Option<string>)
    requires s in w.transfers && !(At(w, s, Renaming) && fault.None?)
    ensures var v, t := StepStep(w, s, fault), w.transfers[s];
            || v.names == w.names
            || (t.pc == Creating && Temporary(t) !in w.names && v.names == w.names[Temporary(t) := Own(s)])
            || (t.pc == Removing && v.names == w.names - {Temporary(t)} && At(v, s, Done))
  {
  }

  lemma RenameTakesName(w: World, s: RequestId, r: RequestId)
    requires FilesOk(w) && At(w, s, Renaming) && r in w.transfers && Holding(w.transfers[r].pc) && r != s
    requires TemporaryOk(w, r)
    ensures var v := RenameStep(w, s, None);
            && r in v.transfers && v.transfers[r] == w.transfers[r]
            && (HoldsName(v, r) <==> HoldsName(w, r) && w.transfers[s].destination != Temporary(w.transfers[r]))
  {
    assert TemporaryOk(w, s);
  }

  lemma CreationTakesTheName(w: World, e: Event, r: RequestId)
    requires TransfersOk(w) && (r in w.transfers ==> !Holding(w.transfers[r].pc))
    requires r in Apply(w, e).transfers && Holding(Apply(w, e).transfers[r].pc)
    ensures HoldsName(Apply(w, e), r) && NotAtWork(w, r)
  {
    CreationIsACall(w, e, r);
  }

  lemma CreationIsACall(w: World, e: Event, r: RequestId)
    requires TransfersOk(w) && (r in w.transfers ==> !Holding(w.transfers[r].pc))
    requires r in Apply(w, e).transfers && Holding(Apply(w, e).transfers[r].pc)
    ensures e == Step(r, None) && At(w, r, Creating)
  {
    if !e.Step? {
      OnlyCallsTakeNames(w, e, r);
    } else if e.r in w.transfers {
      StepMovesOneTransfer(w, e.r, e.fault);
      StepLeadsOn(w, e.r, e.fault);
    }
  }

  lemma OnlyCallsTakeNames(w: World, e: Event, r: RequestId)
    requires !e.Step? && r in Apply(w, e).transfers && Holding(Apply(w, e).transfers[r].pc)
    ensures r in w.transfers && Holding(w.transfers[r].pc)
  {
  }

  /** At work, a transfer has its temporary name to itself exactly as long as no other one intrudes. */
  lemma {:induction false} HoldsNameUnlessIntruded(events: seq<Event>, r: RequestId)
    requires var w := Run(Initial, events); r in w.transfers && Holding(w.transfers[r].pc)
    ensures HoldsName(Run(Initial, events), r) <==> !Intruded(events, r)
  {
    var prefix, e := events[..|events| - 1], events[|events| - 1];
    var before := Run(Initial, prefix);
    ReachableInv(prefix);
    if r in before.transfers && Holding(before.transfers[r].pc) {
      HoldsNameUnlessIntruded(prefix, r);
      OnlyIntrusionTakesTheName(before, e, r);
    } else {
      CreationTakesTheName(before, e, r);
      NotAtWorkNotIntruded(prefix, r);
    }
  }

  /** The transfer renames its file, and its destination then leads to that very file. */
  predicate RenamesItsOwn(w: World, e: Event, r: RequestId, content: seq<byte>) {
    e == Step(r, None) && At(w, r, Renaming) && w.transfers[r].content == content && Named(Apply(w, e), r)
  }

  /** At some point of the run, the transfer published its own file under its own name. */
  predicate PublishedItsOwn(events: seq<Event>, r: RequestId, content: seq<byte>) {
    events != []
    && var before, e := events[..|events| - 1], events[|events| - 1];
       PublishedItsOwn(before, r, content) || RenamesItsOwn(Run(Initial, before), e, r, content)
  }

  lemma RenameNamesWhatItHeld(w: World, r: RequestId)
    requires Inv(w) && At(w, r, Renaming)
    ensures Named(StepStep(w, r, None), r) <==> HoldsName(w, r)
    ensures At(StepStep(w, r, None), r, Published) && StepStep(w, r, None).transfers[r].published
    ensures StepStep(w, r, None).transfers[r].content == w.transfers[r].content
  {
    assert TemporaryOk(w, r) && TransferOk(w.transfers[r]);
  }

  /** What a sealed or published transfer never loses. */
  lemma SealedContentIsFinal(w: World, e: Event, r: RequestId)
    requires TransfersOk(w) && r in w.transfers && w.transfers[r].sealed
    ensures r in Apply(w, e).transfers && Apply(w, e).transfers[r].content == w.transfers[r].content
    ensures w.transfers[r].published ==> Apply(w, e).transfers[r].published
  {
    if e.Step? && e.r in w.transfers {
      StepMovesOneTransfer(w, e.r, e.fault);
    }
  }

  lemma PublishedNow(w: World, e: Event, r: RequestId)
    requires TransfersOk(w) && r in Apply(w, e).transfers && Apply(w, e).transfers[r].published
    requires r in w.transfers ==> !w.transfers[r].published
    ensures e == Step(r, None) && At(w, r, Renaming)
  {
    if !e.Step? {
      OnlyCallsPublish(w, e, r);
    } else if e.r in w.transfers {
      StepMovesOneTransfer(w, e.r, e.fault);
    }
  }

  lemma OnlyCallsPublish(w: World, e: Event, r: RequestId)
    requires !e.Step? && r in Apply(w, e).transfers && Apply(w, e).transfers[r].published
    ensures r in w.transfers && w.transfers[r].published
  {
  }

  lemma {:induction false} OwnMeansPublished(events: seq<Event>, r: RequestId, content: seq<byte>)
    requires PublishedItsOwn(events, r, content)
    ensures r in Run(Initial, events).transfers && Run(Initial, events).transfers[r].published
  {
    var prefix, e := events[..|events| - 1], events[|events| - 1];
    ReachableInv(prefix);
    if PublishedItsOwn(prefix, r, content) {
      OwnMeansPublished(prefix, r, content);
      assert TransferOk(Run(Initial, prefix).transfers[r]);
      SealedContentIsFinal(Run(Initial, prefix), e, r);
    } else {
      RenameNamesWhatItHeld(Run(Initial, prefix), r);
    }
  }

  /** In every run, a published transfer published its own file, with the content it still has and under
      its own name, if and only if no other one renamed over its temporary file while it was at work. */
  lemma {:induction false} PublishedUnlessIntruded(events: seq<Event>, r: RequestId)
    requires var w := Run(Initial, events); r in w.transfers && w.transfers[r].published
    ensures PublishedItsOwn(events, r, Run(Initial, events).transfers[r].content) <==> !Intruded(events, r)
  {
    var prefix, e := events[..|events| - 1], events[|events| - 1];
    var before, content := Run(Initial, prefix), Run(Initial, events).transfers[r].content;
    ReachableInv(prefix);
    if r in before.transfers && before.transfers[r].published {
      assert TransferOk(before.transfers[r]);
      SealedContentIsFinal(before, e, r);
      PublishedUnlessIntruded(prefix, r);
    } else {
      PublishedNow(before, e, r);
      RenameNamesWhatItHeld(before, r);
      HoldsNameUnlessIntruded(prefix, r);
      if PublishedItsOwn(prefix, r, content) {
        OwnMeansPublished(prefix, r, content);
      }
    }
  }

  /** So it is for a preview whose record says "completed". */
  lemma CompletedMeansPublished(events: seq<Event>)
    requires Run(Initial, events).task.state == Completed && Run(Initial, events).task.kind == Preview
    ensures var w := Run(Initial, events);
            && w.task.requestId in w.transfers
            && var content := w.transfers[w.task.requestId].content;
               && w.task.bytes == |content|
               && (PublishedItsOwn(events, w.task.requestId, content) <==> !Intruded(events, w.task.requestId))
  {
    ReachableInv(events);
    PublishedUnlessIntruded(events, Run(Initial, events).task.requestId);
  }
}
