/** What holds of the transfer slot and of the files, in every interleaving. */
module TaildriveTransferProofs {
  import opened Wrappers
  import opened TaildriveTransfers

  // ------------------------------------------------------------------ transfers

  lemma SameFile(w: World, e: Event, r: RequestId)
    requires r in w.transfers
    ensures r in Apply(w, e).transfers
    ensures Apply(w, e).transfers[r].kind == w.transfers[r].kind
    ensures Apply(w, e).transfers[r].destination == w.transfers[r].destination
  {
    if e.Step? && e.r in w.transfers {
      StepMovesOneTransfer(w, e.r, e.fault);
    }
  }

  /** One transfer has moved; nothing else about any has changed, but that a rename publishes. */
  predicate Moves(w: World, v: World, r: RequestId, renaming: bool)
    requires r in w.transfers
  {
    && r in v.transfers && v.transfers == w.transfers[r := v.transfers[r]]
    && var t := v.transfers[r];
       && t == w.transfers[r].(pc := t.pc, published := t.published)
       && (t.published == w.transfers[r].published || (renaming && t.pc == Published))
  }

  lemma GotoMoves(w: World, v: World, r: RequestId, pc: Pc)
    requires r in w.transfers && v.transfers == w.transfers
    ensures Moves(w, Goto(v, r, pc), r, false)
  {
  }

  lemma RenameMoves(w: World, r: RequestId, fault: Option<string>)
    requires r in w.transfers
    ensures Moves(w, RenameStep(w, r, fault), r, fault.None?)
  {
  }

  lemma CheckMoves(w: World, r: RequestId, fault: Option<string>, path: Path, next: Pc)
    requires r in w.transfers
    ensures Moves(w, CheckStep(w, r, fault, path, next), r, false)
    ensures Moves(w, CreateStep(w, r, fault), r, false) && Moves(w, RemoveStep(w, r, fault), r, false)
  {
  }

  lemma FinishMoves(w: World, r: RequestId, state: State, reason: string, pc: Pc)
    requires r in w.transfers
    ensures Moves(w, Goto(Finish(w, r, state, reason), r, pc), r, false)
  {
    GotoMoves(w, Finish(w, r, state, reason), r, pc);
  }

  /** A file system call moves its own transfer and changes nothing else about any. */
  lemma StepMovesOneTransfer(w: World, r: RequestId, fault: Option<string>)
    requires r in w.transfers
    ensures Moves(w, StepStep(w, r, fault), r, At(w, r, Renaming) && fault.None?)
  {
    match w.transfers[r].pc
    case CheckingDestination =>
      var next := if w.transfers[r].kind == Staging then Creating else CheckingTemporary;
      CheckMoves(w, r, fault, w.transfers[r].destination, next);
    case CheckingTemporary | Creating | Removing => CheckMoves(w, r, fault, Temporary(w.transfers[r]), Creating);
    case Syncing | Closing => GotoMoves(w, w, r, StepStep(w, r, fault).transfers[r].pc);
    case Renaming => RenameMoves(w, r, fault);
    case Published => FinishMoves(w, r, Completed, "", Done);
    case Failing(reason) => FinishMoves(w, r, Failed, reason, Done);
    case Aborting(reason) => FinishMoves(w, r, Failed, reason, Removing);
    case _ => assert w.transfers == w.transfers[r := w.transfers[r]];
  }

  // ------------------------------------------------------------------ the slot

  ghost predicate TransfersOk(w: World) {
    forall r :: r in w.transfers ==> TransferOk(w.transfers[r])
  }

  /** The points a file system call can lead to. */
  lemma StepLeadsOn(w: World, r: RequestId, fault: Option<string>)
    requires r in w.transfers
    ensures r in StepStep(w, r, fault).transfers
    ensures var before, after := w.transfers[r].pc, StepStep(w, r, fault).transfers[r].pc;
            || after == before || after.Done? || after.LeftBehind?
            || after.Failing? || after.Aborting? || after.Removing?
            || (before == CheckingDestination && (after == CheckingTemporary || after == Creating))
            || (before == CheckingTemporary && after == Creating)
            || (before == Creating && after == Copying)
            || (Late(before) && Late(after))
    ensures StepStep(w, r, fault).transfers[r].pc.Failing? ==> Early(w.transfers[r].pc) || w.transfers[r].pc.Failing?
    ensures w.transfers[r].pc.Uploading? ==> StepStep(w, r, fault).transfers[r].pc.Uploading?
    ensures Ended(w.transfers[r].pc) ==> StepStep(w, r, fault) == w
    ensures StepStep(w, r, fault).transfers[r].pc.Published? ==>
              w.transfers[r].pc.Published? || StepStep(w, r, fault).transfers[r].published
    ensures w.transfers[r].pc.Published? ==> StepStep(w, r, fault).transfers[r].pc.Done?
  {
  }

  lemma FileCallKeepsTransfers(w: World, r: RequestId, fault: Option<string>)
    requires TransfersOk(w) && r in w.transfers
    ensures TransfersOk(StepStep(w, r, fault))
  {
    StepMovesOneTransfer(w, r, fault);
    StepLeadsOn(w, r, fault);
  }

  lemma CopyKeepsTransfers(w: World, r: RequestId, data: seq<byte>, fault: Option<string>)
    requires TransfersOk(w)
    ensures TransfersOk(ChunkStep(w, r, data)) && TransfersOk(CopyEndsStep(w, r, fault))
  {
  }

  lemma UploadKeepsTransfers(w: World, r: RequestId, count: nat, fault: Option<string>)
    requires TransfersOk(w)
    ensures TransfersOk(SendStep(w, r, count)) && TransfersOk(UploadAnsweredStep(w, r, fault))
  {
  }

  lemma BeginningKeepsTransfers(w: World, r: RequestId, fault: Option<string>, length: Option<nat>,
                                kind: Kind, destination: Path, size: nat)
    requires TransfersOk(w)
    ensures TransfersOk(RespondStep(w, r, fault, length)) && TransfersOk(BeginStep(w, r, kind, destination, size))
  {
  }

  lemma StepKeepsTransfers(w: World, e: Event)
    requires TransfersOk(w)
    ensures TransfersOk(Apply(w, e))
  {
    match e
    case Begin(r, kind, destination, size) => BeginningKeepsTransfers(w, r, None, None, kind, destination, size);
    case Respond(r, fault, length) => BeginningKeepsTransfers(w, r, fault, length, Manual, "", 0);
    case Step(r, fault) =>
      if r in w.transfers {
        FileCallKeepsTransfers(w, r, fault);
      }
    case Chunk(r, data) => CopyKeepsTransfers(w, r, data, None);
    case CopyEnds(r, fault) => CopyKeepsTransfers(w, r, [], fault);
    case Send(r, count) => UploadKeepsTransfers(w, r, count, None);
    case UploadAnswered(r, fault) => UploadKeepsTransfers(w, r, 0, fault);
    case _ =>
  }

  /** Moving on inside a download that is not finished yet leaves the account as it is. */
  lemma MovingKeepsSlot(w: World, r: RequestId, pc: Pc, published: bool)
    requires SlotOk(w) && r in w.transfers
    requires !Owns(w, r) ==> !w.transfers[r].pc.Done? || pc.Done?
    requires !Owns(w, r) ==> w.transfers[r].published ==> published
    requires Owns(w, r) ==> !Ended(pc) && !pc.Removing? && pc != Requesting
    requires Owns(w, r) ==> pc.Failing? || (w.transfers[r].pc != Requesting && !w.transfers[r].pc.Failing?)
    ensures SlotOk(w.(transfers := w.transfers[r := w.transfers[r].(pc := pc, published := published)]))
  {
  }

  lemma GotoKeepsSlot(w: World, r: RequestId, pc: Pc)
    requires SlotOk(w) && r in w.transfers
    requires !Owns(w, r) ==> !w.transfers[r].pc.Done? || pc.Done?
    requires Owns(w, r) ==> !Ended(pc) && !pc.Removing? && pc != Requesting
    requires Owns(w, r) ==> pc.Failing? || (w.transfers[r].pc != Requesting && !w.transfers[r].pc.Failing?)
    ensures SlotOk(Goto(w, r, pc))
  {
    MovingKeepsSlot(w, r, pc, w.transfers[r].published);
  }

  lemma FinishKeepsSlot(w: World, r: RequestId, state: State, reason: string, pc: Pc)
    requires TransfersOk(w) && SlotOk(w) && r in w.transfers && !Ended(w.transfers[r].pc)
    requires pc.Done? || (pc.Removing? && state == Failed)
    requires state == Failed || (state == Completed && w.transfers[r].pc.Published?)
    ensures SlotOk(Goto(Finish(w, r, state, reason), r, pc))
  {
  }

  lemma FileCallKeepsSlot(w: World, r: RequestId, fault: Option<string>)
    requires TransfersOk(w) && SlotOk(w) && r in w.transfers
    requires var pc := w.transfers[r].pc;
             pc == CheckingDestination || pc == CheckingTemporary || pc == Creating || pc == Renaming
    ensures SlotOk(StepStep(w, r, fault))
  {
    var next := StepStep(w, r, fault);
    StepLeadsOn(w, r, fault);
    StepMovesOneTransfer(w, r, fault);
    var t := next.transfers[r];
    MovingKeepsSlot(w.(names := next.names), r, t.pc, t.published);
    assert next == w.(names := next.names, transfers := w.transfers[r := t]);
  }

  lemma StepStepKeepsSlot(w: World, r: RequestId, fault: Option<string>)
    requires TransfersOk(w) && SlotOk(w) && r in w.transfers
    ensures SlotOk(StepStep(w, r, fault))
  {
    match w.transfers[r].pc
    case CheckingDestination | CheckingTemporary | Creating | Renaming => FileCallKeepsSlot(w, r, fault);
    case Syncing | Closing => GotoKeepsSlot(w, r, StepStep(w, r, fault).transfers[r].pc);
    case Published => FinishKeepsSlot(w, r, Completed, "", Done);
    case Failing(reason) => FinishKeepsSlot(w, r, Failed, reason, Done);
    case Aborting(reason) => FinishKeepsSlot(w, r, Failed, reason, Removing);
    case _ =>
  }

  lemma CopyKeepsSlot(w: World, r: RequestId, data: seq<byte>, fault: Option<string>)
    requires TransfersOk(w) && SlotOk(w)
    ensures SlotOk(ChunkStep(w, r, data)) && SlotOk(CopyEndsStep(w, r, fault))
  {
  }

  lemma UploadKeepsSlot(w: World, r: RequestId, count: nat, fault: Option<string>)
    requires TransfersOk(w) && SlotOk(w)
    ensures SlotOk(SendStep(w, r, count)) && SlotOk(UploadAnsweredStep(w, r, fault))
  {
  }

  lemma StepKeepsSlot(w: World, e: Event)
    requires TransfersOk(w) && SlotOk(w)
    ensures SlotOk(Apply(w, e))
  {
    match e
    case Step(r, fault) =>
      if r in w.transfers {
        StepStepKeepsSlot(w, r, fault);
      }
    case Chunk(r, data) => CopyKeepsSlot(w, r, data, None);
    case CopyEnds(r, fault) => CopyKeepsSlot(w, r, [], fault);
    case Send(r, count) => UploadKeepsSlot(w, r, count, None);
    case UploadAnswered(r, fault) => UploadKeepsSlot(w, r, 0, fault);
    case _ =>
  }

  // ------------------------------------------------------------------ the files

  /** A transfer has come further without taking or giving up its temporary name, or a crash cut it
      short. */
  predicate Framed(t: Transfer, u: Transfer) {
    && u.kind == t.kind && u.destination == t.destination && (t.sealed ==> u.sealed)
    && (if Holding(t.pc) then Holding(u.pc) || u.pc == Dead
        else !Holding(u.pc) && (t.pc == LeftBehind || t.pc == Dead ==> u.pc == t.pc))
  }

  /** A step that touches no name, and no transfer's hold on its temporary name. */
  lemma FramedKeepsFiles(w: World, v: World)
    requires FilesOk(w) && v.names == w.names
    requires forall r :: r in w.transfers ==> r in v.transfers && Framed(w.transfers[r], v.transfers[r])
    requires forall r :: r in v.transfers && r !in w.transfers ==> !Holding(v.transfers[r].pc)
    ensures FilesOk(v)
  {
    forall r | r in v.transfers && Holding(v.transfers[r].pc) ensures Writes(v.transfers[r]) && TemporaryOk(v, r) {
      assert TemporaryOk(w, r);
    }
    forall path | path in v.names && v.names[path].Own? ensures NameOk(v, path, v.names[path].r) {
      assert NameOk(w, path, w.names[path].r);
    }
  }

  lemma CreateKeepsFiles(w: World, r: RequestId, fault: Option<string>)
    requires TransfersOk(w) && FilesOk(w) && At(w, r, Creating)
    ensures FilesOk(CreateStep(w, r, fault))
  {
    assert TransferOk(w.transfers[r]);
    if fault.Some? || Temporary(w.transfers[r]) in w.names {
      GotoKeepsFiles(w, r, CreateStep(w, r, fault).transfers[r].pc);
    } else {
      CreatedKeepsTemporaries(w, r);
      CreatedKeepsNames(w, r);
    }
  }

  lemma CreatedKeepsTemporaries(w: World, r: RequestId)
    requires FilesOk(w) && At(w, r, Creating) && Temporary(w.transfers[r]) !in w.names
    requires Writes(w.transfers[r]) && !w.transfers[r].sealed
    ensures var v := CreateStep(w, r, None);
            && TemporariesDiffer(v)
            && forall s :: s in v.transfers && Holding(v.transfers[s].pc)
                 ==> Writes(v.transfers[s]) && TemporaryOk(v, s)
  {
    var v := CreateStep(w, r, None);
    forall s | s in v.transfers && Holding(v.transfers[s].pc)
      ensures Writes(v.transfers[s]) && TemporaryOk(v, s) && (s != r ==> Temporary(v.transfers[s]) in w.names)
    {
      assert s != r ==> TemporaryOk(w, s);
    }
  }

  lemma CreatedKeepsNames(w: World, r: RequestId)
    requires FilesOk(w) && At(w, r, Creating) && Temporary(w.transfers[r]) !in w.names
    requires Writes(w.transfers[r]) && !w.transfers[r].sealed
    ensures var v := CreateStep(w, r, None);
            forall path :: path in v.names && v.names[path].Own? ==> NameOk(v, path, v.names[path].r)
  {
    var v := CreateStep(w, r, None);
    forall path | path in v.names && v.names[path].Own? ensures NameOk(v, path, v.names[path].r) {
      if path != Temporary(w.transfers[r]) {
        assert NameOk(w, path, w.names[path].r);
      }
    }
  }

  lemma RenameKeepsFiles(w: World, r: RequestId, fault: Option<string>)
    requires TransfersOk(w) && FilesOk(w) && At(w, r, Renaming)
    ensures FilesOk(RenameStep(w, r, fault))
  {
    if fault.Some? {
      GotoKeepsFiles(w, r, Aborting(fault.value));
    } else {
      assert TemporaryOk(w, r);
      RenamedKeepsTemporaries(w, r);
      RenamedKeepsNames(w, r);
    }
  }

  lemma RenamedKeepsTemporaries(w: World, r: RequestId)
    requires TransfersOk(w) && FilesOk(w) && At(w, r, Renaming) && TemporaryOk(w, r)
    ensures var v := RenameStep(w, r, None);
            && TemporariesDiffer(v)
            && forall s :: s in v.transfers && Holding(v.transfers[s].pc)
                 ==> Writes(v.transfers[s]) && TemporaryOk(v, s)
  {
    var v := RenameStep(w, r, None);
    assert TransferOk(w.transfers[r]);
    forall s | s in v.transfers && Holding(v.transfers[s].pc) ensures Writes(v.transfers[s]) && TemporaryOk(v, s) {
      assert TemporaryOk(w, s);
    }
  }

  lemma RenamedKeepsNames(w: World, r: RequestId)
    requires TransfersOk(w) && FilesOk(w) && At(w, r, Renaming) && TemporaryOk(w, r)
    ensures var v := RenameStep(w, r, None);
            forall path :: path in v.names && v.names[path].Own? ==> NameOk(v, path, v.names[path].r)
  {
    var v := RenameStep(w, r, None);
    assert TransferOk(w.transfers[r]);
    forall path | path in v.names && v.names[path].Own? ensures NameOk(v, path, v.names[path].r) {
      if path != w.transfers[r].destination {
        assert NameOk(w, path, w.names[path].r);
      }
    }
  }

  lemma RemoveKeepsFiles(w: World, r: RequestId, fault: Option<string>)
    requires TransfersOk(w) && FilesOk(w) && At(w, r, Removing)
    ensures FilesOk(RemoveStep(w, r, fault))
  {
    var v := RemoveStep(w, r, fault);
    forall s | s in v.transfers && Holding(v.transfers[s].pc) ensures Writes(v.transfers[s]) && TemporaryOk(v, s) {
      assert TemporaryOk(w, s);
    }
    forall path | path in v.names && v.names[path].Own? ensures NameOk(v, path, v.names[path].r) {
      assert NameOk(w, path, w.names[path].r);
    }
  }

  lemma GotoKeepsFiles(w: World, r: RequestId, pc: Pc)
    requires FilesOk(w) && r in w.transfers && !Ended(w.transfers[r].pc)
    requires Holding(pc) <==> Holding(w.transfers[r].pc)
    ensures FilesOk(Goto(w, r, pc))
  {
    FramedKeepsFiles(w, Goto(w, r, pc));
  }

  lemma FinishKeepsFiles(w: World, r: RequestId, state: State, reason: string, pc: Pc)
    requires FilesOk(w) && r in w.transfers && !Ended(w.transfers[r].pc)
    requires Holding(pc) <==> Holding(w.transfers[r].pc)
    ensures FilesOk(Goto(Finish(w, r, state, reason), r, pc))
  {
    FramedKeepsFiles(w, Goto(Finish(w, r, state, reason), r, pc));
  }

  lemma StepStepKeepsFiles(w: World, r: RequestId, fault: Option<string>)
    requires TransfersOk(w) && FilesOk(w) && r in w.transfers
    ensures FilesOk(StepStep(w, r, fault))
  {
    match w.transfers[r].pc
    case CheckingDestination | CheckingTemporary =>
      GotoKeepsFiles(w, r, StepStep(w, r, fault).transfers[r].pc);
    case Creating => CreateKeepsFiles(w, r, fault);
    case Syncing | Closing => GotoKeepsFiles(w, r, StepStep(w, r, fault).transfers[r].pc);
    case Renaming => RenameKeepsFiles(w, r, fault);
    case Published => FinishKeepsFiles(w, r, Completed, "", Done);
    case Failing(reason) => FinishKeepsFiles(w, r, Failed, reason, Done);
    case Aborting(reason) => FinishKeepsFiles(w, r, Failed, reason, Removing);
    case Removing => RemoveKeepsFiles(w, r, fault);
    case _ =>
  }

  lemma OtherFileKeepsFiles(w: World, path: Path, present: bool)
    requires FilesOk(w)
    ensures FilesOk(OtherFileStep(w, path, present))
  {
    var v := OtherFileStep(w, path, present);
    forall r | r in v.transfers && Holding(v.transfers[r].pc) ensures Writes(v.transfers[r]) && TemporaryOk(v, r) {
      assert TemporaryOk(w, r);
    }
    forall p | p in v.names && v.names[p].Own? ensures NameOk(v, p, v.names[p].r) {
      assert NameOk(w, p, w.names[p].r);
    }
  }

  lemma BeginKeepsFiles(w: World, r: RequestId, kind: Kind, destination: Path, size: nat)
    requires FilesOk(w)
    ensures FilesOk(BeginStep(w, r, kind, destination, size))
  {
    FramedKeepsFiles(w, BeginStep(w, r, kind, destination, size));
  }

  lemma RespondKeepsFiles(w: World, r: RequestId, fault: Option<string>, length: Option<nat>)
    requires FilesOk(w)
    ensures FilesOk(RespondStep(w, r, fault, length))
  {
    FramedKeepsFiles(w, RespondStep(w, r, fault, length));
  }

  lemma ChunkKeepsFiles(w: World, r: RequestId, data: seq<byte>)
    requires FilesOk(w)
    ensures FilesOk(ChunkStep(w, r, data))
  {
    FramedKeepsFiles(w, ChunkStep(w, r, data));
  }

  lemma CopyEndsKeepsFiles(w: World, r: RequestId, fault: Option<string>)
    requires FilesOk(w)
    ensures FilesOk(CopyEndsStep(w, r, fault))
  {
    FramedKeepsFiles(w, CopyEndsStep(w, r, fault));
  }

  lemma SendKeepsFiles(w: World, r: RequestId, count: nat)
    requires FilesOk(w)
    ensures FilesOk(SendStep(w, r, count))
  {
    FramedKeepsFiles(w, SendStep(w, r, count));
  }

  lemma AnswerKeepsFiles(w: World, r: RequestId, fault: Option<string>)
    requires FilesOk(w)
    ensures FilesOk(UploadAnsweredStep(w, r, fault))
  {
    FramedKeepsFiles(w, UploadAnsweredStep(w, r, fault));
  }

  lemma StopsKeepFiles(w: World, why: string)
    requires FilesOk(w)
    ensures FilesOk(CancelSection(w, why)) && FilesOk(CrashStep(w))
  {
    FramedKeepsFiles(w, CancelSection(w, why));
    FramedKeepsFiles(w, CrashStep(w));
  }

  lemma StepKeepsFiles(w: World, e: Event)
    requires TransfersOk(w) && FilesOk(w)
    ensures FilesOk(Apply(w, e))
  {
    match e
    case Begin(r, kind, destination, size) => BeginKeepsFiles(w, r, kind, destination, size);
    case Respond(r, fault, length) => RespondKeepsFiles(w, r, fault, length);
    case Step(r, fault) =>
      if r in w.transfers {
        StepStepKeepsFiles(w, r, fault);
      }
    case Chunk(r, data) => ChunkKeepsFiles(w, r, data);
    case CopyEnds(r, fault) => CopyEndsKeepsFiles(w, r, fault);
    case Send(r, count) => SendKeepsFiles(w, r, count);
    case UploadAnswered(r, fault) => AnswerKeepsFiles(w, r, fault);
    case Cancel(why) => StopsKeepFiles(w, why);
    case Crash => StopsKeepFiles(w, "");
    case OtherFile(path, present) => OtherFileKeepsFiles(w, path, present);
  }

  // ------------------------------------------------------------------ runs

  lemma StepKeepsInv(w: World, e: Event)
    requires Inv(w)
    ensures Inv(Apply(w, e))
  {
    StepKeepsTransfers(w, e);
    StepKeepsSlot(w, e);
    StepKeepsFiles(w, e);
  }

  lemma {:induction false} ReachableInv(events: seq<Event>)
    ensures Inv(Run(Initial, events))
  {
    if events != [] {
      ReachableInv(events[..|events| - 1]);
      StepKeepsInv(Run(Initial, events[..|events| - 1]), events[|events| - 1]);
    }
  }

  lemma ReachableSlot(events: seq<Event>)
    ensures TransfersOk(Run(Initial, events)) && SlotOk(Run(Initial, events))
  {
    ReachableInv(events);
  }
}
