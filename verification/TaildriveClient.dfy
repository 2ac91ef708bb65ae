/**
 Taildrive transfers as the source writes them: the sections of the shared slot as methods that assign
 the record in place, the download with its copy loop, the upload, and the staging of a received
 Taildrop file.  Between two steps of one transfer everybody else may take any number of steps.
 */
module TaildriveClients {
  import opened Wrappers
  import opened TaildriveTransfers
  import opened TaildriveTransferProofs
  import opened TaildriveTransferTheorems
  import opened TaildriveVerdicts

  lemma RunOneMore(w: World, events: seq<Event>, e: Event)
    ensures Run(w, events + [e]) == Apply(Run(w, events), e)
  {
    assert (events + [e])[..|events + [e]| - 1] == events;
  }

  /** After some events, a path was free. */
  predicate FreeAfter(events: seq<Event>, path: Path) {
    path !in Run(Initial, events).names
  }

  // ------------------------------------------------------------------ the world outside

  /** How the server answers a request, and how long it says the body is. */
  datatype Answer = Answer(fault: Option<string>, length: Option<nat>)

  /** The body of a response: what arrives, and the error that ends it. */
  datatype Body = Body(chunks: seq<seq<byte>>, fault: Option<string>)

  /** The faults that the file system calls of a download meet. */
  datatype Calls = Calls(
    look: Option<string>, lookTemporary: Option<string>, create: Option<string>, sync: Option<string>,
    close: Option<string>, rename: Option<string>, remove: Option<string>)

  function Flat(chunks: seq<seq<byte>>): seq<byte> {
    if chunks == [] then [] else Flat(chunks[..|chunks| - 1]) + chunks[|chunks| - 1]
  }

  lemma FlatOneMore(chunks: seq<seq<byte>>, i: nat)
    requires i < |chunks|
    ensures Flat(chunks[..i + 1]) == Flat(chunks[..i]) + chunks[i]
  {
    assert chunks[..i + 1][..i] == chunks[..i];
  }

  function Total(counts: seq<nat>): nat {
    if counts == [] then 0 else Total(counts[..|counts| - 1]) + counts[|counts| - 1]
  }

  /** The body arrives, and is as long as declared. */
  predicate Arrives(body: Body, declared: Option<nat>) {
    body.fault.None? && (declared.Some? ==> |Flat(body.chunks)| == declared.value)
  }

  predicate Publishes(calls: Calls) {
    calls.sync.None? && calls.close.None? && calls.rename.None?
  }

  /** The file of a finished transfer was published, and is its own unless another one intruded. */
  ghost predicate Delivered(events: seq<Event>, r: RequestId, t: Transfer) {
    && t.pc.Done? && t.published && Whole(t)
    && (PublishedItsOwn(events, r, t.content) <==> !Intruded(events, r))
  }

  /** What "completed" promises of a download: the whole body, counted. */
  predicate CompleteDownload(snapshot: Snapshot, t: Transfer) {
    && t.pc.Done? && t.published
    && snapshot.bytes == |t.content| && snapshot.totalBytes == Length(t.declared)
    && (t.declared.Some? ==> snapshot.bytes == snapshot.totalBytes)
  }

  predicate JobKept(t: Transfer, u: Transfer) {
    u.kind == t.kind && u.destination == t.destination
  }

  method Count() returns (count: nat) {
    var any: int := *;
    return if any >= 0 then any else 0;
  }

  lemma ReachableStop(events: seq<Event>)
    ensures var w := Run(Initial, events); w.stop == if Active(w.task) then Some(w.task.requestId) else None
  {
    ReachableSlot(events);
  }

  class TaildriveClient {
    var taildriveTask: Snapshot
    var taildriveStop: Option<RequestId>

    /** The surroundings of the slot: every transfer and the directory. */
    var world: World
    ghost var trace: seq<Event>

    ghost predicate Valid()
      reads this
    {
      taildriveTask == world.task && taildriveStop == world.stop && world == Run(Initial, trace)
    }

    ghost predicate Is(r: RequestId, t: Transfer)
      reads this`world
    {
      r in world.transfers && world.transfers[r] == t
    }

    constructor ()
      ensures Valid() && world == Initial
    {
      taildriveTask, taildriveStop := NoTransfer, None;
      world, trace := Initial, [];
    }

    method Advance(e: Event)
      requires world == Run(Initial, trace)
      requires taildriveTask == Apply(world, e).task && taildriveStop == Apply(world, e).stop
      modifies this`world, this`trace
      ensures Valid() && world == Apply(old(world), e) && trace == old(trace) + [e]
      ensures forall r :: NameTaken(trace, r) <==>
                NameTaken(old(trace), r) || (e == Step(r, None) && Taken(old(world), r))
    {
      RunOneMore(Initial, trace, e);
      forall r
        ensures NameTaken(trace + [e], r) <==> NameTaken(trace, r) || (e == Step(r, None) && Taken(world, r))
      {
        NameTakenOneMore(trace, e, r);
      }
      Become(Apply(world, e), trace + [e]);
    }

    method Become(next: World, ghost longer: seq<Event>)
      requires next == Run(Initial, longer) && taildriveTask == next.task && taildriveStop == next.stop
      modifies this`world, this`trace
      ensures Valid() && world == next && trace == longer
    {
      world, trace := next, longer;
    }

    /** Everybody but the transfer r takes any number of steps. */
    method Interfere(r: RequestId, ghost t: Transfer)
      requires Valid() && Is(r, t)
      modifies this
      ensures Valid() && Is(r, t) && old(trace) <= trace && (NameTaken(trace, r) <==> NameTaken(old(trace), r))
    {
      var steps := Count();
      while steps > 0
        invariant Valid() && Is(r, t) && old(trace) <= trace && (NameTaken(trace, r) <==> NameTaken(old(trace), r))
      {
        var e: Event := *;
        if !e.Crash? && (!Private(e) || e.r != r) {
          OthersLeaveTransferAlone(world, e, r);
          taildriveTask, taildriveStop := Apply(world, e).task, Apply(world, e).stop;
          Advance(e);
        }
        steps := steps - 1;
      }
    }

    // ------------------------------------------------------------------ slot sections

    predicate Open(r: RequestId)
      reads this`taildriveTask
    {
      taildriveTask.requestId == r && (taildriveTask.state == Queued || taildriveTask.state == Transferring)
    }

    method BeginTaildriveTransfer(r: RequestId, kind: Kind, destination: Path, size: nat) returns (queued: bool)
      requires Valid() && Tracked(kind) && r > 0 && r !in world.transfers
      modifies this
      ensures Valid() && world == Apply(old(world), Begin(r, kind, destination, size))
      ensures queued <==> r in world.transfers
      ensures NameTaken(trace, r) <==> NameTaken(old(trace), r)
      ensures !queued ==> world == old(world) && Active(world.task)
    {
      if taildriveTask.state == Queued || taildriveTask.state == Transferring {
        Advance(Begin(r, kind, destination, size));
        return false;
      }
      taildriveTask := Snapshot(r, kind, Queued, "", 0, if kind == Upload then size else 0);
      taildriveStop := Some(r);
      Advance(Begin(r, kind, destination, size));
      return true;
    }

    method FinishTaildriveTransfer(r: RequestId, state: State, reason: string) returns (snapshot: Snapshot)
      requires Valid() && r in world.transfers && Tracked(world.transfers[r].kind)
      modifies this`taildriveTask, this`taildriveStop
      ensures snapshot == taildriveTask == Finish(world, r, state, reason).task
      ensures taildriveStop == Finish(world, r, state, reason).stop
    {
      if !Open(r) {
        return taildriveTask;
      }
      taildriveTask := taildriveTask.(state := state);
      taildriveTask := taildriveTask.(reason := reason);
      taildriveStop := None;
      return taildriveTask;
    }

    /** Disconnecting, restarting or cancelling: the handle that comes out is the open record's. */
    method CancelTaildriveTransfer(why: string) returns (cancel: Option<RequestId>)
      requires Valid()
      modifies this
      ensures Valid() && world == Apply(old(world), Cancel(why))
      ensures cancel == if Active(old(world).task) then Some(old(world).task.requestId) else None
      ensures taildriveStop.None? && !Active(taildriveTask)
    {
      ReachableStop(trace);
      cancel := taildriveStop;
      if taildriveTask.state == Queued || taildriveTask.state == Transferring {
        taildriveTask := taildriveTask.(state := Failed);
        taildriveTask := taildriveTask.(reason := why);
      }
      taildriveStop := None;
      Advance(Cancel(why));
    }

    // ------------------------------------------------------------------ download

    /** One file system call, after anything that others do: it leads on if and only if it meets no fault and
        no taken name. */
    method FileCall(r: RequestId, fault: Option<string>) returns (failure: Option<string>, ghost seen: seq<Event>)
      requires Valid() && r in world.transfers && CallsFiles(world.transfers[r].pc)
      modifies this
      ensures Valid() && r in world.transfers
      ensures var t := old(world).transfers[r];
              world.transfers[r] ==
              if failure.None? then t.(pc := NextPc(t), published := t.published || t.pc == Renaming)
              else t.(pc := if Early(t.pc) then Failing(failure.value) else Aborting(failure.value))
      ensures old(trace) <= seen < trace && (fault.Some? ==> failure == fault)
      ensures failure.None? <==> fault.None? && !Blocked(Run(Initial, seen).names, old(world).transfers[r])
      ensures NameTaken(trace, r) <==> NameTaken(old(trace), r) || (fault.None? && failure.Some?)
      ensures failure.None? && old(world).transfers[r].pc == Creating ==> HoldsName(world, r)
    {
      Interfere(r, world.transfers[r]);
      seen := trace;
      failure := CallNow(r, fault);
    }

    method CallNow(r: RequestId, fault: Option<string>) returns (failure: Option<string>)
      requires Valid() && r in world.transfers && CallsFiles(world.transfers[r].pc)
      modifies this
      ensures Valid() && r in world.transfers && trace == old(trace) + [Step(r, fault)]
      ensures var t := old(world).transfers[r];
              world.transfers[r] ==
              if failure.None? then t.(pc := NextPc(t), published := t.published || t.pc == Renaming)
              else t.(pc := if Early(t.pc) then Failing(failure.value) else Aborting(failure.value))
      ensures fault.Some? ==> failure == fault
      ensures failure.None? <==> fault.None? && !Taken(old(world), r)
      ensures NameTaken(trace, r) <==> NameTaken(old(trace), r) || (fault.None? && failure.Some?)
      ensures failure.None? && old(world).transfers[r].pc == Creating ==> HoldsName(world, r)
    {
      failure := Meet(r, fault);
      Advance(Step(r, fault));
    }

    /** What a call meets in the directory: the name it needs free is taken, or the file to rename has gone. */
    method Meet(r: RequestId, fault: Option<string>) returns (failure: Option<string>)
      requires Valid() && r in world.transfers && CallsFiles(world.transfers[r].pc)
      ensures fault.Some? ==> failure == fault
      ensures failure.None? <==> fault.None? && !Taken(world, r)
      ensures var v := Apply(world, Step(r, fault));
              && r in v.transfers && v.task == world.task && v.stop == world.stop
              && (failure.None? && world.transfers[r].pc == Creating ==> HoldsName(v, r))
      ensures var t, u := world.transfers[r], Apply(world, Step(r, fault)).transfers[r];
              u == if failure.None? then t.(pc := NextPc(t), published := t.published || t.pc == Renaming)
                   else t.(pc := if Early(t.pc) then Failing(failure.value) else Aborting(failure.value))
    {
      CallSucceedsExactlyWhenFree(trace, r, fault);
      failure := fault;
      var t := world.transfers[r];
      if fault.None? {
        match t.pc
        case CheckingDestination => if t.destination in world.names { failure := Some("file_exists"); }
        case CheckingTemporary => if Temporary(t) in world.names { failure := Some("file_exists"); }
        case Creating => if Temporary(t) in world.names { failure := Some("exists"); }
        case Renaming => if Temporary(t) !in world.names { failure := Some("missing"); }
        case _ =>
      }
    }

    /** Copying the body: every chunk is written and counted, and a declared length must be met. */
    method CopyBody(r: RequestId, body: Body) returns (failure: Option<string>, writtenBytes: nat)
      requires Valid() && At(world, r, Copying) && world.transfers[r].content == []
      modifies this
      ensures Valid() && r in world.transfers && (NameTaken(trace, r) <==> NameTaken(old(trace), r))
      ensures writtenBytes == |Flat(body.chunks)|
      ensures failure.None? <==> Arrives(body, world.transfers[r].declared)
      ensures world.transfers[r] == old(world).transfers[r].(
                content := Flat(body.chunks), sealed := failure.None?,
                pc := if failure.None? then Syncing else Aborting(failure.value))
    {
      ReachableSlot(trace);
      writtenBytes := 0;
      ghost var was := world.transfers[r];
      assert TransferOk(was);
      for i := 0 to |body.chunks|
        invariant Valid() && r in world.transfers && (NameTaken(trace, r) <==> NameTaken(old(trace), r))
        invariant world.transfers[r] == was.(content := Flat(body.chunks[..i]))
        invariant writtenBytes == |Flat(body.chunks[..i])|
      {
        FlatOneMore(body.chunks, i);
        WriteChunk(r, body.chunks[i]);
        writtenBytes := writtenBytes + |body.chunks[i]|;
      }
      assert body.chunks[..|body.chunks|] == body.chunks;
      failure := EndCopy(r, body.fault);
    }

    /** One chunk is written and counted. */
    method WriteChunk(r: RequestId, data: seq<byte>)
      requires Valid() && At(world, r, Copying)
      modifies this
      ensures Valid() && r in world.transfers && (NameTaken(trace, r) <==> NameTaken(old(trace), r))
      ensures var t := old(world).transfers[r]; world.transfers[r] == t.(content := t.content + data)
    {
      Interfere(r, world.transfers[r]);
      if Tracked(world.transfers[r].kind) && Open(r) {
        taildriveTask := taildriveTask.(bytes := taildriveTask.bytes + |data|);
      }
      Advance(Chunk(r, data));
    }

    /** The end of the body: an error, or a length that must be the declared one. */
    method EndCopy(r: RequestId, fault: Option<string>) returns (failure: Option<string>)
      requires Valid() && At(world, r, Copying) && !world.transfers[r].sealed
      modifies this
      ensures Valid() && r in world.transfers && (NameTaken(trace, r) <==> NameTaken(old(trace), r))
      ensures var t := old(world).transfers[r];
              && (failure.None? <==> fault.None? && (t.declared.Some? ==> |t.content| == t.declared.value))
              && world.transfers[r] == t.(sealed := failure.None?,
                                          pc := if failure.None? then Syncing else Aborting(failure.value))
    {
      failure := fault;
      var t := world.transfers[r];
      if failure.None? && t.declared.Some? && |t.content| != t.declared.value {
        failure := Some("network_interrupted");
      }
      Advance(CopyEnds(r, fault));
    }

    /** Sync, close, rename. */
    method Publish(r: RequestId, calls: Calls) returns (failure: Option<string>)
      requires Valid() && At(world, r, Syncing)
      modifies this
      ensures Valid() && r in world.transfers && (NameTaken(trace, r) <==> NameTaken(old(trace), r))
      ensures failure.None? <==> Publishes(calls)
      ensures var t := old(world).transfers[r];
              world.transfers[r] ==
              if failure.None? then t.(pc := Published, published := true) else t.(pc := Aborting(failure.value))
    {
      failure := SyncAndClose(r, calls);
      if failure.None? {
        ghost var seen;
        failure, seen := FileCall(r, calls.rename);
      }
    }

    method SyncAndClose(r: RequestId, calls: Calls) returns (failure: Option<string>)
      requires Valid() && At(world, r, Syncing)
      modifies this
      ensures Valid() && r in world.transfers && (NameTaken(trace, r) <==> NameTaken(old(trace), r))
      ensures failure.None? <==> calls.sync.None? && calls.close.None?
      ensures world.transfers[r] ==
              old(world).transfers[r].(pc := if failure.None? then Renaming else Aborting(failure.value))
    {
      ghost var seen;
      failure, seen := FileCall(r, calls.sync);
      if failure.None? {
        failure, seen := FileCall(r, calls.close);
      }
    }

    /** The deferred removal of the temporary file. */
    method RemoveTemporary(r: RequestId, fault: Option<string>)
      requires Valid() && At(world, r, Removing)
      modifies this
      ensures Valid() && r in world.transfers && old(trace) <= trace
      ensures NameTaken(trace, r) <==> NameTaken(old(trace), r)
      ensures world.transfers[r] == old(world).transfers[r].(pc := if fault.None? then Done else LeftBehind)
    {
      Interfere(r, world.transfers[r]);
      Advance(Step(r, fault));
    }

    /** What the caller of a transfer is told, and that the transfer is over. */
    ghost predicate Returned(r: RequestId, snapshot: Snapshot)
      reads this`world, this`trace
    {
      r in world.transfers && Told(snapshot, r, world.transfers[r], Withdrawn(trace, r))
    }

    /** The verdict on a download: through the slot when it is tracked, from its own counters otherwise. */
    method Conclude(r: RequestId, state: State, reason: string, totalBytes: nat, writtenBytes: nat)
      returns (snapshot: Snapshot)
      requires Valid() && r in world.transfers && world.transfers[r].kind != Staging
      requires match world.transfers[r].pc
               case Published => state == Completed && reason == ""
               case Failing(why) => state == Failed && reason == why
               case Aborting(why) => state == Failed && reason == why
               case _ => false
      modifies this
      ensures Valid() && Returned(r, snapshot) && !Owns(world, r)
      ensures NameTaken(trace, r) <==> NameTaken(old(trace), r)
      ensures world.transfers[r] == old(world).transfers[r].(
                pc := if old(world).transfers[r].pc.Aborting? then Removing else Done)
      ensures !Tracked(world.transfers[r].kind) ==>
                snapshot == Snapshot(r, world.transfers[r].kind, state, reason, writtenBytes, totalBytes)
      ensures Tracked(world.transfers[r].kind) ==> snapshot == world.task
      ensures !Withdrawn(trace, r) ==> snapshot.state == state && snapshot.reason == reason
    {
      Interfere(r, world.transfers[r]);
      snapshot := ConcludeNow(r, state, reason, totalBytes, writtenBytes);
    }

    method ConcludeNow(r: RequestId, state: State, reason: string, totalBytes: nat, writtenBytes: nat)
      returns (snapshot: Snapshot)
      requires Valid() && r in world.transfers && world.transfers[r].kind != Staging
      requires match world.transfers[r].pc
               case Published => state == Completed && reason == ""
               case Failing(why) => state == Failed && reason == why
               case Aborting(why) => state == Failed && reason == why
               case _ => false
      modifies this
      ensures Valid() && Returned(r, snapshot) && !Owns(world, r)
      ensures NameTaken(trace, r) <==> NameTaken(old(trace), r)
      ensures world.transfers[r] == old(world).transfers[r].(
                pc := if old(world).transfers[r].pc.Aborting? then Removing else Done)
      ensures !Tracked(world.transfers[r].kind) ==>
                snapshot == Snapshot(r, world.transfers[r].kind, state, reason, writtenBytes, totalBytes)
      ensures Tracked(world.transfers[r].kind) ==> snapshot == world.task
      ensures !Withdrawn(trace, r) ==> snapshot.state == state && snapshot.reason == reason
    {
      ReachableSlot(trace);
      assert TransferOk(world.transfers[r]);
      if Tracked(world.transfers[r].kind) {
        LastStepTells(trace, Step(r, None));
        snapshot := FinishTaildriveTransfer(r, state, reason);
      } else {
        UntrackedIsNotWithdrawn(trace, Step(r, None), r);
        snapshot := Snapshot(r, world.transfers[r].kind, state, reason, writtenBytes, totalBytes);
      }
      Advance(Step(r, None));
    }

    /** A download, tracked or manual.  A busy slot turns a tracked one away.  Otherwise its file is published
        exactly when the server, the body and the file system let it and no name was taken, as what arrived,
        and "completed" comes back for this request exactly then, unless the record was withdrawn. */
    method TaildriveDownload(r: RequestId, destination: Path, tracked: bool, answer: Answer, body: Body, calls: Calls)
      returns (snapshot: Snapshot)
      requires Valid() && r > 0 && r !in world.transfers
      modifies this
      ensures Valid()
      ensures if tracked && Active(old(taildriveTask))
              then world == old(world) && snapshot == Snapshot(r, Preview, Failed, "busy", 0, 0)
              else
                && Returned(r, snapshot) && (!tracked ==> !Withdrawn(trace, r))
                && Downloaded(r, if tracked then Preview else Manual, destination, answer, body, calls)
      ensures snapshot.requestId == r && snapshot.state == Completed ==>
                && r in world.transfers && CompleteDownload(snapshot, world.transfers[r])
                && Delivered(trace, r, world.transfers[r])
    {
      NotBegunNotTaken(trace, r);
      if tracked {
        var queued := BeginTaildriveTransfer(r, Preview, destination, 0);
        if !queued {
          return Snapshot(r, Preview, Failed, "busy", 0, 0);
        }
      } else {
        Advance(Begin(r, Manual, destination, 0));
      }
      snapshot := Fetch(r, answer, body, calls);
      VerdictIsExact(trace, r);
      if snapshot.requestId == r && snapshot.state == Completed {
        FinishedIsDelivered(r);
      }
    }

    /** What has become of a download. */
    ghost predicate Downloaded(r: RequestId, kind: Kind, destination: Path, answer: Answer, body: Body, calls: Calls)
      reads this`world, this`trace
    {
      && r in world.transfers
      && var t := world.transfers[r];
         && t.kind == kind && t.destination == destination && Ended(t.pc)
         && (t.published <==>
               && answer.fault.None? && Arrives(body, answer.length) && Publishes(calls)
               && calls.look.None? && calls.lookTemporary.None? && calls.create.None? && !NameTaken(trace, r))
         && (t.published ==> t.content == Flat(body.chunks) && t.declared == answer.length)
    }

    lemma FinishedIsDelivered(r: RequestId)
      requires Valid() && At(world, r, Done) && world.transfers[r].published
      ensures Delivered(trace, r, world.transfers[r])
    {
      PublishedUnlessIntruded(trace, r);
      ReachableSlot(trace);
      assert TransferOk(world.transfers[r]);
    }

    /** The answer to the request: its declared length becomes the record's total. */
    method AwaitResponse(r: RequestId, answer: Answer) returns (failure: Option<string>, totalBytes: nat)
      requires Valid() && At(world, r, Requesting)
      modifies this
      ensures Valid() && r in world.transfers && (NameTaken(trace, r) <==> NameTaken(old(trace), r))
      ensures failure == answer.fault && totalBytes == Length(answer.length)
      ensures world.transfers[r] ==
              if failure.Some? then old(world).transfers[r].(pc := Failing(failure.value))
              else old(world).transfers[r].(declared := answer.length, pc := CheckingDestination)
      ensures failure.None? && Tracked(world.transfers[r].kind) && Owns(world, r) ==>
                taildriveTask.state == Transferring && taildriveTask.totalBytes == totalBytes
    {
      Interfere(r, world.transfers[r]);
      failure := answer.fault;
      totalBytes := if answer.length.None? then 0 else answer.length.value;
      if failure.None? && Tracked(world.transfers[r].kind) && Open(r) {
        taildriveTask := taildriveTask.(state := Transferring);
        taildriveTask := taildriveTask.(totalBytes := totalBytes);
      }
      Advance(Respond(r, failure, answer.length));
    }

    /** The destination was found free and, later, the temporary name; then the temporary file was created
        under it, exclusively.  Otherwise the download fails. */
    method Prepare(r: RequestId, calls: Calls)
      returns (failure: Option<string>, ghost looked: seq<Event>, ghost created: seq<Event>)
      requires Valid() && At(world, r, CheckingDestination) && world.transfers[r].kind != Staging
      requires !NameTaken(trace, r)
      modifies this
      ensures Valid() && r in world.transfers
      ensures world.transfers[r] == old(world).transfers[r].(
                pc := if failure.None? then Copying else Failing(failure.value))
      ensures failure.None? <==>
              calls.look.None? && calls.lookTemporary.None? && calls.create.None? && !NameTaken(trace, r)
      ensures failure.None? ==>
                && old(trace) <= looked < created < trace && HoldsName(world, r)
                && FreeAfter(looked, old(world).transfers[r].destination)
                && FreeAfter(created, Temporary(old(world).transfers[r]))
    {
      failure, looked := FileCall(r, calls.look);
      created := looked;
      if failure.None? {
        failure, created := CreateExclusively(r, calls);
      }
    }

    method CreateExclusively(r: RequestId, calls: Calls) returns (failure: Option<string>, ghost created: seq<Event>)
      requires Valid() && At(world, r, CheckingTemporary) && !NameTaken(trace, r)
      modifies this
      ensures Valid() && r in world.transfers && old(trace) <= created < trace
      ensures world.transfers[r] == old(world).transfers[r].(
                pc := if failure.None? then Copying else Failing(failure.value))
      ensures failure.None? <==> calls.lookTemporary.None? && calls.create.None? && !NameTaken(trace, r)
      ensures failure.None? ==> HoldsName(world, r) && FreeAfter(created, Temporary(old(world).transfers[r]))
    {
      failure, created := FileCall(r, calls.lookTemporary);
      if failure.None? {
        failure, created := FileCall(r, calls.create);
      }
    }

    method Fetch(r: RequestId, answer: Answer, body: Body, calls: Calls) returns (snapshot: Snapshot)
      requires Valid() && At(world, r, Requesting) && !NameTaken(trace, r)
      requires world.transfers[r].kind == Preview || world.transfers[r].kind == Manual
      modifies this
      ensures Valid() && Returned(r, snapshot)
      ensures var was := old(world).transfers[r]; Downloaded(r, was.kind, was.destination, answer, body, calls)
      ensures snapshot.requestId == r && snapshot.state == Completed ==> CompleteDownload(snapshot, world.transfers[r])
    {
      ReachableSlot(trace);
      var failure, totalBytes := AwaitResponse(r, answer);
      if failure.None? {
        ghost var looked, created;
        failure, looked, created := Prepare(r, calls);
      }
      if failure.Some? {
        snapshot := Conclude(r, Failed, failure.value, totalBytes, 0);
        return;
      }
      snapshot := CopyAndPublish(r, totalBytes, body, calls);
    }

    method CopyAndPublish(r: RequestId, totalBytes: nat, body: Body, calls: Calls) returns (snapshot: Snapshot)
      requires Valid() && At(world, r, Copying) && world.transfers[r].content == []
      requires totalBytes == Length(world.transfers[r].declared)
      requires world.transfers[r].kind == Preview || world.transfers[r].kind == Manual
      modifies this
      ensures Valid() && Returned(r, snapshot) && (NameTaken(trace, r) <==> NameTaken(old(trace), r))
      ensures var t, was := world.transfers[r], old(world).transfers[r];
              && JobKept(was, t) && t.declared == was.declared && Ended(t.pc) && t.content == Flat(body.chunks)
              && (t.published <==> Arrives(body, t.declared) && Publishes(calls))
      ensures snapshot.requestId == r && snapshot.state == Completed ==> CompleteDownload(snapshot, world.transfers[r])
    {
      ReachableSlot(trace);
      var failure, writtenBytes := CopyBody(r, body);
      if failure.None? {
        failure := Publish(r, calls);
      }
      if failure.Some? {
        snapshot := AbortDownload(r, failure.value, totalBytes, writtenBytes, calls.remove);
        return;
      }
      ReachableSlot(trace);
      snapshot := Conclude(r, Completed, "", totalBytes, writtenBytes);
      ReachableSlot(trace);
    }

    /** The verdict, and then the temporary file is removed. */
    method AbortDownload(r: RequestId, reason: string, totalBytes: nat, writtenBytes: nat, remove: Option<string>)
      returns (snapshot: Snapshot)
      requires Valid() && At(world, r, Aborting(reason))
      requires world.transfers[r].kind == Preview || world.transfers[r].kind == Manual
      modifies this
      ensures Valid() && Returned(r, snapshot) && (NameTaken(trace, r) <==> NameTaken(old(trace), r))
      ensures world.transfers[r] == old(world).transfers[r].(pc := if remove.None? then Done else LeftBehind)
      ensures !world.transfers[r].published
    {
      ReachableSlot(trace);
      assert TransferOk(world.transfers[r]);
      snapshot := Conclude(r, Failed, reason, totalBytes, writtenBytes);
      ghost var told := trace;
      RemoveTemporary(r, remove);
      WithdrawnIsSettled(told, trace, r);
    }

    // ------------------------------------------------------------------ upload

    /** An upload counts what the transport reads from the file until the server has answered, and is completed
        exactly when the server takes it, unless the record was withdrawn. */
    method TaildriveUpload(r: RequestId, localPath: Path, size: nat, counts: seq<nat>, fault: Option<string>)
      returns (snapshot: Snapshot)
      requires Valid() && r > 0 && r !in world.transfers
      modifies this
      ensures Valid()
      ensures if Active(old(taildriveTask))
              then world == old(world) && snapshot == Snapshot(r, Upload, Failed, "busy", 0, 0)
              else
                && Returned(r, snapshot) && At(world, r, Done)
                && world.transfers[r].kind == Upload && world.transfers[r].sent == Total(counts)
                && (world.transfers[r].answered <==> fault.None?)
      ensures snapshot.requestId == r && snapshot.state == Completed ==>
                snapshot.bytes == Total(counts) && snapshot.totalBytes == size && fault.None?
    {
      var queued := BeginTaildriveTransfer(r, Upload, localPath, size);
      if !queued {
        return Snapshot(r, Upload, Failed, "busy", 0, 0);
      }
      for i := 0 to |counts|
        invariant Valid() && At(world, r, Uploading) && world.transfers[r].sent == Total(counts[..i])
        invariant world.transfers[r].kind == Upload && world.transfers[r].declared == Some(size)
      {
        assert counts[..i + 1][..i] == counts[..i];
        OnRead(r, counts[i]);
      }
      assert counts[..|counts|] == counts;
      snapshot := Conclusion(r, size, fault);
    }

    /** The transport has read from the file. */
    method OnRead(r: RequestId, count: nat)
      requires Valid() && At(world, r, Uploading) && world.transfers[r].kind == Upload
      modifies this
      ensures Valid() && r in world.transfers
      ensures world.transfers[r] == old(world).transfers[r].(sent := old(world).transfers[r].sent + count)
    {
      Interfere(r, world.transfers[r]);
      if Open(r) {
        taildriveTask := taildriveTask.(state := Transferring);
        taildriveTask := taildriveTask.(bytes := taildriveTask.bytes + count);
      }
      Advance(Send(r, count));
    }

    method Conclusion(r: RequestId, size: nat, fault: Option<string>) returns (snapshot: Snapshot)
      requires Valid() && At(world, r, Uploading)
      requires world.transfers[r].kind == Upload && world.transfers[r].declared == Some(size)
      modifies this
      ensures Valid() && At(world, r, Done) && Returned(r, snapshot)
      ensures world.transfers[r] == old(world).transfers[r].(pc := Done, answered := fault.None?)
      ensures snapshot.requestId == r && snapshot.state == Completed ==>
                snapshot.bytes == world.transfers[r].sent && snapshot.totalBytes == size && fault.None?
    {
      Interfere(r, world.transfers[r]);
      UploadInSlot(r);
      LastStepTells(trace, UploadAnswered(r, fault));
      if fault.Some? {
        snapshot := FinishTaildriveTransfer(r, Failed, fault.value);
      } else {
        snapshot := FinishTaildriveTransfer(r, Completed, "");
      }
      Advance(UploadAnswered(r, fault));
    }

    /** While it is open, the record of an upload at work counts its bytes; it has no verdict yet. */
    lemma UploadInSlot(r: RequestId)
      requires Valid() && At(world, r, Uploading) && world.transfers[r].kind == Upload
      ensures world.task.requestId == r ==> world.task.state != Completed
      ensures !world.transfers[r].answered
      ensures Owns(world, r) ==>
                && world.task.bytes == world.transfers[r].sent
                && world.task.totalBytes == Length(world.transfers[r].declared)
    {
      ReachableSlot(trace);
      assert TransferOk(world.transfers[r]);
    }

    // ------------------------------------------------------------------ staging a received file

    /** A received Taildrop file is staged whole, as it was received and of the announced size, or not at all. */
    method StageTaildropWaitingFile(r: RequestId, size: nat, destination: Path, body: Body, calls: Calls)
      returns (failure: Option<string>)
      requires Valid() && r > 0 && r !in world.transfers
      modifies this
      ensures Valid() && r in world.transfers && Ended(world.transfers[r].pc)
      ensures world.transfers[r].kind == Staging && world.transfers[r].destination == destination
      ensures failure.None? <==> world.transfers[r].published
      ensures failure.None? <==>
              && calls.look.None? && calls.create.None? && !NameTaken(trace, r)
              && Arrives(body, Some(size)) && Publishes(calls)
      ensures failure.None? ==>
                Delivered(trace, r, world.transfers[r]) && world.transfers[r].content == Flat(body.chunks)
    {
      NotBegunNotTaken(trace, r);
      Advance(Begin(r, Staging, destination, size));
      failure := CreateTemporary(r, calls);
      if failure.Some? {
        GiveUp(r, failure.value);
        return;
      }
      failure := WriteAndRename(r, size, body, calls);
      if failure.None? {
        FinishedIsDelivered(r);
      }
    }

    method CreateTemporary(r: RequestId, calls: Calls) returns (failure: Option<string>)
      requires Valid() && At(world, r, CheckingDestination) && world.transfers[r].kind == Staging
      requires !NameTaken(trace, r)
      modifies this
      ensures Valid() && r in world.transfers
      ensures failure.None? <==> calls.look.None? && calls.create.None? && !NameTaken(trace, r)
      ensures world.transfers[r] == old(world).transfers[r].(
                pc := if failure.None? then Copying else Failing(failure.value))
    {
      ghost var seen;
      failure, seen := FileCall(r, calls.look);
      if failure.None? {
        failure, seen := FileCall(r, calls.create);
      }
    }

    /** Nothing has been created: there is nothing to remove. */
    method GiveUp(r: RequestId, ghost reason: string)
      requires Valid() && At(world, r, Failing(reason)) && world.transfers[r].kind == Staging
      modifies this
      ensures Valid() && r in world.transfers && (NameTaken(trace, r) <==> NameTaken(old(trace), r))
      ensures world.transfers[r] == old(world).transfers[r].(pc := Done)
    {
      Advance(Step(r, None));
    }

    method WriteAndRename(r: RequestId, size: nat, body: Body, calls: Calls) returns (failure: Option<string>)
      requires Valid() && At(world, r, Copying) && world.transfers[r].declared == Some(size)
      requires world.transfers[r].kind == Staging && world.transfers[r].content == []
      modifies this
      ensures Valid() && r in world.transfers && (NameTaken(trace, r) <==> NameTaken(old(trace), r))
      ensures failure.None? <==> Arrives(body, Some(size)) && Publishes(calls)
      ensures world.transfers[r] == old(world).transfers[r].(
                pc := if failure.None? || calls.remove.None? then Done else LeftBehind,
                content := Flat(body.chunks), sealed := Arrives(body, Some(size)), published := failure.None?)
    {
      failure := CopyAndRename(r, body, calls);
      Advance(Step(r, None));
      if failure.Some? {
        RemoveTemporary(r, calls.remove);
      }
    }

    method CopyAndRename(r: RequestId, body: Body, calls: Calls) returns (failure: Option<string>)
      requires Valid() && At(world, r, Copying) && world.transfers[r].content == []
      modifies this
      ensures Valid() && r in world.transfers && (NameTaken(trace, r) <==> NameTaken(old(trace), r))
      ensures failure.None? <==> Arrives(body, old(world).transfers[r].declared) && Publishes(calls)
      ensures world.transfers[r] == old(world).transfers[r].(
                pc := if failure.None? then Published else Aborting(failure.value),
                content := Flat(body.chunks), sealed := Arrives(body, old(world).transfers[r].declared),
                published := failure.None?)
    {
      ReachableSlot(trace);
      assert TransferOk(world.transfers[r]);
      var written: nat;
      failure, written := CopyBody(r, body);
      if failure.None? {
        failure := Publish(r, calls);
      }
    }
  }
}
