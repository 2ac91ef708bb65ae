/**
 The outgoing-progress coalescer: updates pile up a file ID at a time and are handed over as a
 batch, at most about once an interval from the hot path and at once when asked.
 */
module Progress {
  import opened Wrappers

  type FileId = string

  datatype Outgoing = Outgoing(id: FileId, sent: int, finished: bool, succeeded: bool)

  type Batch = map<FileId, Outgoing>

  /** One second, in nanoseconds. */
  const NOTIFY_INTERVAL: int := 1_000_000_000

  /** The zero time lies further back than any interval. */
  datatype Coalescer = Coalescer(pending: Batch, last: Option<int>)

  /** The two clock readings of one update need not agree, nor move forwards. */
  datatype Call = Update(file: Outgoing, sinceClock: int, lastClock: int) | Notify(lastClock: int)

  predicate Due(last: Option<int>, clock: int) {
    last.None? || clock - last.value >= NOTIFY_INTERVAL
  }

  /** The state after a call and the batch it hands over, if any. */
  function Apply(c: Coalescer, call: Call): (Coalescer, Option<Batch>) {
    match call
    case Update(file, sinceClock, lastClock) =>
      var pending := c.pending[file.id := file];
      if Due(c.last, sinceClock) then (Coalescer(map[], Some(lastClock)), Some(pending))
      else (c.(pending := pending), None)
    case Notify(lastClock) =>
      if |c.pending| > 0 then (Coalescer(map[], Some(lastClock)), Some(c.pending)) else (c, None)
  }

  function After(calls: seq<Call>): Coalescer {
    if calls == [] then Coalescer(map[], None)
    else Apply(After(calls[..|calls| - 1]), calls[|calls| - 1]).0
  }

  /** The batches handed over, in order. */
  function Delivered(calls: seq<Call>): seq<Batch> {
    if calls == [] then []
    else
      var before := calls[..|calls| - 1];
      var batch := Apply(After(before), calls[|calls| - 1]).1;
      Delivered(before) + if batch.Some? then [batch.value] else []
  }

  /** What a receiver that copies each batch over its table ends up with. */
  function Overlay(batches: seq<Batch>): Batch {
    if batches == [] then map[] else Overlay(batches[..|batches| - 1]) + batches[|batches| - 1]
  }

  /** The last update of every file. */
  function Latest(calls: seq<Call>): Batch {
    if calls == [] then map[]
    else
      var before := Latest(calls[..|calls| - 1]);
      match calls[|calls| - 1]
      case Update(file, _, _) => before[file.id := file]
      case Notify(_) => before
  }

  lemma OverlayOneMore(batches: seq<Batch>, batch: Batch)
    ensures Overlay(batches + [batch]) == Overlay(batches) + batch
  {
    assert (batches + [batch])[..|batches|] == batches;
  }

  lemma OverlayThenUpdate(shown: Batch, pending: Batch, file: Outgoing)
    ensures shown + pending[file.id := file] == (shown + pending)[file.id := file]
  {
  }

  lemma NothingPending(shown: Batch)
    ensures shown + map[] == shown
  {
  }

  /** Nothing is lost but superseded values: what was handed over, overlaid with what is still
      pending, is the last update of every file, under any clock. */
  lemma {:induction false} NothingButSupersededIsLost(calls: seq<Call>)
    ensures Overlay(Delivered(calls)) + After(calls).pending == Latest(calls)
  {
    if calls != [] {
      NothingButSupersededIsLost(calls[..|calls| - 1]);
      OneMoreCall(calls);
    }
  }

  lemma OneMoreCall(calls: seq<Call>)
    requires calls != []
    requires var before := calls[..|calls| - 1];
             Overlay(Delivered(before)) + After(before).pending == Latest(before)
    ensures Overlay(Delivered(calls)) + After(calls).pending == Latest(calls)
  {
    var before, call := calls[..|calls| - 1], calls[|calls| - 1];
    var shown, c := Overlay(Delivered(before)), After(before);
    var batch := Apply(c, call).1;
    if call.Update? {
      OverlayThenUpdate(shown, c.pending, call.file);
    }
    if batch.Some? {
      OverlayOneMore(Delivered(before), batch.value);
      NothingPending(shown + batch.value);
    } else {
      assert Delivered(calls) == Delivered(before);
    }
  }

  /** A notify leaves nothing pending: the batches alone are the last updates. */
  lemma NotifyDeliversEverything(calls: seq<Call>, lastClock: int)
    ensures var all := calls + [Notify(lastClock)];
            Overlay(Delivered(all)) == Latest(calls) && After(all).pending == map[]
  {
    var all := calls + [Notify(lastClock)];
    assert all[..|calls|] == calls;
    NothingButSupersededIsLost(all);
    assert |After(calls).pending| == 0 ==> After(calls).pending == map[];
  }

  lemma NotifyIsNoUpdate(calls: seq<Call>, lastClock: int)
    ensures Latest(calls + [Notify(lastClock)]) == Latest(calls)
  {
    assert (calls + [Notify(lastClock)])[..|calls|] == calls;
  }

  /** The end of a file's put, an update and a notify, always shows its final state. */
  lemma FinalStateIsDelivered(calls: seq<Call>, file: Outgoing, sinceClock: int, lastClock: int, notifyClock: int)
    ensures var all := calls + [Update(file, sinceClock, lastClock)] + [Notify(notifyClock)];
            file.id in Overlay(Delivered(all)) && Overlay(Delivered(all))[file.id] == file
  {
    var updated := calls + [Update(file, sinceClock, lastClock)];
    assert updated[..|calls|] == calls;
    NotifyDeliversEverything(updated, notifyClock);
  }

  /** Every batch handed over is non-empty, and no file in it was updated since by that time. */
  lemma BatchesAreFresh(calls: seq<Call>, call: Call)
    ensures var batch := Apply(After(calls), call).1;
            batch.Some? ==> |batch.value| > 0
                            && forall id :: id in batch.value
                                 ==> id in Latest(calls + [call]) && batch.value[id] == Latest(calls + [call])[id]
  {
    var all := calls + [call];
    assert all[..|calls|] == calls;
    NothingButSupersededIsLost(calls);
    var batch := Apply(After(calls), call).1;
    if batch.Some? && call.Update? {
      assert call.file.id in batch.value;
    }
  }

  // ------------------------------------------------------------------ when batches are handed over

  /** The k-th call hands over a batch. */
  predicate HandsOver(calls: seq<Call>, k: nat)
    requires k < |calls|
  {
    Apply(After(calls[..k]), calls[k]).1.Some?
  }

  /** The later clock reading of the last call that handed over a batch. */
  function LastHandover(calls: seq<Call>): Option<int> {
    if calls == [] then None
    else if HandsOver(calls, |calls| - 1) then Some(calls[|calls| - 1].lastClock)
    else LastHandover(calls[..|calls| - 1])
  }

  lemma {:induction false} LastIsLastHandover(calls: seq<Call>)
    ensures After(calls).last == LastHandover(calls)
  {
    if calls != [] {
      LastIsLastHandover(calls[..|calls| - 1]);
    }
  }

  /** An update hands over a batch if and only if none was handed over before, or the last one a full
      second ago; a notify if and only if some file's last update has not been handed over. */
  lemma HandoverIsExact(calls: seq<Call>, call: Call)
    ensures var last := LastHandover(calls);
            Apply(After(calls), call).1.Some? <==>
            if call.Update? then last.None? || call.sinceClock >= last.value + 1_000_000_000
            else exists id :: id in After(calls).pending
  {
    LastIsLastHandover(calls);
    assert After(calls).pending.Keys == {} ==> |After(calls).pending| == 0;
    if |After(calls).pending| > 0 {
      assert |After(calls).pending.Keys| > 0;
      var id :| id in After(calls).pending.Keys;
    } else {
      assert After(calls).pending == map[];
    }
  }

  /** One clock, read twice a call, that does not run backwards. */
  predicate Steady(calls: seq<Call>) {
    && (forall k :: 0 <= k < |calls| && calls[k].Update? ==> calls[k].sinceClock == calls[k].lastClock)
    && forall j, k :: 0 <= j < k < |calls| ==> calls[j].lastClock <= calls[k].lastClock
  }

  lemma {:induction false} HandoversAreRemembered(calls: seq<Call>, i: nat)
    requires Steady(calls) && i < |calls| && HandsOver(calls, i)
    ensures LastHandover(calls).Some? && LastHandover(calls).value >= calls[i].lastClock
  {
    var before := calls[..|calls| - 1];
    if i < |before| {
      assert before[..i] == calls[..i];
      HandoversAreRemembered(before, i);
    }
  }

  /** Under such a clock an update hands over nothing within a second of any batch before it. */
  lemma BatchesAreAnIntervalApart(calls: seq<Call>, i: nat, j: nat)
    requires Steady(calls) && i < j < |calls| && calls[j].Update?
    requires HandsOver(calls, i) && HandsOver(calls, j)
    ensures calls[j].lastClock >= calls[i].lastClock + 1_000_000_000
  {
    var before := calls[..j];
    assert before[..i] == calls[..i];
    HandoversAreRemembered(before, i);
    HandoverIsExact(before, calls[j]);
  }

  class OutgoingProgress {
    var pending: Batch
    var last: Option<int>
    ghost var calls: seq<Call>
    ghost var sent: seq<Batch>

    ghost predicate Valid()
      reads this
    {
      Coalescer(pending, last) == After(calls) && sent == Delivered(calls)
    }

    constructor ()
      ensures Valid() && calls == []
    {
      pending, last := map[], None;
      calls, sent := [], [];
    }

    method Update(file: Outgoing, sinceClock: int, lastClock: int) returns (updates: Option<Batch>)
      requires Valid()
      modifies this
      ensures Valid() && calls == old(calls) + [Call.Update(file, sinceClock, lastClock)]
      ensures sent == old(sent) + if updates.Some? then [updates.value] else []
      ensures Overlay(sent) + pending == Latest(calls)
      ensures updates.Some? <==> old(last).None? || sinceClock - old(last).value >= 1_000_000_000
      ensures updates.Some? ==> updates.value == old(pending)[file.id := file] && last == Some(lastClock)
      ensures updates.None? ==> last == old(last)
    {
      updates := None;
      pending := pending[file.id := file];
      if Due(last, sinceClock) {
        updates, pending := Some(pending), map[];
        last := Some(lastClock);
      }
      Record(Call.Update(file, sinceClock, lastClock), updates);
      NothingButSupersededIsLost(calls);
    }

    method Notify(lastClock: int) returns (updates: Option<Batch>)
      requires Valid()
      modifies this
      ensures Valid() && calls == old(calls) + [Call.Notify(lastClock)]
      ensures sent == old(sent) + if updates.Some? then [updates.value] else []
      ensures pending == map[] && Overlay(sent) == Latest(calls)
      ensures updates == if old(pending) == map[] then None else Some(old(pending))
      ensures last == if updates.Some? then Some(lastClock) else old(last)
    {
      updates := None;
      if |pending| > 0 {
        updates, pending := Some(pending), map[];
        last := Some(lastClock);
      }
      ghost var before := calls;
      Record(Call.Notify(lastClock), updates);
      NotifyDeliversEverything(before, lastClock);
      NotifyIsNoUpdate(before, lastClock);
    }

    ghost method Record(call: Call, updates: Option<Batch>)
      requires (Coalescer(pending, last), updates) == Apply(After(calls), call) && sent == Delivered(calls)
      modifies this`calls, this`sent
      ensures Valid() && calls == old(calls) + [call]
      ensures sent == old(sent) + if updates.Some? then [updates.value] else []
    {
      assert (calls + [call])[..|calls|] == calls;
      calls := calls + [call];
      sent := sent + if updates.Some? then [updates.value] else [];
    }
  }
}
