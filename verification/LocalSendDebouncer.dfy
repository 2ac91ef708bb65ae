/**
 The LocalSend availability debouncer: what one accepted sweep does to the
 published statuses and to the failure counters, and what a whole history of
 accepted sweeps publishes.  The in-place loop that carries it out is
 BackendController.UpdateMeshArcDeviceStatuses.
 */
module LocalSendDebouncer {
  import opened Wrappers

  type PeerKey = string

  datatype Availability = Available | Unavailable | Checking

  datatype Status = Status(state: Availability, protocol: string, port: nat, version: string, checkedAtMs: int)

  /** One sweep's findings.  A peer that is offline or expired is not in the map. */
  type Sample = map<PeerKey, Status>

  datatype Devices = Devices(statuses: map<PeerKey, Status>, failures: map<PeerKey, nat>)

  const NoDevices := Devices(map[], map[])

  /** A probe reports "available" or "unavailable" and nothing else. */
  predicate ProbeSample(sample: Sample) {
    forall k :: k in sample ==> sample[k].state in {Available, Unavailable}
  }

  // ---------------------------------------------------------------- one sweep

  /** A published verdict that is neither "available" nor "checking" is settled: a
      further miss is published at once and needs no counter. */
  predicate Settled(previous: Option<Status>) {
    previous.Some? && previous.value.state == Unavailable
  }

  function CheckingSince(checkedAtMs: int): Status {
    Status(Checking, "", 0, "", checkedAtMs)
  }

  function NextFailures(previous: Option<Status>, failures: Option<nat>, now: Option<Status>): Option<nat> {
    match now
    case None => None
    case Some(status) =>
      if status.state == Available || Settled(previous) then None
      else Some((if failures.Some? then failures.value else 0) + 1)
  }

  function NextStatus(previous: Option<Status>, failures: Option<nat>, now: Option<Status>): (next: Option<Status>)
    ensures next.Some? <==> now.Some?
  {
    var count := NextFailures(previous, failures, now);
    if count.Some? && count.value < 2 && now.Some? then
      if previous.Some? then previous else Some(CheckingSince(now.value.checkedAtMs))
    else
      now
  }

  function StatusAfter(before: Devices, sample: Sample, k: PeerKey): Option<Status> {
    NextStatus(Lookup(before.statuses, k), Lookup(before.failures, k), Lookup(sample, k))
  }

  function FailuresAfter(before: Devices, sample: Sample, k: PeerKey): Option<nat> {
    NextFailures(Lookup(before.statuses, k), Lookup(before.failures, k), Lookup(sample, k))
  }

  /** The tables after an accepted sweep, entry by entry. */
  ghost predicate Merged(before: Devices, sample: Sample, after: Devices) {
    forall k ::
      && Lookup(after.statuses, k) == StatusAfter(before, sample, k)
      && Lookup(after.failures, k) == FailuresAfter(before, sample, k)
  }

  function Accept(before: Devices, sample: Sample): (after: Devices)
    ensures Merged(before, sample, after)
  {
    Devices(map k | k in sample :: StatusAfter(before, sample, k).value,
            map k | k in sample && FailuresAfter(before, sample, k).Some? :: FailuresAfter(before, sample, k).value)
  }

  /** The entries decide the tables, so no iteration order of the source's maps can matter. */
  lemma MergedIsDeterministic(before: Devices, sample: Sample, a: Devices, b: Devices)
    requires Merged(before, sample, a) && Merged(before, sample, b)
    ensures a == b
  {
    forall k
      ensures Lookup(a.statuses, k) == Lookup(b.statuses, k)
      ensures Lookup(a.failures, k) == Lookup(b.failures, k)
    {
    }
    SameEntries(a.statuses, b.statuses);
    SameEntries(a.failures, b.failures);
  }

  lemma SameEntries<K, V>(a: map<K, V>, b: map<K, V>)
    requires forall k :: k in a || k in b ==> Lookup(a, k) == Lookup(b, k)
    ensures a == b
  {
    forall k | k in a || k in b
      ensures k in a && k in b && a[k] == b[k]
    {
      assert Lookup(a, k) == Lookup(b, k);
    }
  }

  /** The retry flag of a manual refresh. */
  ghost predicate PendingFailure(devices: Devices) {
    exists k :: k in devices.failures && devices.failures[k] == 1
  }

  // ------------------------------------------------------------ whole history

  /** The tables after every accepted sweep of one backend generation, oldest first. */
  function Replay(history: seq<Sample>): Devices {
    if history == [] then NoDevices
    else Accept(Replay(history[..|history| - 1]), history[|history| - 1])
  }

  /** What the sweep `back` places before the latest one found for a peer. */
  function Sampled(history: seq<Sample>, k: PeerKey, back: nat): Option<Status> {
    if back < |history| then Lookup(history[|history| - 1 - back], k) else None
  }

  predicate Failed(found: Option<Status>) {
    found.Some? && found.value.state != Available
  }

  /** The debounced verdict, from the last two samples alone. */
  function Verdict(earlier: Option<Status>, latest: Option<Status>): Option<Status> {
    if !Failed(latest) || Failed(earlier) then latest
    else if earlier.Some? then earlier
    else Some(CheckingSince(latest.value.checkedAtMs))
  }

  /** How many consecutive latest samples failed. */
  function FailRun(history: seq<Sample>, k: PeerKey): nat {
    if history == [] || !Failed(Sampled(history, k, 0)) then 0
    else FailRun(history[..|history| - 1], k) + 1
  }

  /** The counter: live for the first two misses of a run, gone from the third on. */
  function Counter(run: nat): Option<nat> {
    if run == 1 || run == 2 then Some(run) else None
  }

  predicate ProbeEntry(found: Option<Status>) {
    found.Some? ==> found.value.state in {Available, Unavailable}
  }

  /** One more sample moves one peer's entries from the verdict on (x, y) to that on (y, z). */
  lemma OneMoreSample(x: Option<Status>, y: Option<Status>, z: Option<Status>, run: nat)
    requires ProbeEntry(x) && ProbeEntry(y) && ProbeEntry(z)
    requires run == 0 <==> !Failed(y)
    requires run == 1 <==> Failed(y) && !Failed(x)
    ensures NextStatus(Verdict(x, y), Counter(run), z) == Verdict(y, z)
    ensures NextFailures(Verdict(x, y), Counter(run), z) == Counter(if Failed(z) then run + 1 else 0)
  {
  }

  lemma {:induction false} DebounceTheorem(history: seq<Sample>, k: PeerKey)
    requires forall i :: 0 <= i < |history| ==> ProbeSample(history[i])
    ensures Lookup(Replay(history).statuses, k) == Verdict(Sampled(history, k, 1), Sampled(history, k, 0))
    ensures Lookup(Replay(history).failures, k) == Counter(FailRun(history, k))
  {
    if history != [] {
      var before, sample := history[..|history| - 1], history[|history| - 1];
      DebounceTheorem(before, k);
      var x, y, z := Sampled(history, k, 2), Sampled(history, k, 1), Sampled(history, k, 0);
      assert y == Sampled(before, k, 0) && x == Sampled(before, k, 1) && z == Lookup(sample, k);
      assert ProbeEntry(x) && ProbeEntry(y) && ProbeEntry(z) by {
        assert forall i :: 0 <= i < |history| && k in history[i] ==> ProbeSample(history[i]);
      }
      RunOfOne(before, k);
      OneMoreSample(x, y, z, FailRun(before, k));
      assert Replay(history) == Accept(Replay(before), sample);
      assert FailRun(history, k) == if Failed(z) then FailRun(before, k) + 1 else 0;
    }
  }

  /** What is shown of a peer after any history, in full: nothing if the last sweep did not list it, what
      that sweep found if the peer answered or has missed twice in a row, what the sweep before found if
      only the last one missed, and "checking" if that was the first to list it. */
  lemma PublishedStatusInFull(history: seq<Sample>, k: PeerKey)
    requires forall i :: 0 <= i < |history| ==> ProbeSample(history[i])
    ensures var shown := Lookup(Replay(history).statuses, k);
            match (Sampled(history, k, 1), Sampled(history, k, 0))
            case (_, None) => shown == None
            case (_, Some(Status(Available, protocol, port, version, checkedAtMs))) =>
              shown == Some(Status(Available, protocol, port, version, checkedAtMs))
            case (Some(Status(Available, protocol, port, version, checkedAtMs)), Some(_)) =>
              shown == Some(Status(Available, protocol, port, version, checkedAtMs))
            case (Some(_), Some(missed)) => shown == Some(missed) && missed.state == Unavailable
            case (None, Some(missed)) => shown == Some(Status(Checking, "", 0, "", missed.checkedAtMs))
    ensures var failures := Lookup(Replay(history).failures, k);
            match (Sampled(history, k, 1), Sampled(history, k, 0))
            case (_, None) => failures == None
            case (_, Some(Status(Available, _, _, _, _))) => failures == None
            case (Some(Status(Unavailable, _, _, _, _)), Some(_)) => failures == None || failures == Some(2)
            case (_, Some(_)) => failures == Some(1)
  {
    DebounceTheorem(history, k);
    RunOfOne(history, k);
    assert forall i :: 0 <= i < |history| && k in history[i] ==> ProbeSample(history[i]);
  }

  /** "Available" was found by one of the last two sweeps, and "unavailable" by both. */
  lemma NothingShownUnseen(history: seq<Sample>, k: PeerKey)
    requires forall i :: 0 <= i < |history| ==> ProbeSample(history[i])
    requires k in Replay(history).statuses
    ensures var shown := Replay(history).statuses[k];
            && (shown.state == Available ==> exists back: nat :: back < 2 && Sampled(history, k, back) == Some(shown))
            && (shown.state == Unavailable ==>
                  && Sampled(history, k, 0) == Some(shown)
                  && Sampled(history, k, 1).Some? && Sampled(history, k, 1).value.state == Unavailable)
  {
    PublishedStatusInFull(history, k);
    assert forall i :: 0 <= i < |history| && k in history[i] ==> ProbeSample(history[i]);
    var shown := Lookup(Replay(history).statuses, k);
    assert shown == Sampled(history, k, 0) || shown == Sampled(history, k, 1) || shown.value.state == Checking;
  }

  /** The flag is up exactly when some peer failed its last sweep and not the one before. */
  lemma PendingFailureMeaning(history: seq<Sample>)
    requires forall i :: 0 <= i < |history| ==> ProbeSample(history[i])
    ensures PendingFailure(Replay(history))
            <==> exists k :: Failed(Sampled(history, k, 0)) && !Failed(Sampled(history, k, 1))
  {
    forall k
      ensures k in Replay(history).failures && Replay(history).failures[k] == 1
              <==> Failed(Sampled(history, k, 0)) && !Failed(Sampled(history, k, 1))
    {
      DebounceTheorem(history, k);
      RunOfOne(history, k);
      assert Lookup(Replay(history).failures, k) == Counter(FailRun(history, k));
    }
  }

  lemma RunOfOne(history: seq<Sample>, k: PeerKey)
    ensures FailRun(history, k) == 1 <==> Failed(Sampled(history, k, 0)) && !Failed(Sampled(history, k, 1))
  {
    if |history| > 1 {
      assert Sampled(history[..|history| - 1], k, 0) == Sampled(history, k, 1);
    }
  }

  lemma FailuresNeverExceedTwo(history: seq<Sample>, k: PeerKey)
    requires forall i :: 0 <= i < |history| ==> ProbeSample(history[i])
    ensures k in Replay(history).failures ==> 1 <= Replay(history).failures[k] <= 2
  {
    DebounceTheorem(history, k);
    assert Lookup(Replay(history).failures, k) == Counter(FailRun(history, k));
  }

  /** The sweeps a manual refresh gets accepted: a second one only while a first miss is
      pending and the time budget allows it. */
  ghost function Refreshed(history: seq<Sample>, first: Sample, second: Sample, budgetLeft: bool): seq<Sample> {
    if PendingFailure(Replay(history + [first])) && budgetLeft
    then history + [first] + [second]
    else history + [first]
  }

  /** A peer that fails every sample the refresh takes ends "unavailable", also when the
      refresh found nothing pending and skipped its second sweep. */
  lemma RefreshSettlesFailedPeer(history: seq<Sample>, first: Sample, second: Sample, k: PeerKey)
    requires forall i :: 0 <= i < |history| ==> ProbeSample(history[i])
    requires ProbeSample(first) && ProbeSample(second)
    requires Failed(Lookup(first, k)) && Failed(Lookup(second, k))
    ensures var devices := Replay(Refreshed(history, first, second, true));
            k in devices.statuses && devices.statuses[k].state == Unavailable
  {
    var once := history + [first];
    var twice := once + [second];
    assert Sampled(once, k, 0) == Lookup(first, k);
    assert Sampled(twice, k, 0) == Lookup(second, k);
    assert Sampled(twice, k, 1) == Lookup(first, k);
    if PendingFailure(Replay(once)) {
      DebounceTheorem(twice, k);
      assert Lookup(Replay(twice).statuses, k) == Lookup(second, k);
    } else {
      PendingFailureMeaning(once);
      assert Failed(Sampled(once, k, 1));
      DebounceTheorem(once, k);
      assert Lookup(Replay(once).statuses, k) == Lookup(first, k);
    }
  }

  /** One miss of a peer that was available is not shown, whatever came before. */
  lemma SingleMissKeepsAvailable(history: seq<Sample>, seen: Sample, missed: Sample, k: PeerKey)
    requires forall i :: 0 <= i < |history| ==> ProbeSample(history[i])
    requires ProbeSample(seen) && ProbeSample(missed)
    requires k in seen && seen[k].state == Available && k in missed && missed[k].state != Available
    ensures Lookup(Replay(history + [seen, missed]).statuses, k) == Some(seen[k])
  {
    var h := history + [seen, missed];
    assert Sampled(h, k, 0) == Some(missed[k]) && Sampled(h, k, 1) == Some(seen[k]);
    DebounceTheorem(h, k);
  }
}
