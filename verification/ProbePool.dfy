/**
 The probe of a LocalSend sweep (native/go_bridge/mesharc_devices.go): which addresses are tried, the
 worker pool that tries them, and how the results become one item per device and one sample.
 */
module ProbePool {
  import opened Wrappers
  import opened LocalSendDebouncer

  const PROBE_WORKERS: nat := 8
  const LOCAL_SEND_PORT: nat := 53317

  datatype Address = Address(text: string, valid: bool, is4: bool)
  datatype Peer = Peer(key: PeerKey, online: bool, expired: bool, addresses: seq<Address>)
  datatype Candidate = Candidate(key: PeerKey, address: string)

  /** What a probe that succeeds has learned. */
  datatype Reply = Reply(protocol: string, version: string)

  /** The device list's entry for a peer. */
  datatype Item = Item(key: PeerKey, address: string, protocol: string)

  // ------------------------------------------------------------------ the workers

  datatype Worker = Idle | Probing(job: nat) | Sending(job: nat) | Exited

  /** `next` is the head of the job channel, `results` the content of the result channel; both
      channels have room for `jobs` entries. */
  datatype Pool = Pool(jobs: nat, next: nat, workers: seq<Worker>, results: seq<nat>)

  function Started(jobs: nat, workers: nat): Pool {
    Pool(jobs, 0, seq(workers, _ => Idle), [])
  }

  /** The next step of worker k.  A send into a full channel makes no progress. */
  function Move(p: Pool, k: nat, replies: nat -> Option<Reply>): Pool {
    if k >= |p.workers| then p
    else
      match p.workers[k]
      case Idle =>
        if p.next < p.jobs then p.(workers := p.workers[k := Probing(p.next)], next := p.next + 1)
        else p.(workers := p.workers[k := Exited])
      case Probing(job) => p.(workers := p.workers[k := if replies(job).Some? then Sending(job) else Idle])
      case Sending(job) =>
        if |p.results| < p.jobs then p.(workers := p.workers[k := Idle], results := p.results + [job]) else p
      case Exited => p
  }

  function Run(p: Pool, moves: seq<nat>, replies: nat -> Option<Reply>): Pool {
    if moves == [] then p else Move(Run(p, moves[..|moves| - 1], replies), moves[|moves| - 1], replies)
  }

  predicate InHand(w: Worker, job: nat) {
    w == Probing(job) || w == Sending(job)
  }

  predicate Distinct<T(==)>(s: seq<T>) {
    forall i, j :: 0 <= i < j < |s| ==> s[i] != s[j]
  }

  predicate Handled(p: Pool, replies: nat -> Option<Reply>, job: nat) {
    || job in p.results
    || (exists k :: 0 <= k < |p.workers| && InHand(p.workers[k], job))
    || replies(job).None?
  }

  /** A job is in one worker's hands or among the results at most once, and never lost. */
  ghost predicate Inv(p: Pool, replies: nat -> Option<Reply>) {
    && p.next <= p.jobs
    && Distinct(p.results)
    && (forall job :: job in p.results ==> job < p.next && replies(job).Some?)
    && (forall k :: 0 <= k < |p.workers| ==> WorkerOk(p, replies, k))
    && (forall j, k, job :: 0 <= j < k < |p.workers| && InHand(p.workers[j], job) ==> !InHand(p.workers[k], job))
    && (forall job :: 0 <= job < p.next ==> Handled(p, replies, job))
  }

  predicate WorkerOk(p: Pool, replies: nat -> Option<Reply>, k: nat)
    requires k < |p.workers|
  {
    match p.workers[k]
    case Idle => true
    case Probing(job) => job < p.next && job !in p.results
    case Sending(job) => job < p.next && job !in p.results && replies(job).Some?
    case Exited => p.next == p.jobs
  }

  lemma StillHandled(p: Pool, q: Pool, replies: nat -> Option<Reply>, k: nat, job: nat)
    requires Handled(p, replies, job) && k < |p.workers| == |q.workers|
    requires forall j :: 0 <= j < |p.workers| && j != k ==> q.workers[j] == p.workers[j]
    requires p.results <= q.results
    requires InHand(p.workers[k], job) ==> InHand(q.workers[k], job) || job in q.results || replies(job).None?
    ensures Handled(q, replies, job)
  {
    if job !in q.results && replies(job).Some? {
      assert job !in p.results;
      var j :| 0 <= j < |p.workers| && InHand(p.workers[j], job);
      assert InHand(q.workers[j], job);
    }
  }

  /** One worker has moved on, keeping its job or taking a fresh one. */
  lemma WorkersStayOk(p: Pool, q: Pool, replies: nat -> Option<Reply>, k: nat)
    requires Inv(p, replies) && k < |p.workers| == |q.workers| && q.jobs == p.jobs && p.next <= q.next <= q.jobs
    requires forall j :: 0 <= j < |p.workers| && j != k ==> q.workers[j] == p.workers[j]
    requires q.results == p.results || (p.workers[k].Sending? && q.results == p.results + [p.workers[k].job])
    requires WorkerOk(q, replies, k)
    requires forall job: nat :: InHand(q.workers[k], job) ==> InHand(p.workers[k], job) || job >= p.next
    requires q.next > p.next ==> p.next < p.jobs
    ensures forall j :: 0 <= j < |q.workers| ==> WorkerOk(q, replies, j)
    ensures forall i, j, job :: 0 <= i < j < |q.workers| && InHand(q.workers[i], job) ==> !InHand(q.workers[j], job)
  {
    forall j | 0 <= j < |q.workers| ensures WorkerOk(q, replies, j) {
      assert WorkerOk(p, replies, j);
      if j != k && p.workers[k].Sending? {
        assert !InHand(p.workers[j], p.workers[k].job) by {
          assert InHand(p.workers[k], p.workers[k].job);
        }
      }
    }
    forall i, j, job | 0 <= i < j < |q.workers| && InHand(q.workers[i], job) ensures !InHand(q.workers[j], job) {
      assert WorkerOk(p, replies, i) && WorkerOk(p, replies, j);
    }
  }

  lemma TakeKeepsInv(p: Pool, k: nat, replies: nat -> Option<Reply>)
    requires Inv(p, replies) && k < |p.workers| && p.workers[k].Idle?
    ensures Inv(Move(p, k, replies), replies)
  {
    var q := Move(p, k, replies);
    WorkersStayOk(p, q, replies, k);
    forall job | 0 <= job < q.next ensures Handled(q, replies, job) {
      if job < p.next {
        StillHandled(p, q, replies, k, job);
      } else {
        assert InHand(q.workers[k], job);
      }
    }
  }

  lemma AnswerKeepsInv(p: Pool, k: nat, replies: nat -> Option<Reply>)
    requires Inv(p, replies) && k < |p.workers| && p.workers[k].Probing?
    ensures Inv(Move(p, k, replies), replies)
  {
    var q := Move(p, k, replies);
    assert WorkerOk(p, replies, k);
    WorkersStayOk(p, q, replies, k);
    forall job | 0 <= job < q.next ensures Handled(q, replies, job) {
      StillHandled(p, q, replies, k, job);
    }
  }

  lemma SendKeepsInv(p: Pool, k: nat, replies: nat -> Option<Reply>)
    requires Inv(p, replies) && k < |p.workers| && p.workers[k].Sending?
    ensures Inv(Move(p, k, replies), replies)
  {
    var q := Move(p, k, replies);
    if q != p {
      var sent := p.workers[k].job;
      assert q.results[|p.results|] == sent;
      forall job | 0 <= job < q.next ensures Handled(q, replies, job) {
        StillHandled(p, q, replies, k, job);
      }
      assert WorkerOk(p, replies, k);
      WorkersStayOk(p, q, replies, k);
    }
  }

  lemma MoveKeepsInv(p: Pool, k: nat, replies: nat -> Option<Reply>)
    requires Inv(p, replies)
    ensures Inv(Move(p, k, replies), replies)
  {
    if k < |p.workers| {
      match p.workers[k]
      case Idle => TakeKeepsInv(p, k, replies);
      case Probing(_) => AnswerKeepsInv(p, k, replies);
      case Sending(_) => SendKeepsInv(p, k, replies);
      case Exited =>
    }
  }

  lemma {:induction false} ReachableInv(jobs: nat, workers: nat, moves: seq<nat>, replies: nat -> Option<Reply>)
    ensures var p := Run(Started(jobs, workers), moves, replies);
            Inv(p, replies) && p.jobs == jobs && |p.workers| == workers
  {
    if moves != [] {
      ReachableInv(jobs, workers, moves[..|moves| - 1], replies);
      MoveKeepsInv(Run(Started(jobs, workers), moves[..|moves| - 1], replies), moves[|moves| - 1], replies);
    }
  }

  // ------------------------------------------------------------------ no worker blocks

  lemma {:induction false} DistinctBelow(s: seq<nat>, n: nat)
    requires Distinct(s) && forall i :: 0 <= i < |s| ==> s[i] < n
    ensures |s| <= n
  {
    if s != [] {
      assert s[0] < n;
      if n - 1 in s {
        var i :| 0 <= i < |s| && s[i] == n - 1;
        DistinctBelow(s[..i] + s[i + 1..], n - 1);
      } else {
        DistinctBelow(s, n - 1);
      }
    }
  }

  lemma RoomForOneMore(p: Pool, replies: nat -> Option<Reply>, k: nat)
    requires Inv(p, replies) && k < |p.workers| && p.workers[k].Sending?
    ensures |p.results| < p.jobs
  {
    assert WorkerOk(p, replies, k);
    var all := p.results + [p.workers[k].job];
    forall i | 0 <= i < |all| ensures all[i] < p.jobs {
      assert i < |p.results| ==> p.results[i] in p.results;
    }
    DistinctBelow(all, p.jobs);
  }

  /** A worker that has a result to send always finds room in the channel. */
  lemma NoWorkerBlocks(jobs: nat, workers: nat, moves: seq<nat>, replies: nat -> Option<Reply>, k: nat)
    requires k < workers
    ensures var p := Run(Started(jobs, workers), moves, replies);
            |p.workers| == workers && (p.workers[k].Sending? ==> |p.results| < jobs)
  {
    ReachableInv(jobs, workers, moves, replies);
    var p := Run(Started(jobs, workers), moves, replies);
    if p.workers[k].Sending? {
      RoomForOneMore(p, replies, k);
    }
  }

  // ------------------------------------------------------------------ the pool finishes

  function Effort(w: Worker): nat {
    match w case Exited => 0 case Idle => 1 case Sending(_) => 2 case Probing(_) => 3
  }

  function TotalEffort(workers: seq<Worker>): nat {
    if workers == [] then 0 else Effort(workers[0]) + TotalEffort(workers[1..])
  }

  function Work(p: Pool): int {
    3 * (p.jobs - p.next) + TotalEffort(p.workers)
  }

  lemma {:induction false} EffortOfUpdate(workers: seq<Worker>, k: nat, w: Worker)
    requires k < |workers|
    ensures TotalEffort(workers[k := w]) == TotalEffort(workers) - Effort(workers[k]) + Effort(w)
  {
    if k > 0 {
      EffortOfUpdate(workers[1..], k - 1, w);
      assert workers[k := w][1..] == workers[1..][k - 1 := w];
    } else {
      assert workers[k := w][1..] == workers[1..];
    }
  }

  /** Every step of a worker that has not exited brings the end nearer, whichever worker it is. */
  lemma EveryMoveCounts(p: Pool, k: nat, replies: nat -> Option<Reply>)
    requires Inv(p, replies) && k < |p.workers| && !p.workers[k].Exited?
    ensures 0 <= Work(Move(p, k, replies)) < Work(p)
  {
    var q := Move(p, k, replies);
    assert WorkerOk(p, replies, k);
    if p.workers[k].Sending? {
      RoomForOneMore(p, replies, k);
    }
    EffortOfUpdate(p.workers, k, q.workers[k]);
    assert q.workers == p.workers[k := q.workers[k]];
    MoveKeepsInv(p, k, replies);
  }

  predicate AllExited(p: Pool) {
    forall k :: 0 <= k < |p.workers| ==> p.workers[k].Exited?
  }

  /** Once all workers have exited, the channel holds every address that answered, once. */
  lemma ResultsAreTheAnswers(p: Pool, replies: nat -> Option<Reply>)
    requires Inv(p, replies) && AllExited(p) && p.workers != []
    ensures Distinct(p.results)
    ensures forall job: nat :: job in p.results <==> job < p.jobs && replies(job).Some?
  {
    assert WorkerOk(p, replies, 0);
    forall job: nat | job < p.jobs && replies(job).Some? ensures job in p.results {
      assert Handled(p, replies, job);
    }
  }

  // ------------------------------------------------------------------ which addresses are tried

  predicate Online(peer: Option<Peer>) {
    peer.Some? && peer.value.online && !peer.value.expired
  }

  predicate Offers(addresses: seq<Address>, text: string) {
    exists i :: 0 <= i < |addresses| && addresses[i].valid && addresses[i].text == text
  }

  predicate OffersIPv4(addresses: seq<Address>, text: string) {
    exists i :: 0 <= i < |addresses| && addresses[i].valid && addresses[i].is4 && addresses[i].text == text
  }

  /** The valid IPv4 addresses when there are any, all valid ones otherwise; each once. */
  method MeshArcPeerAddresses(addresses: seq<Address>) returns (result: seq<string>)
    ensures Distinct(result)
    ensures (exists text :: OffersIPv4(addresses, text)) ==>
              forall text :: text in result <==> OffersIPv4(addresses, text)
    ensures !(exists text :: OffersIPv4(addresses, text)) ==>
              forall text :: text in result <==> Offers(addresses, text)
  {
    result := [];
    var seen: set<string> := {};
    for i := 0 to |addresses|
      invariant seen == (set text | text in result) && Distinct(result)
      invariant forall text :: text in result <==> OffersIPv4(addresses[..i], text)
    {
      OneMoreAddress(addresses, i);
      var address := addresses[i];
      if !address.valid || !address.is4 {
        continue;
      }
      if address.text in seen {
        continue;
      }
      seen := seen + {address.text};
      result := result + [address.text];
    }
    assert addresses[..|addresses|] == addresses;
    if |result| > 0 {
      assert result[0] in result;
      return;
    }
    for i := 0 to |addresses|
      invariant seen == (set text | text in result) && Distinct(result)
      invariant forall text :: text in result <==> Offers(addresses[..i], text)
    {
      OneMoreAddress(addresses, i);
      var address := addresses[i];
      if !address.valid {
        continue;
      }
      if address.text in seen {
        continue;
      }
      seen := seen + {address.text};
      result := result + [address.text];
    }
    assert addresses[..|addresses|] == addresses;
  }

  lemma OneMoreAddress(addresses: seq<Address>, i: nat)
    requires i < |addresses|
    ensures forall text :: Offers(addresses[..i + 1], text) <==>
              (Offers(addresses[..i], text) || (addresses[i].valid && addresses[i].text == text))
    ensures forall text :: OffersIPv4(addresses[..i + 1], text) <==>
              (OffersIPv4(addresses[..i], text)
               || (addresses[i].valid && addresses[i].is4 && addresses[i].text == text))
  {
    var before, after := addresses[..i], addresses[..i + 1];
    assert after == before + [addresses[i]];
    forall text
      ensures Offers(after, text) <==> (Offers(before, text) || (addresses[i].valid && addresses[i].text == text))
      ensures OffersIPv4(after, text) <==>
                (OffersIPv4(before, text) || (addresses[i].valid && addresses[i].is4 && addresses[i].text == text))
    {
      if addresses[i].valid && addresses[i].text == text {
        assert after[i] == addresses[i];
      }
      if Offers(before, text) {
        var j :| 0 <= j < |before| && before[j].valid && before[j].text == text;
        assert after[j] == before[j];
      }
      if OffersIPv4(before, text) {
        var j :| 0 <= j < |before| && before[j].valid && before[j].is4 && before[j].text == text;
        assert after[j] == before[j];
      }
    }
  }
}
