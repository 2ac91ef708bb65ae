/**
 One LocalSend sweep from the peer list to the sample (native/go_bridge/mesharc_devices.go): candidates
 are collected, the workers try them in any interleaving, and the results are drained.
 */
module ProbeSweep {
  import opened Wrappers
  import opened LocalSendDebouncer
  import opened ProbePool

  /** The addresses of a peer that are tried: its IPv4 addresses when it has any. */
  ghost predicate Tried(addresses: seq<Address>, text: string) {
    if exists any :: OffersIPv4(addresses, any) then OffersIPv4(addresses, text) else Offers(addresses, text)
  }

  ghost predicate CandidateOf(peers: seq<Option<Peer>>, c: Candidate) {
    exists i :: 0 <= i < |peers| && CandidateAt(peers[i], c)
  }

  ghost predicate CandidateAt(peer: Option<Peer>, c: Candidate) {
    Online(peer) && peer.value.key == c.key && Tried(peer.value.addresses, c.address)
  }

  predicate Listed(peers: seq<Option<Peer>>, k: PeerKey) {
    exists i :: 0 <= i < |peers| && Online(peers[i]) && peers[i].value.key == k
  }

  /** The peer is reachable through at least one of its addresses. */
  ghost predicate Reachable(peers: seq<Option<Peer>>, answers: map<Candidate, Reply>, k: PeerKey) {
    exists text :: CandidateOf(peers, Candidate(k, text)) && Candidate(k, text) in answers
  }

  function Unreachable(checkedAtMs: int): Status {
    Status(Unavailable, "", 0, "", checkedAtMs)
  }

  function Found(reply: Reply, checkedAtMs: int): Status {
    Status(Available, reply.protocol, LOCAL_SEND_PORT, reply.version, checkedAtMs)
  }

  method CollectMeshArcPeerCandidates(running: bool, peers: seq<Option<Peer>>) returns (candidates: seq<Candidate>)
    ensures forall c :: c in candidates <==> running && CandidateOf(peers, c)
  {
    candidates := [];
    if !running {
      return;
    }
    for i := 0 to |peers|
      invariant forall c :: c in candidates <==> CandidateOf(peers[..i], c)
    {
      OneMorePeer(peers, i);
      if peers[i].None? || !peers[i].value.online || peers[i].value.expired {
        continue;
      }
      ghost var before := candidates;
      var addresses := MeshArcPeerAddresses(peers[i].value.addresses);
      for j := 0 to |addresses|
        invariant forall c :: c in candidates <==>
                    c in before || (c.key == peers[i].value.key && c.address in addresses[..j])
      {
        candidates := candidates + [Candidate(peers[i].value.key, addresses[j])];
      }
      assert addresses[..|addresses|] == addresses;
    }
    assert peers[..|peers|] == peers;
  }

  lemma OneMorePeer(peers: seq<Option<Peer>>, i: nat)
    requires i < |peers|
    ensures forall c :: CandidateOf(peers[..i + 1], c) <==> CandidateOf(peers[..i], c) || CandidateAt(peers[i], c)
    ensures forall k :: Listed(peers[..i + 1], k) <==>
              Listed(peers[..i], k) || (Online(peers[i]) && peers[i].value.key == k)
  {
    var before, after := peers[..i], peers[..i + 1];
    assert after == before + [peers[i]];
    forall c ensures CandidateOf(after, c) <==> CandidateOf(before, c) || CandidateAt(peers[i], c) {
      if CandidateAt(peers[i], c) {
        assert CandidateAt(after[i], c);
      }
      if CandidateOf(before, c) {
        var j :| 0 <= j < |before| && CandidateAt(before[j], c);
        assert CandidateAt(after[j], c);
      }
    }
    forall k ensures Listed(after, k) <==> Listed(before, k) || (Online(peers[i]) && peers[i].value.key == k) {
      if Online(peers[i]) && peers[i].value.key == k {
        assert after[i] == peers[i];
      }
      if Listed(before, k) {
        var j :| 0 <= j < |before| && Online(before[j]) && before[j].value.key == k;
        assert after[j] == before[j];
      }
    }
  }

  /** The workers run until all have exited; which of them moves next is anybody's choice. */
  method RunWorkers(jobs: nat, replies: nat -> Option<Reply>) returns (results: seq<nat>)
    requires jobs > 0
    ensures Distinct(results)
    ensures forall job: nat :: job in results <==> job < jobs && replies(job).Some?
  {
    var workers := if jobs < PROBE_WORKERS then jobs else PROBE_WORKERS;
    var pool := Started(jobs, workers);
    ReachableInv(jobs, workers, [], replies);
    while exists k: nat :: k < |pool.workers| && !pool.workers[k].Exited?
      invariant Inv(pool, replies) && pool.jobs == jobs && |pool.workers| == workers && Work(pool) >= 0
      decreases Work(pool)
    {
      var k: nat :| k < |pool.workers| && !pool.workers[k].Exited?;
      EveryMoveCounts(pool, k, replies);
      MoveKeepsInv(pool, k, replies);
      pool := Move(pool, k, replies);
    }
    ResultsAreTheAnswers(pool, replies);
    results := pool.results;
  }

  /** An item is that of one address of its peer, whose answer its peer's status gives. */
  ghost predicate FromResult(candidates: seq<Candidate>, replies: nat -> Option<Reply>, results: seq<nat>,
                             item: Item, statuses: Sample, checkedAtMs: int) {
    && item.key in statuses
    && exists j: nat :: ResultFor(candidates, results, j, item.key)
                        && candidates[results[j]].address == item.address
                        && ReplyShown(replies(results[j]), item, statuses[item.key], checkedAtMs)
  }

  predicate ReplyShown(reply: Option<Reply>, item: Item, status: Status, checkedAtMs: int) {
    && reply.Some? && item.protocol == reply.value.protocol
    && status == Status(Available, reply.value.protocol, 53317, reply.value.version, checkedAtMs)
  }

  /** The address of an item is a tried one of its peer's, it answered, and the status is its answer. */
  ghost predicate ItemOfAnswer(peers: seq<Option<Peer>>, answers: map<Candidate, Reply>, item: Item,
                               statuses: Sample, checkedAtMs: int) {
    var c := Candidate(item.key, item.address);
    && CandidateOf(peers, c) && item.key in statuses
    && ReplyShown(Lookup(answers, c), item, statuses[item.key], checkedAtMs)
  }

  predicate OneItemEach(items: seq<Item>) {
    forall i, j :: 0 <= i < j < |items| ==> items[i].key != items[j].key
  }

  /** Some item is the peer's. */
  predicate Shown(items: seq<Item>, k: PeerKey) {
    exists i :: 0 <= i < |items| && items[i].key == k
  }

  lemma ItemAdded(items: seq<Item>, item: Item)
    ensures forall k :: Shown(items + [item], k) <==> Shown(items, k) || item.key == k
    ensures OneItemEach(items) && !Shown(items, item.key) ==> OneItemEach(items + [item])
  {
    var more := items + [item];
    forall k ensures Shown(more, k) <==> Shown(items, k) || item.key == k {
      if Shown(items, k) {
        var i :| 0 <= i < |items| && items[i].key == k;
        assert more[i].key == k;
      }
      assert more[|items|] == item;
    }
  }

  /** The j-th result is one for peer k. */
  predicate ResultFor(candidates: seq<Candidate>, results: seq<nat>, j: nat, k: PeerKey) {
    j < |results| && results[j] < |candidates| && candidates[results[j]].key == k
  }

  /** Some result of the peer has given it its status. */
  ghost predicate FoundIn(candidates: seq<Candidate>, replies: nat -> Option<Reply>, results: seq<nat>,
                          k: PeerKey, status: Status, checkedAtMs: int) {
    exists j: nat :: ResultFor(candidates, results, j, k) && replies(results[j]).Some?
                     && status == Found(replies(results[j]).value, checkedAtMs)
  }

  /** The first i results have been taken: of each peer among them, one decides its status. */
  ghost predicate Drained(candidates: seq<Candidate>, replies: nat -> Option<Reply>, results: seq<nat>, i: nat,
                          before: Sample, seenKeys: set<PeerKey>, statuses: Sample, checkedAtMs: int) {
    && statuses.Keys == before.Keys && seenKeys <= before.Keys
    && (forall k, j: nat :: ResultFor(candidates, results, j, k) && j < i ==> k in seenKeys)
    && (forall k :: k in statuses && k !in seenKeys ==> statuses[k] == before[k])
    && forall k :: k in seenKeys ==> FoundIn(candidates, replies, results, k, statuses[k], checkedAtMs)
  }

  /** Taking one more result: it decides if it is its peer's first, and changes nothing otherwise. */
  lemma OneMoreResult(candidates: seq<Candidate>, replies: nat -> Option<Reply>, results: seq<nat>, i: nat,
                      before: Sample, seenKeys: set<PeerKey>, statuses: Sample, checkedAtMs: int)
    requires Drained(candidates, replies, results, i, before, seenKeys, statuses, checkedAtMs)
    requires i < |results| && results[i] < |candidates| && replies(results[i]).Some?
    requires candidates[results[i]].key in before
    ensures var key, reply := candidates[results[i]].key, replies(results[i]).value;
            if key in seenKeys
            then Drained(candidates, replies, results, i + 1, before, seenKeys, statuses, checkedAtMs)
            else Drained(candidates, replies, results, i + 1, before, seenKeys + {key},
                         statuses[key := Found(reply, checkedAtMs)], checkedAtMs)
  {
    var key, reply := candidates[results[i]].key, replies(results[i]).value;
    assert ResultFor(candidates, results, i, key);
    assert FoundIn(candidates, replies, results, key, Found(reply, checkedAtMs), checkedAtMs);
  }

  /** With all the results taken, the peers among them are the available ones. */
  lemma AllDrained(candidates: seq<Candidate>, replies: nat -> Option<Reply>, results: seq<nat>,
                   before: Sample, seenKeys: set<PeerKey>, statuses: Sample, checkedAtMs: int)
    requires Drained(candidates, replies, results, |results|, before, seenKeys, statuses, checkedAtMs)
    requires forall k :: k in before ==> before[k].state == Unavailable
    ensures forall k :: k in statuses ==> (statuses[k].state == Available <==> k in seenKeys)
    ensures forall k, j: nat :: k in statuses && ResultFor(candidates, results, j, k) ==> statuses[k].state == Available
    ensures forall k :: k in statuses && statuses[k].state == Available ==>
              FoundIn(candidates, replies, results, k, statuses[k], checkedAtMs)
    ensures forall k :: k in statuses && statuses[k].state != Available ==> statuses[k] == before[k]
  {
    forall k | k in statuses ensures statuses[k].state == Available <==> k in seenKeys {
      assert k in seenKeys ==> FoundIn(candidates, replies, results, k, statuses[k], checkedAtMs);
    }
  }

  /** The items so far: one for each peer among the results taken, with its status. */
  ghost predicate ItemsOk(candidates: seq<Candidate>, replies: nat -> Option<Reply>, results: seq<nat>,
                          items: seq<Item>, seenKeys: set<PeerKey>, statuses: Sample, checkedAtMs: int) {
    && OneItemEach(items)
    && (forall k :: k in seenKeys <==> Shown(items, k))
    && forall item :: item in items ==>
         item.key in seenKeys && FromResult(candidates, replies, results, item, statuses, checkedAtMs)
  }

  lemma OneMoreItem(candidates: seq<Candidate>, replies: nat -> Option<Reply>, results: seq<nat>, i: nat,
                    items: seq<Item>, seenKeys: set<PeerKey>, statuses: Sample, checkedAtMs: int)
    requires ItemsOk(candidates, replies, results, items, seenKeys, statuses, checkedAtMs)
    requires i < |results| && results[i] < |candidates| && replies(results[i]).Some?
    requires candidates[results[i]].key !in seenKeys
    ensures var c, reply := candidates[results[i]], replies(results[i]).value;
            ItemsOk(candidates, replies, results, items + [Item(c.key, c.address, reply.protocol)],
                    seenKeys + {c.key}, statuses[c.key := Found(reply, checkedAtMs)], checkedAtMs)
  {
    var c, reply := candidates[results[i]], replies(results[i]).value;
    var item := Item(c.key, c.address, reply.protocol);
    var after := statuses[c.key := Found(reply, checkedAtMs)];
    ItemAdded(items, item);
    assert ResultFor(candidates, results, i, c.key);
    forall other | other in items + [item]
      ensures other.key in seenKeys + {c.key}
      ensures FromResult(candidates, replies, results, other, after, checkedAtMs)
    {
      if other in items {
        assert FromResult(candidates, replies, results, other, statuses, checkedAtMs);
      }
    }
  }

  /** The first result of each peer counts. */
  method DrainResults(candidates: seq<Candidate>, replies: nat -> Option<Reply>, results: seq<nat>,
                      before: Sample, checkedAtMs: int)
    returns (items: seq<Item>, statuses: Sample)
    requires forall j :: 0 <= j < |results| ==> results[j] < |candidates| && replies(results[j]).Some?
    requires forall i :: 0 <= i < |candidates| ==> candidates[i].key in before
    requires forall k :: k in before ==> before[k].state == Unavailable
    ensures statuses.Keys == before.Keys && OneItemEach(items)
    ensures forall k, j: nat :: k in statuses && ResultFor(candidates, results, j, k) ==> statuses[k].state == Available
    ensures forall k :: k in statuses && statuses[k].state == Available ==>
              FoundIn(candidates, replies, results, k, statuses[k], checkedAtMs)
    ensures forall k :: k in statuses && statuses[k].state != Available ==> statuses[k] == before[k]
    ensures forall item :: item in items ==> FromResult(candidates, replies, results, item, statuses, checkedAtMs)
    ensures forall k :: k in statuses && statuses[k].state == Available ==> Shown(items, k)
  {
    items, statuses := [], before;
    var seenKeys: set<PeerKey> := {};
    for i := 0 to |results|
      invariant Drained(candidates, replies, results, i, before, seenKeys, statuses, checkedAtMs)
      invariant ItemsOk(candidates, replies, results, items, seenKeys, statuses, checkedAtMs)
    {
      OneMoreResult(candidates, replies, results, i, before, seenKeys, statuses, checkedAtMs);
      var key, reply := candidates[results[i]].key, replies(results[i]).value;
      if key in seenKeys {
        continue;
      }
      OneMoreItem(candidates, replies, results, i, items, seenKeys, statuses, checkedAtMs);
      seenKeys := seenKeys + {key};
      var item := Item(key, candidates[results[i]].address, reply.protocol);
      items := items + [item];
      statuses := statuses[key := Found(reply, checkedAtMs)];
    }
    AllDrained(candidates, replies, results, before, seenKeys, statuses, checkedAtMs);
  }

  function Replies(candidates: seq<Candidate>, answers: map<Candidate, Reply>): nat -> Option<Reply> {
    (job: nat) => if job < |candidates| then Lookup(answers, candidates[job]) else None
  }

  /** Available exactly when a tried address answered, and then as one of them answered. */
  ghost predicate Verdict(peers: seq<Option<Peer>>, answers: map<Candidate, Reply>, k: PeerKey, status: Status,
                          checkedAtMs: int) {
    if Reachable(peers, answers, k)
    then exists text :: Candidate(k, text) in answers && CandidateOf(peers, Candidate(k, text))
           && var reply := answers[Candidate(k, text)];
              status == Status(Available, reply.protocol, 53317, reply.version, checkedAtMs)
    else status == Status(Unavailable, "", 0, "", checkedAtMs)
  }

  lemma ResultsDecide(peers: seq<Option<Peer>>, candidates: seq<Candidate>, answers: map<Candidate, Reply>,
                      results: seq<nat>, statuses: Sample, k: PeerKey, checkedAtMs: int)
    requires k in statuses && forall c :: c in candidates <==> CandidateOf(peers, c)
    requires forall job: nat :: job in results <==> job < |candidates| && Replies(candidates, answers)(job).Some?
    requires forall j: nat :: ResultFor(candidates, results, j, k) ==> statuses[k].state == Available
    requires statuses[k].state == Available ==>
               FoundIn(candidates, Replies(candidates, answers), results, k, statuses[k], checkedAtMs)
    requires statuses[k].state != Available ==> statuses[k] == Unreachable(checkedAtMs)
    ensures Verdict(peers, answers, k, statuses[k], checkedAtMs)
  {
    if Reachable(peers, answers, k) {
      var text :| CandidateOf(peers, Candidate(k, text)) && Candidate(k, text) in answers;
      var job: nat :| job < |candidates| && candidates[job] == Candidate(k, text);
      assert Replies(candidates, answers)(job).Some?;
      var j: nat :| j < |results| && results[j] == job;
      assert ResultFor(candidates, results, j, k);
    }
    if statuses[k].state == Available {
      var j: nat :| ResultFor(candidates, results, j, k)
        && Replies(candidates, answers)(results[j]).Some?
        && statuses[k] == Found(Replies(candidates, answers)(results[j]).value, checkedAtMs);
      var c := candidates[results[j]];
      assert c == Candidate(k, c.address) && c in candidates;
    }
  }

  /** The sweep.  The sample lists exactly the online, unexpired peers; a peer is available exactly when
      one of its tried addresses answered, and it then has exactly one item, of the address that answered. */
  method ProbeMeshArcDeviceItems(running: bool, peers: seq<Option<Peer>>, haveClient: bool,
                                 answers: map<Candidate, Reply>, checkedAtMs: int)
    returns (items: seq<Item>, statuses: Sample)
    ensures ProbeSample(statuses)
    ensures forall k :: k in statuses <==> running && Listed(peers, k)
    ensures forall k :: k in statuses ==>
              if haveClient then Verdict(peers, answers, k, statuses[k], checkedAtMs)
              else statuses[k] == Status(Unavailable, "", 0, "", checkedAtMs)
    ensures OneItemEach(items)
    ensures forall item :: item in items ==> ItemOfAnswer(peers, answers, item, statuses, checkedAtMs)
    ensures forall k :: k in statuses && statuses[k].state == Available ==> Shown(items, k)
  {
    items, statuses := [], map[];
    if running {
      for i := 0 to |peers|
        invariant forall k :: k in statuses <==> Listed(peers[..i], k)
        invariant forall k :: k in statuses ==> statuses[k] == Unreachable(checkedAtMs)
      {
        OneMorePeer(peers, i);
        if peers[i].None? || !peers[i].value.online || peers[i].value.expired {
          continue;
        }
        statuses := statuses[peers[i].value.key := Unreachable(checkedAtMs)];
      }
      assert peers[..|peers|] == peers;
    }
    var candidates := CollectMeshArcPeerCandidates(running, peers);
    if !haveClient || |candidates| == 0 {
      return;
    }
    var replies := Replies(candidates, answers);
    var results := RunWorkers(|candidates|, replies);
    forall i | 0 <= i < |candidates| ensures candidates[i].key in statuses {
      assert candidates[i] in candidates;
    }
    forall j | 0 <= j < |results| ensures results[j] < |candidates| && replies(results[j]).Some? {
      assert results[j] in results;
    }
    items, statuses := DrainResults(candidates, replies, results, statuses, checkedAtMs);
    forall k | k in statuses ensures Verdict(peers, answers, k, statuses[k], checkedAtMs) {
      ResultsDecide(peers, candidates, answers, results, statuses, k, checkedAtMs);
    }
    forall item | item in items ensures ItemOfAnswer(peers, answers, item, statuses, checkedAtMs) {
      var j: nat :| ResultFor(candidates, results, j, item.key)
        && candidates[results[j]].address == item.address
        && ReplyShown(replies(results[j]), item, statuses[item.key], checkedAtMs);
      assert candidates[results[j]] in candidates;
    }
  }
}
