/**
 When transfers can spoil one another's files: a run in which a transfer publishes another one's file
 exists if and only if one of the files to be saved has another one's temporary name.
 */
module TaildriveNameClash {
  import opened Wrappers
  import opened TaildriveTransfers
  import opened TaildriveTransferProofs
  import opened TaildriveTransferTheorems

  /** What a caller asks for: a preview, a manual download or a staged file, and where to save it. */
  datatype Job = Job(kind: Kind, destination: Path)

  function JobTemporary(job: Job): Path {
    if job.kind == Staging then job.destination + ".tmp" else job.destination + ".part"
  }

  function JobOf(t: Transfer): Job {
    Job(t.kind, t.destination)
  }

  /** One job is to be saved under the other's temporary name. */
  predicate Clashing(job: Job, other: Job) {
    other.destination == JobTemporary(job)
  }

  ghost predicate NoClash(jobs: set<Job>) {
    forall job, other :: job in jobs && other in jobs ==> !Clashing(job, other)
  }

  /** Uploads apart, which only read, the run does these jobs, each as often and whenever it likes. */
  ghost predicate Does(w: World, jobs: set<Job>) {
    forall r :: r in w.transfers && Writes(w.transfers[r]) ==> JobOf(w.transfers[r]) in jobs
  }

  /** Every transfer that publishes a file publishes its own. */
  ghost predicate OwnFilesOnly(events: seq<Event>) {
    var w := Run(Initial, events);
    forall r :: r in w.transfers && w.transfers[r].published ==> PublishedItsOwn(events, r, w.transfers[r].content)
  }

  // ------------------------------------------------------------------ no clash, no harm

  lemma DoesBefore(w: World, e: Event, jobs: set<Job>)
    requires Does(Apply(w, e), jobs)
    ensures Does(w, jobs)
  {
    forall r | r in w.transfers && Writes(w.transfers[r]) ensures JobOf(w.transfers[r]) in jobs {
      SameFile(w, e, r);
      assert JobOf(w.transfers[r]) == JobOf(Apply(w, e).transfers[r]);
    }
  }

  lemma {:induction false} NoClashNoIntrusion(events: seq<Event>, jobs: set<Job>, r: RequestId)
    requires NoClash(jobs) && Does(Run(Initial, events), jobs)
    ensures !Intruded(events, r)
  {
    if events != [] {
      var prefix, e := events[..|events| - 1], events[|events| - 1];
      var before := Run(Initial, prefix);
      DoesBefore(before, e, jobs);
      NoClashNoIntrusion(prefix, jobs, r);
      ReachableInv(prefix);
      if Intrudes(before, e, r) {
        assert TransferOk(before.transfers[e.r]) && TemporaryOk(before, r);
        assert JobOf(before.transfers[r]) in jobs && JobOf(before.transfers[e.r]) in jobs;
        assert Clashing(JobOf(before.transfers[r]), JobOf(before.transfers[e.r]));
      }
    }
  }

  // ------------------------------------------------------------------ a clash does harm

  ghost predicate Reachable(w: World) {
    exists events :: Run(Initial, events) == w
  }

  lemma Do(w: World, e: Event) returns (next: World)
    requires Reachable(w)
    ensures next == Apply(w, e) && Reachable(next)
  {
    next := Apply(w, e);
    var events :| Run(Initial, events) == w;
    assert (events + [e])[..|events|] == events;
    assert Run(Initial, events + [e]) == next;
  }

  /** Where the two transfers and the directory stand; the slot does not matter. */
  predicate Stand(w: World, one: Transfer, two: Transfer, names: map<Path, Node>) {
    w.transfers == map[1 := one, 2 := two] && w.names == names
  }

  /** A transfer just begun, for a body of `size` bytes. */
  function Fresh(job: Job, size: nat): Transfer {
    Started(job.kind, job.destination, size)
  }

  predicate Savable(job: Job) {
    job.kind == Preview || job.kind == Manual || job.kind == Staging
  }

  lemma BothBegin(job: Job, other: Job) returns (w: World)
    requires Savable(job) && Savable(other)
    ensures Reachable(w) && Stand(w, Fresh(job, 1), Fresh(other, 0), map[])
  {
    assert Run(Initial, []) == Initial;
    w := Do(Initial, Begin(1, job.kind, job.destination, 1));
    w := Do(w, Cancel(""));
    w := Do(w, Begin(2, other.kind, other.destination, 0));
  }

  /** A transfer on its way alone, from its beginning to its first look at the directory. */
  lemma Asks(w: World, r: RequestId, size: nat) returns (v: World)
    requires Reachable(w) && r in w.transfers
    requires var t := w.transfers[r]; t == Fresh(JobOf(t), size) && Savable(JobOf(t))
    ensures Reachable(v) && v.names == w.names
    ensures v.transfers == w.transfers[r := w.transfers[r].(pc := CheckingDestination, declared := Some(size))]
  {
    v := w;
    if w.transfers[r].kind != Staging {
      v := Do(v, Respond(r, None, Some(size)));
    }
  }

  /** ... from there to a created temporary file, both names being free. */
  lemma Creates(w: World, r: RequestId) returns (v: World)
    requires Reachable(w) && At(w, r, CheckingDestination)
    requires w.transfers[r].destination !in w.names && Temporary(w.transfers[r]) !in w.names
    ensures Reachable(v) && v.names == w.names[Temporary(w.transfers[r]) := Own(r)]
    ensures v.transfers == w.transfers[r := w.transfers[r].(pc := Copying)]
  {
    v := Do(w, Step(r, None));
    if w.transfers[r].kind != Staging {
      v := Do(v, Step(r, None));
    }
    v := Do(v, Step(r, None));
  }

  /** ... through its body to the sync. */
  lemma Fills(w: World, r: RequestId, body: seq<byte>) returns (v: World)
    requires Reachable(w) && At(w, r, Copying)
    requires w.transfers[r].content == [] && w.transfers[r].declared == Some(|body|)
    ensures Reachable(v) && v.names == w.names
    ensures v.transfers == w.transfers[r := w.transfers[r].(pc := Syncing, content := body, sealed := true)]
  {
    assert [] + body == body;
    v := Do(w, Chunk(r, body));
    v := Do(v, CopyEnds(r, None));
  }

  /** ... to the rename. */
  lemma Closes(w: World, r: RequestId) returns (v: World)
    requires Reachable(w) && At(w, r, Syncing)
    ensures Reachable(v) && v.names == w.names
    ensures v.transfers == w.transfers[r := w.transfers[r].(pc := Renaming)]
  {
    v := Do(w, Step(r, None));
    v := Do(v, Step(r, None));
  }

  const ONE_BYTE: seq<byte> := [7]

  function Ready(job: Job, body: seq<byte>): Transfer {
    Fresh(job, |body|).(pc := Renaming, declared := Some(|body|), content := body, sealed := true)
  }

  function BothTemporaries(job: Job, other: Job): map<Path, Node> {
    map[JobTemporary(other) := Own(2), JobTemporary(job) := Own(1)]
  }

  function Working(job: Job, size: nat): Transfer {
    Fresh(job, size).(pc := Copying, declared := Some(size))
  }

  lemma BothCreate(job: Job, other: Job) returns (w: World)
    requires Savable(job) && Savable(other) && Clashing(job, other)
    ensures Reachable(w) && Stand(w, Working(job, 1), Working(other, 0), BothTemporaries(job, other))
  {
    assert |job.destination| < |other.destination| < |JobTemporary(other)|;
    w := BothBegin(job, other);
    w := Asks(w, 2, 0);
    w := Creates(w, 2);
    w := Asks(w, 1, 1);
    w := Creates(w, 1);
  }

  lemma BothReadyToRename(job: Job, other: Job) returns (w: World)
    requires Savable(job) && Savable(other) && Clashing(job, other)
    ensures Reachable(w) && Stand(w, Ready(job, ONE_BYTE), Ready(other, []), BothTemporaries(job, other))
  {
    w := BothCreate(job, other);
    w := Fills(w, 2, []);
    w := Closes(w, 2);
    w := Fills(w, 1, ONE_BYTE);
    w := Closes(w, 1);
  }

  lemma BothRename(w: World, job: Job, other: Job)
    requires Clashing(job, other)
    requires Stand(w, Ready(job, ONE_BYTE), Ready(other, []), BothTemporaries(job, other))
    ensures var v := Apply(w, Step(2, None));
            && Intrudes(w, Step(2, None), 1)
            && Stand(Apply(v, Step(1, None)), Ready(job, ONE_BYTE).(pc := Published, published := true),
                     Ready(other, []).(pc := Published, published := true), map[job.destination := Own(2)])
  {
    assert |job.destination| < |other.destination| < |JobTemporary(other)|;
    var v := Apply(w, Step(2, None));
    assert v.names == map[JobTemporary(job) := Own(2)];
  }

  /** Two clashing jobs, whatever they are called: the second one's file is renamed over the first one's,
      which is lost, and is then renamed once more to where the first one should be.  Both succeed. */
  lemma ClashingNamesSwapFiles(job: Job, other: Job) returns (events: seq<Event>)
    requires Savable(job) && Savable(other) && Clashing(job, other)
    ensures var w := Run(Initial, events);
            && Does(w, {job, other}) && At(w, 1, Published) && At(w, 2, Published)
            && JobOf(w.transfers[1]) == job && |w.transfers[1].content| == 1 && |w.transfers[2].content| == 0
            && w.names == map[job.destination := Own(2)]
            && Intruded(events, 1) && !OwnFilesOnly(events)
  {
    var w := BothReadyToRename(job, other);
    BothRename(w, job, other);
    var prefix :| Run(Initial, prefix) == w;
    var intruded := prefix + [Step(2, None)];
    events := intruded + [Step(1, None)];
    assert intruded[..|prefix|] == prefix && events[..|intruded|] == intruded;
    PublishedUnlessIntruded(events, 1);
  }

  // ------------------------------------------------------------------ the theorem

  /** Every run that does these jobs publishes only own files under each name if and only if no job is to
      be saved under another one's temporary name. */
  lemma OwnFilesOnlyExactlyWithoutClash(jobs: set<Job>)
    requires forall job :: job in jobs ==> Savable(job)
    ensures (forall events :: Does(Run(Initial, events), jobs) ==> OwnFilesOnly(events)) <==> NoClash(jobs)
  {
    if NoClash(jobs) {
      forall events | Does(Run(Initial, events), jobs) ensures OwnFilesOnly(events) {
        forall r | r in Run(Initial, events).transfers && Run(Initial, events).transfers[r].published
          ensures PublishedItsOwn(events, r, Run(Initial, events).transfers[r].content)
        {
          NoClashNoIntrusion(events, jobs, r);
          PublishedUnlessIntruded(events, r);
        }
      }
    } else {
      var job, other :| job in jobs && other in jobs && Clashing(job, other);
      var events := ClashingNamesSwapFiles(job, other);
      assert Does(Run(Initial, events), jobs);
    }
  }
}
