/** The lifecycle protocol's promises, for every interleaving of calls, tasks and loops. */
module LifecycleTheorems {
  import opened Wrappers
  import opened LocalSendDebouncer
  import opened Lifecycle
  import opened LifecycleProofs

  lemma ReachableInv(events: seq<Event>)
    ensures Inv(Run(Initial, events))
  {
    RunKeepsInv(Initial, events);
  }

  // ---------------------------------------------------------- cancel handles

  /** The i-th context ever made has exactly one cancel handle, in exactly one place: with the
      task that made it, in the controller, with a caller about to cancel it, or cancelled. */
  lemma ExactlyOnePlace(events: seq<Event>, i: nat)
    requires i < Run(Initial, events).nextHandle
    ensures var w := Run(Initial, events);
            exists h: Handle, p :: h.id == i && At(w, h, p)
                           && forall g: Handle, q :: g.id == i && At(w, g, q) ==> g == h && q == p
  {
    ReachableInv(events);
    var w := Run(Initial, events);
    var h := if WatchCancel(i) in w.audit.place then WatchCancel(i) else SyncCancel(i);
    var p := w.audit.place[h];
    assert PlaceAgrees(w, h, p);
    forall g: Handle, q | g.id == i && At(w, g, q)
      ensures g == h && q == p
    {
      assert PlaceAgrees(w, g, q);
      assert g == WatchCancel(i) || g == SyncCancel(i);
    }
  }

  /** A watcher or sync loop that nobody has cancelled and nobody is about to cancel. */
  ghost predicate Live(w: World, t: TaskId) {
    && t in w.tasks && (w.tasks[t].Watcher? || w.tasks[t].SyncLoop?)
    && w.tasks[t].h !in w.cancelled
    && forall u :: !At(w, w.tasks[t].h, HeldBy(u))
  }

  lemma LiveIsStored(w: World, t: TaskId)
    requires Inv(w) && Live(w, t)
    ensures At(w, w.tasks[t].h, InController)
  {
    var h := w.tasks[t].h;
    assert Runs(w.tasks[t]) == Some(h);
    var p := w.audit.place[h];
    assert PlaceAgrees(w, h, p);
  }

  /** At every moment at most one watcher and at most one sync loop run on, and only under the
      installed server. */
  lemma AtMostOneLive(events: seq<Event>, t: TaskId, u: TaskId)
    requires var w := Run(Initial, events);
             Live(w, t) && Live(w, u) && w.tasks[t].Watcher? == w.tasks[u].Watcher?
    ensures t == u && Run(Initial, events).ctl.server.Some?
  {
    ReachableInv(events);
    var w := Run(Initial, events);
    LiveIsStored(w, t);
    LiveIsStored(w, u);
    assert TaskOk(w.ctl, w.nextServer, w.tasks[t]) && TaskOk(w.ctl, w.nextServer, w.tasks[u]);
    assert Runs(w.tasks[t]) == Runs(w.tasks[u]);
  }

  /** A handle that a goroutine runs under is held by nobody but a stop or restart about to cancel it. */
  lemma OnlyCallsHoldRunningHandles(w: World, t: TaskId, u: TaskId)
    requires Inv(w) && t in w.tasks && (w.tasks[t].Watcher? || w.tasks[t].SyncLoop?)
    requires u in w.tasks && w.tasks[t].h in Holding(w.tasks[u])
    ensures w.tasks[u].Teardown?
  {
    assert TaskOk(w.ctl, w.nextServer, w.tasks[u]);
    assert Runs(w.tasks[t]) == Some(w.tasks[t].h);
  }

  /** With no server installed and no stop or restart about to cancel what it took, every watcher and
      sync loop is cancelled, start-up tasks of replaced backends still running or not. */
  lemma NothingLiveWhenStopped(events: seq<Event>, t: TaskId)
    requires var w := Run(Initial, events);
             && w.ctl.server.None?
             && (forall u :: u in w.tasks ==> !w.tasks[u].Teardown?)
             && t in w.tasks && (w.tasks[t].Watcher? || w.tasks[t].SyncLoop?)
    ensures Run(Initial, events).tasks[t].h in Run(Initial, events).cancelled
  {
    ReachableInv(events);
    var w := Run(Initial, events);
    if w.tasks[t].h !in w.cancelled {
      forall u ensures !At(w, w.tasks[t].h, HeldBy(u)) {
        if At(w, w.tasks[t].h, HeldBy(u)) {
          OnlyCallsHoldRunningHandles(w, t, u);
        }
      }
      LiveIsStored(w, t);
    }
  }

  /** The task whose step an event is. */
  function Subject(e: Event): Option<TaskId> {
    match e
    case CallStart(_) => None
    case CallStop => None
    case CallRestart(_) => None
    case CallRefresh => None
    case _ => Some(e.t)
  }

  predicate Untouched(w: World, v: World, u: TaskId) {
    && w.nextTask <= v.nextTask
    && (u in v.tasks <==> u in w.tasks)
    && (u in w.tasks ==> v.tasks[u] == w.tasks[u])
  }

  lemma CallsTouchNoOther(w: World, e: Event, u: TaskId)
    requires u < w.nextTask && Subject(e) != Some(u) && CallStep(e)
    ensures Untouched(w, Apply(w, e), u)
  {
  }

  lemma BackgroundTouchesNoOther(w: World, e: Event, u: TaskId)
    requires u < w.nextTask && Subject(e) != Some(u) && BackgroundStep(e)
    ensures Untouched(w, Apply(w, e), u)
  {
  }

  lemma StartUpTouchesNoOther(w: World, e: Event, u: TaskId)
    requires u < w.nextTask && Subject(e) != Some(u) && !CallStep(e) && !BackgroundStep(e)
    ensures Untouched(w, Apply(w, e), u)
  {
  }

  lemma OthersUntouched(w: World, e: Event, u: TaskId)
    requires u < w.nextTask && Subject(e) != Some(u)
    ensures Untouched(w, Apply(w, e), u)
  {
    if CallStep(e) {
      CallsTouchNoOther(w, e, u);
    } else if BackgroundStep(e) {
      BackgroundTouchesNoOther(w, e, u);
    } else {
      StartUpTouchesNoOther(w, e, u);
    }
  }

  /** The ways a handle can move: on towards its cancellation and never back. */
  predicate Onwards(before: Place, after: Place) {
    match before
    case Unstored(t) => after == before || after == InController || after == HeldBy(t)
    case InController => after == before || after.HeldBy?
    case HeldBy(_) => after == before || after == Cancelled
    case Cancelled => after == Cancelled
  }

  lemma StepMovesOnwards(w: World, e: Event, h: Handle)
    requires Inv(w) && h in w.audit.place
    ensures var v := Apply(w, e);
            h in v.audit.place && Onwards(w.audit.place[h], v.audit.place[h])
  {
    assert PlaceAgrees(w, h, w.audit.place[h]);
    match e
    case CallStop => DetachMovesOnwards(w, None, h);
    case CallRestart(device) => DetachMovesOnwards(w, Some(device), h);
    case StoreContext(t) => StoreMovesOnwards(w, t, h);
    case CancelNext(t) => CancelMovesOnwards(w, t, h);
    case CancelOwn(t) => CancelMovesOnwards(w, t, h);
    case CancelPrevious(t) => CancelPreviousKeeps(w, t);
    case _ => OthersMoveNothing(w, e, h);
  }

  lemma OthersMoveNothing(w: World, e: Event, h: Handle)
    requires !e.CallStop? && !e.CallRestart? && !e.StoreContext?
    requires !e.CancelNext? && !e.CancelOwn? && !e.CancelPrevious?
    requires h in w.audit.place && h.id < w.nextHandle
    ensures h in Apply(w, e).audit.place && Apply(w, e).audit.place[h] == w.audit.place[h]
  {
  }

  lemma CancelMovesOnwards(w: World, t: TaskId, h: Handle)
    requires PlacesOk(w) && h in w.audit.place
    ensures var v := CancelNextStep(w, t);
            h in v.audit.place && Onwards(w.audit.place[h], v.audit.place[h])
    ensures var v := CancelOwnStep(w, t);
            h in v.audit.place && Onwards(w.audit.place[h], v.audit.place[h])
  {
    assert PlaceAgrees(w, h, HeldBy(t));
  }

  lemma StoreMovesOnwards(w: World, t: TaskId, h: Handle)
    requires Inv(w) && h in w.audit.place
    ensures var v := StoreContextStep(w, t);
            h in v.audit.place && Onwards(w.audit.place[h], v.audit.place[h])
  {
    assert PlaceAgrees(w, h, Unstored(t));
    assert t in w.tasks ==> TaskOk(w.ctl, w.nextServer, w.tasks[t]);
  }

  lemma DetachMovesOnwards(w: World, device: Option<DeviceId>, h: Handle)
    requires Inv(w) && h in w.audit.place
    ensures var v := DetachStep(w, device);
            h in v.audit.place && Onwards(w.audit.place[h], v.audit.place[h])
  {
    assert PlaceAgrees(w, h, InController);
  }

  lemma {:induction false} HeldUntilCancelled(w: World, events: seq<Event>, h: Handle, t: TaskId)
    requires Inv(w) && At(w, h, HeldBy(t))
    ensures var v := Run(w, events);
            At(v, h, HeldBy(t)) || At(v, h, Cancelled)
    ensures h in Run(w, events).audit.place
  {
    assert PlaceAgrees(w, h, HeldBy(t));
    if events != [] {
      var before, e := events[..|events| - 1], events[|events| - 1];
      HeldUntilCancelled(w, before, h, t);
      RunKeepsInv(w, before);
      var u := Run(w, before);
      assert PlaceAgrees(u, h, HeldBy(t)) && PlaceAgrees(u, h, Cancelled);
      StepMovesOnwards(u, e, h);
      StepKeepsInv(u, e);
      assert PlaceAgrees(Apply(u, e), h, HeldBy(t)) && PlaceAgrees(Apply(u, e), h, Cancelled);
    }
  }

  /** Whatever runs in between, a stop or restart that has got past its cancels has cancelled
      every watcher and sync handle that its section found in the controller. */
  lemma StopCancelsWhatItTook(before: seq<Event>, device: Option<DeviceId>, after: seq<Event>, h: Handle)
    requires var w := Run(Initial, before);
             && At(w, h, InController)
             && var v := Run(DetachStep(w, device), after);
                w.nextTask in v.tasks ==> !v.tasks[w.nextTask].Teardown?
    ensures h in Run(DetachStep(Run(Initial, before), device), after).cancelled
  {
    ReachableInv(before);
    var w := Run(Initial, before);
    var u := DetachStep(w, device);
    DetachKeeps(w, device);
    assert At(u, h, HeldBy(w.nextTask));
    HeldUntilCancelled(u, after, h, w.nextTask);
    TaskKeepsKind(u, after, w.nextTask);
  }

  /** A task identifier is never reused: a call's stays a call's until the call is over. */
  lemma {:induction false} TaskKeepsKind(w: World, events: seq<Event>, t: TaskId)
    requires t < w.nextTask && (t in w.tasks ==> w.tasks[t].Teardown? || w.tasks[t].Reinstalling?)
    ensures var v := Run(w, events);
            t < v.nextTask && (t in v.tasks ==> v.tasks[t].Teardown? || v.tasks[t].Reinstalling?)
  {
    if events != [] {
      TaskKeepsKind(w, events[..|events| - 1], t);
      StepKeepsKind(Run(w, events[..|events| - 1]), events[|events| - 1], t);
    }
  }

  lemma StepKeepsKind(w: World, e: Event, t: TaskId)
    requires t < w.nextTask && (t in w.tasks ==> w.tasks[t].Teardown? || w.tasks[t].Reinstalling?)
    ensures var v := Apply(w, e);
            t < v.nextTask && (t in v.tasks ==> v.tasks[t].Teardown? || v.tasks[t].Reinstalling?)
  {
    if Subject(e) != Some(t) {
      OthersUntouched(w, e, t);
    }
  }

  /** No start-up task ever finds a handle to replace, and no loop's deferred section finds one to
      forget: handles leave the controller through stop and restart alone. */
  lemma OnlyDetachTakesHandles(events: seq<Event>, e: Event)
    requires !e.CallStop? && !e.CallRestart?
    ensures var w := Run(Initial, events);
            var v := Apply(w, e);
            && (w.ctl.taildropWatchStop.Some? ==> v.ctl.taildropWatchStop == w.ctl.taildropWatchStop)
            && (w.ctl.deviceSyncStop.Some? ==> v.ctl.deviceSyncStop == w.ctl.deviceSyncStop)
  {
    ReachableInv(events);
    StepKeepsHandles(Run(Initial, events), e);
  }

  /** The events whose section may write the controller. */
  predicate Writes(e: Event) {
    || e.CallStart? || e.CallStop? || e.CallRestart? || e.CallInstall? || e.RecordError? || e.StoreClient?
    || e.StoreContext? || e.Finish? || e.Notify? || e.PublishSweep? || e.LoopExits?
  }

  lemma OthersReadOnly(w: World, e: Event)
    requires !Writes(e)
    ensures Apply(w, e).ctl == w.ctl
    ensures Apply(w, e).audit.startErr == w.audit.startErr
  {
  }

  predicate KeepsHandles(c: Controller, d: Controller) {
    && (c.taildropWatchStop.Some? ==> d.taildropWatchStop == c.taildropWatchStop)
    && (c.deviceSyncStop.Some? ==> d.deviceSyncStop == c.deviceSyncStop)
  }

  lemma StoreKeepsHandles(w: World, t: TaskId)
    requires Inv(w)
    ensures KeepsHandles(w.ctl, StoreContextStep(w, t).ctl)
  {
    assert t in w.tasks ==> TaskOk(w.ctl, w.nextServer, w.tasks[t]);
  }

  lemma WritesKeepHandles(w: World, e: Event)
    requires ControllerOk(w) && Writes(e) && !e.CallStop? && !e.CallRestart? && !e.StoreContext? && !e.LoopExits?
    ensures KeepsHandles(w.ctl, Apply(w, e).ctl)
  {
  }

  lemma StepKeepsHandles(w: World, e: Event)
    requires Inv(w) && !e.CallStop? && !e.CallRestart?
    ensures KeepsHandles(w.ctl, Apply(w, e).ctl)
  {
    if !Writes(e) {
      OthersReadOnly(w, e);
    } else if e.StoreContext? {
      StoreKeepsHandles(w, e.t);
    } else if e.LoopExits? {
      LoopExitsKeeps(w, e.t);
    } else {
      WritesKeepHandles(w, e);
    }
  }

  // ------------------------------------------------------------------ fences

  /** Everything a detached backend's tasks could have left behind is gone, and everything shown
      was written by a task of the installed server and generation. */
  lemma FieldsComeFromTheInstalledServer(events: seq<Event>)
    ensures var w := Run(Initial, events);
            && (w.ctl.server.None? ==> Quiet(w.ctl))
            && (w.ctl.client.Some? ==> ByCurrent(w.ctl, w.audit.client))
            && (w.ctl.startErr != "" ==> ByCurrent(w.ctl, w.audit.startErr))
            && (w.ctl.taildropIncoming != [] ==> ByCurrent(w.ctl, w.audit.incoming))
            && (w.ctl.devices != NoDevices ==> ByCurrent(w.ctl, w.audit.devices))
            && (w.ctl.starting <==> w.ctl.cancelStart.Some?)
            && (w.ctl.externalTun <==> w.ctl.tunDevice.Some?)
  {
    ReachableInv(events);
  }

  ghost function TagOf(task: Task): Option<Tag> {
    match task
    case StartUp(tag, _) => Some(tag)
    case Watcher(tag, _) => Some(tag)
    case SyncLoop(tag, _, _) => Some(tag)
    case Refresh(tag, _) => Some(tag)
    case _ => None
  }

  /** The fence is exact even when the 64-bit generation wraps: a task's server is installed
      if and only if the pair still matches, so no stale task can pass and no live one is shut out. */
  lemma FenceIsExact(events: seq<Event>, t: TaskId)
    requires t in Run(Initial, events).tasks && TagOf(Run(Initial, events).tasks[t]).Some?
    ensures var w := Run(Initial, events);
            var tag := TagOf(w.tasks[t]).value;
            Current(w.ctl, tag) <==> w.ctl.server == Some(tag.server)
  {
    ReachableInv(events);
    var w := Run(Initial, events);
    assert TaskOk(w.ctl, w.nextServer, w.tasks[t]);
  }

  /** What every peer's published status is, whoever swept and whatever was cancelled, stale or
      superseded: the debounced verdict on the last two sweeps accepted since the last detach. */
  lemma PublishedStatusIsTheVerdict(events: seq<Event>, k: PeerKey)
    ensures var w := Run(Initial, events);
            && Lookup(w.ctl.devices.statuses, k)
               == Verdict(Sampled(w.audit.accepted, k, 1), Sampled(w.audit.accepted, k, 0))
            && Lookup(w.ctl.devices.failures, k) == Counter(FailRun(w.audit.accepted, k))
  {
    ReachableInv(events);
    DebounceTheorem(Run(Initial, events).audit.accepted, k);
  }

  // ---------------------------------------------------------------- progress

  predicate PastClient(pc: StartPc) {
    !pc.Launching? && !pc.Failing? && !pc.HaveClient?
  }

  predicate PastWatch(pc: StartPc) {
    PastClient(pc) && !pc.NoWatch? && !pc.WatchMade?
  }

  predicate PastSync(pc: StartPc) {
    pc.SyncStale? || pc.SyncStored? || pc.Restoring? || pc.Restored?
  }

  predicate Equipped(c: Controller) {
    c.client.Some? && c.taildropWatchStop.Some? && c.deviceSyncStop.Some?
  }

  /** What the installed server's start-up task has already put in place: no verdict yet, and its fields
      so far. */
  predicate Established(c: Controller, pc: StartPc) {
    && c.starting
    && (PastClient(pc) ==> c.client.Some?)
    && (PastWatch(pc) ==> c.taildropWatchStop.Some?)
    && (PastSync(pc) ==> Equipped(c))
  }

  ghost predicate StartUpRunning(w: World) {
    exists t :: StartUpAt(w, t) && Current(w.ctl, w.tasks[t].tag)
  }

  ghost predicate Progress(w: World) {
    && (w.ctl.starting ==> StartUpRunning(w) && NoError(w))
    && (forall t :: StartUpAt(w, t) && Current(w.ctl, w.tasks[t].tag) ==> Established(w.ctl, w.tasks[t].pc))
    && (w.ctl.server.Some? && !w.ctl.starting ==> Concluded(w))
  }

  predicate NoError(w: World) {
    w.ctl.startErr == "" && w.audit.startErr.None?
  }

  /** The verdict on a start-up: full service without an error, or an error recorded for this backend. */
  predicate Concluded(w: World) {
    (Equipped(w.ctl) && NoError(w)) || ByCurrent(w.ctl, w.audit.startErr)
  }

  /** While a server stays installed, what its start-up put in place stays. */
  lemma StepKeepsService(w: World, e: Event)
    requires Inv(w) && w.ctl.server.Some? && Apply(w, e).ctl.server == w.ctl.server
    ensures var v := Apply(w, e);
            && v.ctl.generation == w.ctl.generation
            && (w.ctl.client.Some? ==> v.ctl.client.Some?)
            && (w.ctl.taildropWatchStop.Some? ==> v.ctl.taildropWatchStop.Some?)
            && (w.ctl.deviceSyncStop.Some? ==> v.ctl.deviceSyncStop.Some?)
  {
    SameServerSameClient(w, e);
    StepKeepsHandles(w, e);
  }

  lemma SameServerSameClient(w: World, e: Event)
    requires w.ctl.server.Some? && Apply(w, e).ctl.server == w.ctl.server
    ensures !e.CallStop? && !e.CallRestart?
    ensures Apply(w, e).ctl.generation == w.ctl.generation
    ensures w.ctl.client.Some? ==> Apply(w, e).ctl.client.Some?
  {
  }

  lemma StepKeepsEstablished(w: World, e: Event, t: TaskId)
    requires Inv(w) && Progress(w)
    requires var v := Apply(w, e); StartUpAt(v, t) && Current(v.ctl, v.tasks[t].tag)
    ensures var v := Apply(w, e); Established(v.ctl, v.tasks[t].pc)
  {
    var v := Apply(w, e);
    if !StartUpAt(w, t) {
      StartUpsBeginLaunching(w, e, t);
    } else if Subject(e) != Some(t) {
      OthersKeepEstablished(w, e, t);
    } else {
      assert TaskOk(w.ctl, w.nextServer, w.tasks[t]);
      StartUpAdvances(w, e, t);
    }
  }

  lemma OthersKeepEstablished(w: World, e: Event, t: TaskId)
    requires Inv(w) && StartUpAt(w, t) && Subject(e) != Some(t)
    requires Current(w.ctl, w.tasks[t].tag) ==> Established(w.ctl, w.tasks[t].pc)
    ensures var v := Apply(w, e);
            StartUpAt(v, t) && (Current(v.ctl, v.tasks[t].tag) ==> Established(v.ctl, v.tasks[t].pc))
  {
    var tag := w.tasks[t].tag;
    assert TaskOk(w.ctl, w.nextServer, w.tasks[t]);
    OthersUntouched(w, e, t);
    if Current(Apply(w, e).ctl, tag) {
      ServerComesFresh(w, e);
      StepKeepsService(w, e);
      OthersKeepStarting(w, e, t);
    }
  }

  /** Nobody but its own start-up task ends a backend's starting and leaves its server installed. */
  lemma OthersKeepStarting(w: World, e: Event, t: TaskId)
    requires OneStartUp(w) && w.ctl.starting && w.ctl.server.Some? && Apply(w, e).ctl.server == w.ctl.server
    requires StartUpAt(w, t) && Current(w.ctl, w.tasks[t].tag) && Subject(e) != Some(t)
    ensures Apply(w, e).ctl.starting
  {
  }

  /** An installed server is the one before or a new one. */
  lemma ServerComesFresh(w: World, e: Event)
    ensures var v := Apply(w, e).ctl;
            v.server.Some? ==> v.server == w.ctl.server || v.server == Some(w.nextServer)
  {
  }

  /** The installed server's start-up task establishes what its new program point promises. */
  lemma StartUpAdvances(w: World, e: Event, t: TaskId)
    requires StartUpAt(w, t) && Subject(e) == Some(t)
    requires TaskOk(w.ctl, w.nextServer, w.tasks[t])
    requires Current(w.ctl, w.tasks[t].tag) ==> Established(w.ctl, w.tasks[t].pc)
    ensures var v := Apply(w, e);
            StartUpAt(v, t) && Current(v.ctl, v.tasks[t].tag) ==> Established(v.ctl, v.tasks[t].pc)
  {
  }

  lemma OnlyInstallsBegin(w: World, e: Event, t: TaskId)
    requires StartUpAt(Apply(w, e), t) && !StartUpAt(w, t)
    ensures e.CallStart? || e.CallInstall?
  {
  }

  lemma StartUpsBeginLaunching(w: World, e: Event, t: TaskId)
    requires StartUpAt(Apply(w, e), t) && !StartUpAt(w, t)
    ensures Established(Apply(w, e).ctl, Apply(w, e).tasks[t].pc)
  {
    OnlyInstallsBegin(w, e, t);
    if e.CallStart? {
      assert Apply(w, e) == InstallStep(w, None);
    } else {
      assert Apply(w, e) == CallInstallStep(w, e.t, e.urlOk);
    }
  }

  /** The events that install, detach or record an error. */
  predicate Judges(e: Event) {
    e.CallStart? || e.CallStop? || e.CallRestart? || e.CallInstall? || e.RecordError?
  }

  lemma OthersKeepError(w: World, e: Event)
    requires !Judges(e)
    ensures var v := Apply(w, e);
            && v.ctl.server == w.ctl.server && v.ctl.startErr == w.ctl.startErr && v.audit.startErr == w.audit.startErr
            && (v.ctl.starting ==> w.ctl.starting)
  {
    if !Writes(e) {
      OthersReadOnly(w, e);
    }
  }

  lemma StepKeepsOutcome(w: World, e: Event)
    requires Inv(w) && Progress(w)
    ensures var v := Apply(w, e); v.ctl.server.Some? && !v.ctl.starting ==> Concluded(v)
  {
    var v := Apply(w, e);
    if v.ctl.server.Some? && !v.ctl.starting {
      if w.ctl.starting {
        StarterIsEstablished(w, e);
        StartingEnds(w, e);
      } else {
        StarterIsEstablished(w, e);
        NoStartNoChange(w, e);
        StepKeepsService(w, e);
      }
    }
  }

  /** The start-up task whose step this is, if it is the installed server's. */
  lemma StarterIsEstablished(w: World, e: Event)
    requires Progress(w)
    ensures (e.Finish? || e.RecordError?) && StartUpAt(w, e.t) && Current(w.ctl, w.tasks[e.t].tag)
            ==> Established(w.ctl, w.tasks[e.t].pc)
  {
  }

  lemma StartingEnds(w: World, e: Event)
    requires w.ctl.starting && NoError(w) && !Apply(w, e).ctl.starting && Apply(w, e).ctl.server.Some?
    requires e.Finish? && StartUpAt(w, e.t) && Current(w.ctl, w.tasks[e.t].tag)
             ==> Established(w.ctl, w.tasks[e.t].pc)
    ensures Concluded(Apply(w, e))
  {
  }

  lemma NoStartNoChange(w: World, e: Event)
    requires !w.ctl.starting && Apply(w, e).ctl.server.Some? && !Apply(w, e).ctl.starting
    requires e.RecordError? && StartUpAt(w, e.t) ==> !Current(w.ctl, w.tasks[e.t].tag)
    ensures var v := Apply(w, e);
            v.ctl.server == w.ctl.server && v.ctl.startErr == w.ctl.startErr && v.audit.startErr == w.audit.startErr
  {
    if !Judges(e) {
      OthersKeepError(w, e);
    }
  }

  /** A start-up that begins or goes on shows no error. */
  lemma StartingShowsNoError(w: World, e: Event)
    requires Apply(w, e).ctl.starting && (w.ctl.starting ==> NoError(w))
    ensures NoError(Apply(w, e))
  {
    if !Judges(e) {
      OthersKeepError(w, e);
    }
  }

  lemma StepKeepsStartUp(w: World, e: Event)
    requires Inv(w) && Progress(w)
    ensures Apply(w, e).ctl.starting ==> StartUpRunning(Apply(w, e)) && NoError(Apply(w, e))
  {
    var v := Apply(w, e);
    if v.ctl.starting {
      StartingShowsNoError(w, e);
      if w.ctl.starting {
        var t :| StartUpAt(w, t) && Current(w.ctl, w.tasks[t].tag);
        assert TaskOk(w.ctl, w.nextServer, w.tasks[t]);
        if Subject(e) != Some(t) {
          OthersUntouched(w, e, t);
          StarterKeepsServer(w, e);
        } else {
          StarterGoesOn(w, e, t);
        }
        assert StartUpAt(v, t) && Current(v.ctl, v.tasks[t].tag);
      } else {
        InstallSpawns(w, e);
      }
    }
  }

  lemma StarterKeepsServer(w: World, e: Event)
    requires w.ctl.starting && Apply(w, e).ctl.starting
    ensures Apply(w, e).ctl.server == w.ctl.server && Apply(w, e).ctl.generation == w.ctl.generation
  {
  }

  /** A start-up's own step, while its backend is starting, takes it on and not to its end. */
  predicate GoesOn(v: World, t: TaskId) {
    StartUpAt(v, t) && Current(v.ctl, v.tasks[t].tag)
  }

  lemma ContextStepGoesOn(w: World, e: Event, t: TaskId)
    requires StartUpAt(w, t) && t < w.nextTask && Current(w.ctl, w.tasks[t].tag)
    requires (e.MakeContext? || e.StoreContext? || e.CancelOwn? || e.CancelPrevious? || e.Go?) && e.t == t
    ensures GoesOn(Apply(w, e), t)
  {
  }

  lemma StarterGoesOn(w: World, e: Event, t: TaskId)
    requires ControllerOk(w) && w.ctl.starting && Apply(w, e).ctl.starting
    requires t < w.nextTask && StartUpAt(w, t) && Subject(e) == Some(t) && Current(w.ctl, w.tasks[t].tag)
    ensures GoesOn(Apply(w, e), t)
  {
    if e.MakeContext? || e.StoreContext? || e.CancelOwn? || e.CancelPrevious? || e.Go? {
      ContextStepGoesOn(w, e, t);
    } else {
      assert StillStarting(w, w.tasks[t].tag);
    }
  }

  lemma InstallSpawns(w: World, e: Event)
    requires !w.ctl.starting && Apply(w, e).ctl.starting
    ensures StartUpRunning(Apply(w, e))
  {
    var v := Apply(w, e);
    assert StartUpAt(v, w.nextTask) && Current(v.ctl, v.tasks[w.nextTask].tag);
  }

  lemma StepKeepsProgress(w: World, e: Event)
    requires Inv(w) && Progress(w)
    ensures Progress(Apply(w, e))
  {
    StepKeepsStartUp(w, e);
    StepKeepsOutcome(w, e);
    var v := Apply(w, e);
    forall t | StartUpAt(v, t) && Current(v.ctl, v.tasks[t].tag)
      ensures Established(v.ctl, v.tasks[t].pc)
    {
      StepKeepsEstablished(w, e, t);
    }
  }

  lemma {:induction false} RunKeepsProgress(events: seq<Event>)
    ensures Progress(Run(Initial, events))
  {
    if events != [] {
      RunKeepsProgress(events[..|events| - 1]);
      ReachableInv(events[..|events| - 1]);
      StepKeepsProgress(Run(Initial, events[..|events| - 1]), events[|events| - 1]);
    }
  }

  /** The backend is "starting" exactly while its start-up task is in flight, and shows no error then; once
      it is over, either its client, watcher and sync loop are all in place and there is no error, or that
      task recorded a failure. */
  lemma StartUpEndsInServiceOrError(events: seq<Event>)
    ensures var w := Run(Initial, events);
            && (w.ctl.starting <==> exists t :: StartUpAt(w, t) && Current(w.ctl, w.tasks[t].tag))
            && (w.ctl.starting ==> NoError(w))
            && (w.ctl.server.Some? && !w.ctl.starting
                ==> (Equipped(w.ctl) && NoError(w)) || ByCurrent(w.ctl, w.audit.startErr))
  {
    RunKeepsProgress(events);
  }

  // ----------------------------------------------------------------- restart

  /** A restart's second section installs its device if and only if the control URL is usable
      and no other start installed a server since the first section let go of the lock. */
  lemma RestartInstallsExactlyWhenFree(events: seq<Event>, t: TaskId, urlOk: bool)
    requires var w := Run(Initial, events); t in w.tasks && w.tasks[t].Reinstalling?
    ensures var w := Run(Initial, events);
            var v := Apply(w, CallInstall(t, urlOk));
            && (v.ctl.server == Some(w.nextServer) && v.ctl.tunDevice == Some(w.tasks[t].newTun)
                <==> urlOk && w.ctl.server.None?)
            && (!(urlOk && w.ctl.server.None?) ==> v.ctl == w.ctl)
  {
    ReachableInv(events);
  }

  /** So a completed restart need not run on its own TUN: a start slips in between. */
  lemma RestartCanLoseItsTun()
    ensures var w := Run(Initial, [CallRestart(7), CloseServer(0, true), CallStart(true), CallInstall(0, true)]);
            0 !in w.tasks && w.ctl.server == Some(0) && w.ctl.tunDevice.None?
  {
    var es := [CallRestart(7), CloseServer(0, true), CallStart(true), CallInstall(0, true)];
    assert es[..3][..2] == es[..2] && es[..2][..1] == es[..1] && es[..1][..0] == [];
    assert Run(Initial, es[..1]) == Apply(Run(Initial, []), CallRestart(7));
    assert Run(Initial, es[..2]) == Apply(Run(Initial, es[..1]), CloseServer(0, true));
    assert Run(Initial, es[..3]) == Apply(Run(Initial, es[..2]), CallStart(true));
    assert Run(Initial, es) == Apply(Run(Initial, es[..3]), CallInstall(0, true));
  }
}
