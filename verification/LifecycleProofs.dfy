/** What every step of the lifecycle protocol keeps, and what follows for every run. */
module LifecycleProofs {
  import opened Wrappers
  import opened LocalSendDebouncer
  import opened Lifecycle

  // --------------------------------------------------------------- invariant

  /** A context the task has made and not yet offered to the controller. */
  ghost function Making(task: Task): Option<Handle> {
    match task
    case StartUp(_, WatchMade(h)) => Some(h)
    case StartUp(_, SyncMade(h)) => Some(h)
    case _ => None
  }

  /** The handles the task took over and will cancel. */
  ghost function Holding(task: Task): set<Handle> {
    match task
    case Teardown(_, watch, sync, _, _) =>
      (if watch.Some? then {watch.value} else {}) + (if sync.Some? then {sync.value} else {})
    case StartUp(_, WatchStale(h)) => {h}
    case StartUp(_, SyncStale(h)) => {h}
    case StartUp(_, WatchStored(Some(previous), _)) => {previous}
    case StartUp(_, SyncStored(Some(previous), _)) => {previous}
    case _ => {}
  }

  /** The handle a goroutine runs under or will be spawned with, or that a start-up task has made and
      now keeps from any goroutine. */
  ghost function Runs(task: Task): Option<Handle> {
    match task
    case Watcher(_, h) => Some(h)
    case SyncLoop(_, h, _) => Some(h)
    case StartUp(_, WatchMade(h)) => Some(h)
    case StartUp(_, SyncMade(h)) => Some(h)
    case StartUp(_, WatchStale(h)) => Some(h)
    case StartUp(_, SyncStale(h)) => Some(h)
    case StartUp(_, WatchStored(_, h)) => Some(h)
    case StartUp(_, SyncStored(_, h)) => Some(h)
    case _ => None
  }

  /** Read off the real state: who could still cancel h. */
  ghost predicate At(w: World, h: Handle, p: Place) {
    match p
    case Unstored(t) => t in w.tasks && Making(w.tasks[t]) == Some(h)
    case InController => w.ctl.taildropWatchStop == Some(h) || w.ctl.deviceSyncStop == Some(h)
    case HeldBy(t) => t in w.tasks && h in Holding(w.tasks[t])
    case Cancelled => h in w.cancelled
  }

  predicate BeforeWatch(pc: StartPc) {
    pc.Launching? || pc.HaveClient? || pc.NoWatch? || pc.WatchMade?
  }

  predicate BeforeSync(pc: StartPc) {
    BeforeWatch(pc) || pc.WatchStale? || pc.WatchStored? || pc.NoSync? || pc.SyncMade?
  }

  /** The generation a task carries goes with its server for as long as that server is installed. */
  predicate Fenced(c: Controller, bound: ServerId, tag: Tag) {
    tag.server < bound && (c.server == Some(tag.server) ==> c.generation == tag.generation)
  }

  predicate StartUpOk(c: Controller, tag: Tag, pc: StartPc) {
    && (c.server == Some(tag.server) ==>
          && (BeforeWatch(pc) ==> c.taildropWatchStop.None?)
          && (BeforeSync(pc) ==> c.deviceSyncStop.None?)
          && (pc.WatchStored? ==> c.taildropWatchStop == Some(pc.h))
          && (pc.SyncStored? ==> c.deviceSyncStop == Some(pc.h)))
    && (pc.WatchStored? || pc.SyncStored? ==> pc.previous.None?)
    && (pc.WatchMade? || pc.WatchStale? || pc.WatchStored? ==> pc.h.WatchCancel?)
    && (pc.SyncMade? || pc.SyncStale? || pc.SyncStored? ==> pc.h.SyncCancel?)
  }

  predicate TaskOk(c: Controller, bound: ServerId, task: Task) {
    match task
    case Teardown(start, watch, sync, server, _) =>
      && (start.Some? ==> start.value < bound && c.server != start)
      && (server.Some? ==> server.value < bound && c.server != server)
      && (watch.Some? ==> watch.value.WatchCancel?)
      && (sync.Some? ==> sync.value.SyncCancel?)
    case Reinstalling(_) => true
    case StartUp(tag, pc) => Fenced(c, bound, tag) && StartUpOk(c, tag, pc)
    case Watcher(tag, h) =>
      && Fenced(c, bound, tag) && h.WatchCancel?
      && (c.server == Some(tag.server) ==> c.taildropWatchStop == Some(h))
    case SyncLoop(tag, h, sweep) =>
      && Fenced(c, bound, tag) && h.SyncCancel?
      && (c.server == Some(tag.server) ==> c.deviceSyncStop == Some(h))
      && (sweep.Some? ==> ProbeSample(sweep.value))
    case Refresh(tag, sweep) =>
      Fenced(c, bound, tag) && (sweep.Some? ==> ProbeSample(sweep.value))
  }

  ghost predicate TasksOk(w: World) {
    forall t :: t in w.tasks ==> t < w.nextTask && TaskOk(w.ctl, w.nextServer, w.tasks[t])
  }

  /** One start-up task a server. */
  ghost predicate OneStartUp(w: World) {
    forall t, u :: StartUpAt(w, t) && StartUpAt(w, u) && w.tasks[t].tag.server == w.tasks[u].tag.server ==> t == u
  }

  /** One goroutine a handle. */
  ghost predicate OneGoroutine(w: World) {
    && (forall t :: t in w.tasks && Runs(w.tasks[t]).Some? ==> Runs(w.tasks[t]).value in w.audit.place)
    && forall t, u :: t in w.tasks && u in w.tasks && t != u && Runs(w.tasks[t]).Some?
                      ==> Runs(w.tasks[t]) != Runs(w.tasks[u])
  }

  ghost predicate PlaceAgrees(w: World, h: Handle, p: Place) {
    At(w, h, p) <==> h in w.audit.place && w.audit.place[h] == p
  }

  ghost predicate PlacesOk(w: World) {
    && (forall h :: h in w.audit.place ==> h.id < w.nextHandle)
    && (forall i: nat :: i < w.nextHandle ==> (WatchCancel(i) in w.audit.place <==> SyncCancel(i) !in w.audit.place))
    && forall h, p :: PlaceAgrees(w, h, p)
  }

  /** Nothing of a detached backend shows. */
  predicate Quiet(c: Controller) {
    && c.client.None? && c.startErr == "" && !c.starting && !c.externalTun
    && c.taildropWatchStop.None? && c.deviceSyncStop.None?
    && c.taildropIncoming == [] && c.devices == NoDevices
  }

  ghost predicate ControllerOk(w: World) {
    && w.ctl.generation < GENERATIONS
    && (w.ctl.server.Some? ==> w.ctl.server.value < w.nextServer)
    && (w.ctl.starting <==> w.ctl.cancelStart.Some?)
    && (w.ctl.cancelStart.Some? ==> w.ctl.cancelStart == w.ctl.server)
    && (w.ctl.externalTun <==> w.ctl.tunDevice.Some?)
    && (w.ctl.client.Some? ==> w.ctl.client == w.ctl.server)
    && (w.ctl.taildropWatchStop.Some? ==> w.ctl.taildropWatchStop.value.WatchCancel?)
    && (w.ctl.deviceSyncStop.Some? ==> w.ctl.deviceSyncStop.value.SyncCancel?)
    && (forall s :: s in w.cancelledStarts ==> s < w.nextServer && w.ctl.server != Some(s))
    && (w.ctl.server.None? ==> Quiet(w.ctl))
  }

  predicate ByCurrent(c: Controller, writer: Option<Tag>) {
    writer.Some? && Current(c, writer.value)
  }

  ghost predicate WritersOk(c: Controller, audit: Audit) {
    && (c.client.Some? ==> ByCurrent(c, audit.client))
    && (c.startErr != "" ==> ByCurrent(c, audit.startErr))
    && (c.taildropIncoming != [] ==> ByCurrent(c, audit.incoming))
    && (audit.accepted != [] ==> ByCurrent(c, audit.devices))
    && c.devices == Replay(audit.accepted)
    && forall i :: 0 <= i < |audit.accepted| ==> ProbeSample(audit.accepted[i])
  }

  ghost predicate Crew(w: World) {
    TasksOk(w) && OneStartUp(w) && OneGoroutine(w)
  }

  ghost predicate Inv(w: World) {
    ControllerOk(w) && WritersOk(w.ctl, w.audit) && Crew(w) && PlacesOk(w)
  }

  // ------------------------------------------------------------ preservation

  /** What a task's soundness depends on. */
  predicate SameFence(w: World, v: World) {
    && v.ctl.server == w.ctl.server && v.ctl.generation == w.ctl.generation
    && v.ctl.taildropWatchStop == w.ctl.taildropWatchStop && v.ctl.deviceSyncStop == w.ctl.deviceSyncStop
    && v.nextServer == w.nextServer
  }

  /** The tasks after a step in which t goes on as `after` (or ends) and may spawn another. */
  function Replaced(w: World, t: TaskId, after: Option<Task>, spawned: Option<Task>): map<TaskId, Task> {
    var rest := if after.Some? then w.tasks[t := after.value] else w.tasks - {t};
    if spawned.Some? then rest[w.nextTask := spawned.value] else rest
  }

  /** A step of one task outside the fence: it keeps its server, and may spawn another task. */
  lemma OneTaskKeepsTasks(w: World, v: World, t: TaskId, after: Option<Task>, spawned: Option<Task>)
    requires TasksOk(w) && OneStartUp(w) && t in w.tasks && SameFence(w, v)
    requires v.tasks == Replaced(w, t, after, spawned)
    requires v.nextTask == w.nextTask + if spawned.Some? then 1 else 0
    requires after.Some? ==>
      && TaskOk(w.ctl, w.nextServer, after.value)
      && (after.value.StartUp? ==> w.tasks[t].StartUp? && w.tasks[t].tag == after.value.tag)
    requires spawned.Some? ==> TaskOk(w.ctl, w.nextServer, spawned.value) && !spawned.value.StartUp?
    ensures TasksOk(v) && OneStartUp(v)
  {
    forall u | u in v.tasks
      ensures u < v.nextTask && TaskOk(v.ctl, v.nextServer, v.tasks[u])
    {
      assert u in w.tasks ==> u < w.nextTask && TaskOk(w.ctl, w.nextServer, w.tasks[u]);
      SameFenceKeepsTask(w, v, v.tasks[u]);
    }
    assert forall u :: StartUpAt(v, u) ==> StartUpAt(w, u) && w.tasks[u].tag == v.tasks[u].tag;
  }

  lemma SameFenceKeepsTask(w: World, v: World, task: Task)
    requires SameFence(w, v)
    ensures TaskOk(v.ctl, v.nextServer, task) == TaskOk(w.ctl, w.nextServer, task)
  {
  }

  /** It hands its goroutine's handle on at most once, and makes at most one fresh handle. */
  lemma OneTaskKeepsGoroutines(w: World, v: World, t: TaskId, after: Option<Task>, spawned: Option<Task>)
    requires TasksOk(w) && OneGoroutine(w) && t in w.tasks && w.audit.place.Keys <= v.audit.place.Keys
    requires v.tasks == Replaced(w, t, after, spawned)
    requires after.Some? ==>
      var h := Runs(after.value);
      h.Some? ==> h == Runs(w.tasks[t]) || (h.value !in w.audit.place && h.value in v.audit.place)
    requires spawned.Some? && Runs(spawned.value).Some? ==>
      Runs(spawned.value) == Runs(w.tasks[t]) && (after.Some? ==> Runs(after.value).None?)
    ensures OneGoroutine(v)
  {
  }

  /** A step that hands no handle on. */
  lemma OneTaskKeepsPlaces(w: World, v: World, t: TaskId, after: Option<Task>, spawned: Option<Task>)
    requires PlacesOk(w) && TasksOk(w) && t in w.tasks
    requires v.audit.place == w.audit.place && v.cancelled == w.cancelled && v.nextHandle == w.nextHandle
    requires v.ctl.taildropWatchStop == w.ctl.taildropWatchStop && v.ctl.deviceSyncStop == w.ctl.deviceSyncStop
    requires v.tasks == Replaced(w, t, after, spawned)
    requires Making(w.tasks[t]) == if after.Some? then Making(after.value) else None
    requires Holding(w.tasks[t]) == if after.Some? then Holding(after.value) else {}
    requires spawned.Some? ==> Making(spawned.value).None? && Holding(spawned.value) == {}
    ensures PlacesOk(v)
  {
    forall h, p ensures PlaceAgrees(v, h, p) {
      assert PlaceAgrees(w, h, p);
    }
  }

  /** Both, for a step that hands no handle on. */
  lemma OneTaskKeepsAll(w: World, v: World, t: TaskId, after: Option<Task>, spawned: Option<Task>)
    requires Crew(w) && PlacesOk(w) && t in w.tasks && SameFence(w, v)
    requires v.tasks == Replaced(w, t, after, spawned)
    requires v.nextTask == w.nextTask + if spawned.Some? then 1 else 0
    requires v.audit.place == w.audit.place && v.cancelled == w.cancelled && v.nextHandle == w.nextHandle
    requires after.Some? ==>
      && TaskOk(w.ctl, w.nextServer, after.value)
      && (after.value.StartUp? ==> w.tasks[t].StartUp? && w.tasks[t].tag == after.value.tag)
      && (Runs(after.value).Some? ==> Runs(after.value) == Runs(w.tasks[t]))
    requires spawned.Some? ==>
      && TaskOk(w.ctl, w.nextServer, spawned.value) && !spawned.value.StartUp?
      && (Runs(spawned.value).Some? ==>
            Runs(spawned.value) == Runs(w.tasks[t]) && (after.Some? ==> Runs(after.value).None?))
    requires Making(w.tasks[t]) == if after.Some? then Making(after.value) else None
    requires Holding(w.tasks[t]) == if after.Some? then Holding(after.value) else {}
    requires spawned.Some? ==> Making(spawned.value).None? && Holding(spawned.value) == {}
    ensures Crew(v) && PlacesOk(v)
  {
    OneTaskKeepsTasks(w, v, t, after, spawned);
    OneTaskKeepsGoroutines(w, v, t, after, spawned);
    OneTaskKeepsPlaces(w, v, t, after, spawned);
  }

  lemma InstallKeeps(w: World, device: Option<DeviceId>)
    requires Inv(w)
    ensures Inv(InstallStep(w, device))
  {
    if CanInstall(w.ctl) {
      var v := InstallStep(w, device);
      InstallKeepsTasks(w, device);
      assert OneGoroutine(v);
      forall h, p ensures PlaceAgrees(v, h, p) {
        assert PlaceAgrees(w, h, p);
      }
    }
  }

  lemma InstallKeepsTasks(w: World, device: Option<DeviceId>)
    requires ControllerOk(w) && TasksOk(w) && OneStartUp(w) && CanInstall(w.ctl)
    ensures TasksOk(InstallStep(w, device)) && OneStartUp(InstallStep(w, device))
  {
    var v := InstallStep(w, device);
    forall t | t in v.tasks
      ensures t < v.nextTask && TaskOk(v.ctl, v.nextServer, v.tasks[t])
    {
      assert t in w.tasks ==> t < w.nextTask && TaskOk(w.ctl, w.nextServer, w.tasks[t]);
    }
    assert forall t :: StartUpAt(w, t) ==>
             TaskOk(w.ctl, w.nextServer, w.tasks[t]) && w.tasks[t].tag.server < w.nextServer;
  }

  lemma DetachKeeps(w: World, device: Option<DeviceId>)
    requires Inv(w)
    ensures Inv(DetachStep(w, device))
  {
    DetachKeepsTasks(w, device);
    DetachKeepsPlaces(w, device);
  }

  lemma DetachKeepsTasks(w: World, device: Option<DeviceId>)
    requires ControllerOk(w) && Crew(w)
    ensures Crew(DetachStep(w, device))
  {
    DetachKeepsEachTask(w, device);
    DetachKeepsGoroutines(w, device);
  }

  lemma DetachKeepsEachTask(w: World, device: Option<DeviceId>)
    requires ControllerOk(w) && TasksOk(w) && OneStartUp(w)
    ensures TasksOk(DetachStep(w, device)) && OneStartUp(DetachStep(w, device))
  {
    var v := DetachStep(w, device);
    forall t | t in v.tasks
      ensures t < v.nextTask && TaskOk(v.ctl, v.nextServer, v.tasks[t])
    {
      assert t in w.tasks ==> t < w.nextTask && TaskOk(w.ctl, w.nextServer, w.tasks[t]);
    }
    assert forall t :: StartUpAt(v, t) ==> StartUpAt(w, t) && v.tasks[t] == w.tasks[t];
  }

  lemma DetachKeepsGoroutines(w: World, device: Option<DeviceId>)
    requires TasksOk(w) && OneGoroutine(w)
    ensures OneGoroutine(DetachStep(w, device))
  {
    var v := DetachStep(w, device);
    assert forall t :: t in v.tasks && Runs(v.tasks[t]).Some? ==> t in w.tasks && v.tasks[t] == w.tasks[t];
  }

  lemma DetachKeepsPlaces(w: World, device: Option<DeviceId>)
    requires ControllerOk(w) && TasksOk(w) && PlacesOk(w)
    ensures PlacesOk(DetachStep(w, device))
  {
    var v := DetachStep(w, device);
    var c := w.ctl;
    assert c.taildropWatchStop.Some? ==> PlaceAgrees(w, c.taildropWatchStop.value, InController);
    assert c.deviceSyncStop.Some? ==> PlaceAgrees(w, c.deviceSyncStop.value, InController);
    forall h, p ensures PlaceAgrees(v, h, p) {
      assert PlaceAgrees(w, h, p);
    }
  }

  lemma CancelNextKeeps(w: World, t: TaskId)
    requires Inv(w)
    ensures Inv(CancelNextStep(w, t))
  {
    if t in w.tasks && w.tasks[t].Teardown? {
      var v, task := CancelNextStep(w, t), w.tasks[t];
      if task.start.Some? {
        OneTaskKeepsAll(w, v, t, Some(task.(start := None)), None);
      } else if task.watch.Some? {
        CancelKeeps(w, v, t, task.(watch := None), task.watch.value);
      } else if task.sync.Some? {
        CancelKeeps(w, v, t, task.(sync := None), task.sync.value);
      }
    }
  }

  /** The task cancels a handle it holds. */
  lemma CancelKeeps(w: World, v: World, t: TaskId, after: Task, h: Handle)
    requires Inv(w) && t in w.tasks && v == Put(CancelHandle(w, h), t, after)
    requires Making(w.tasks[t]).None? && Making(after).None?
    requires h in Holding(w.tasks[t]) && Holding(after) == Holding(w.tasks[t]) - {h}
    requires TaskOk(w.ctl, w.nextServer, after)
    requires after.StartUp? ==> w.tasks[t].StartUp? && w.tasks[t].tag == after.tag
    requires Runs(after).Some? ==> Runs(after) == Runs(w.tasks[t])
    ensures Inv(v)
  {
    OneTaskKeepsTasks(w, v, t, Some(after), None);
    OneTaskKeepsGoroutines(w, v, t, Some(after), None);
    CancelKeepsPlaces(w, v, t, after, h);
  }

  lemma CancelKeepsPlaces(w: World, v: World, t: TaskId, after: Task, h: Handle)
    requires PlacesOk(w) && t in w.tasks && v == Put(CancelHandle(w, h), t, after)
    requires Making(w.tasks[t]).None? && Making(after).None?
    requires h in Holding(w.tasks[t]) && Holding(after) == Holding(w.tasks[t]) - {h}
    ensures PlacesOk(v)
  {
    assert PlaceAgrees(w, h, HeldBy(t));
    forall g, p ensures PlaceAgrees(v, g, p) {
      assert PlaceAgrees(w, g, p);
    }
  }

  lemma CloseServerKeeps(w: World, t: TaskId, closed: bool)
    requires Inv(w)
    ensures Inv(CloseServerStep(w, t, closed))
  {
    if t in w.tasks && w.tasks[t].Teardown? {
      var v, task := CloseServerStep(w, t, closed), w.tasks[t];
      if task.start.Some? || task.watch.Some? || task.sync.Some? {
      } else if task.device.None? || (task.server.Some? && !closed) {
        OneTaskKeepsAll(w, v, t, None, None);
      } else {
        OneTaskKeepsAll(w, v, t, Some(Reinstalling(task.device.value)), None);
      }
    }
  }

  lemma CallInstallKeeps(w: World, t: TaskId, urlOk: bool)
    requires Inv(w)
    ensures Inv(CallInstallStep(w, t, urlOk))
  {
    if t in w.tasks && w.tasks[t].Reinstalling? {
      OneTaskKeepsAll(w, Drop(w, t), t, None, None);
      InstallKeeps(Drop(w, t), Some(w.tasks[t].newTun));
    }
  }

  lemma LaunchReturnsKeeps(w: World, t: TaskId, failure: Option<string>)
    requires Inv(w)
    ensures Inv(LaunchReturnsStep(w, t, failure))
  {
    if StartUpAt(w, t) && w.tasks[t].pc.Launching? {
      var pc := if failure.Some? then Failing(failure.value) else HaveClient;
      OneTaskKeepsAll(w, LaunchReturnsStep(w, t, failure), t, Some(w.tasks[t].(pc := pc)), None);
    }
  }

  lemma RecordErrorKeeps(w: World, t: TaskId)
    requires Inv(w)
    ensures Inv(RecordErrorStep(w, t))
  {
    if StartUpAt(w, t) && w.tasks[t].pc.Failing? {
      OneTaskKeepsAll(w, RecordErrorStep(w, t), t, None, None);
    }
  }

  lemma StoreClientKeeps(w: World, t: TaskId)
    requires Inv(w)
    ensures Inv(StoreClientStep(w, t))
  {
    if StartUpAt(w, t) && w.tasks[t].pc.HaveClient? {
      var after := if StillStarting(w, w.tasks[t].tag) then Some(w.tasks[t].(pc := NoWatch)) else None;
      OneTaskKeepsAll(w, StoreClientStep(w, t), t, after, None);
    }
  }

  lemma MakeContextKeeps(w: World, t: TaskId)
    requires Inv(w)
    ensures Inv(MakeContextStep(w, t))
  {
    if StartUpAt(w, t) && (w.tasks[t].pc.NoWatch? || w.tasks[t].pc.NoSync?) {
      var v := MakeContextStep(w, t);
      var watch := w.tasks[t].pc.NoWatch?;
      var h := if watch then WatchCancel(w.nextHandle) else SyncCancel(w.nextHandle);
      var after := w.tasks[t].(pc := if watch then WatchMade(h) else SyncMade(h));
      OneTaskKeepsTasks(w, v, t, Some(after), None);
      OneTaskKeepsGoroutines(w, v, t, Some(after), None);
      MakeContextKeepsPlaces(w, v, t, h, after);
    }
  }

  lemma MakeContextKeepsPlaces(w: World, v: World, t: TaskId, h: Handle, after: Task)
    requires PlacesOk(w) && t in w.tasks && h.id == w.nextHandle
    requires Making(after) == Some(h) && Making(w.tasks[t]).None?
    requires Holding(after) == Holding(w.tasks[t]) == {}
    requires v == Put(Move(w.(nextHandle := w.nextHandle + 1), h, Unstored(t)), t, after)
    ensures PlacesOk(v)
  {
    forall g, p ensures PlaceAgrees(v, g, p) {
      assert PlaceAgrees(w, g, p);
    }
  }

  lemma StoreContextKeeps(w: World, t: TaskId)
    requires Inv(w)
    ensures Inv(StoreContextStep(w, t))
  {
    if StartUpAt(w, t) && (w.tasks[t].pc.WatchMade? || w.tasks[t].pc.SyncMade?) {
      if Current(w.ctl, w.tasks[t].tag) {
        StoreCurrentKeeps(w, t);
      } else {
        var v, h := StoreContextStep(w, t), w.tasks[t].pc.h;
        var after := w.tasks[t].(pc := if w.tasks[t].pc.WatchMade? then WatchStale(h) else SyncStale(h));
        OneTaskKeepsTasks(w, v, t, Some(after), None);
        OneTaskKeepsGoroutines(w, v, t, Some(after), None);
        StoreStaleKeepsPlaces(w, v, t, h, after);
      }
    }
  }

  lemma StoreStaleKeepsPlaces(w: World, v: World, t: TaskId, h: Handle, after: Task)
    requires PlacesOk(w) && t in w.tasks && Making(w.tasks[t]) == Some(h) && Holding(w.tasks[t]) == {}
    requires Making(after).None? && Holding(after) == {h}
    requires v == Put(Move(w, h, HeldBy(t)), t, after)
    ensures PlacesOk(v)
  {
    assert PlaceAgrees(w, h, Unstored(t));
    forall g, p ensures PlaceAgrees(v, g, p) {
      assert PlaceAgrees(w, g, p);
    }
  }

  /** A context is stored over an empty slot: its start-up task is the only one of its server. */
  lemma StoreCurrentKeeps(w: World, t: TaskId)
    requires Inv(w) && StartUpAt(w, t) && Current(w.ctl, w.tasks[t].tag)
    requires w.tasks[t].pc.WatchMade? || w.tasks[t].pc.SyncMade?
    ensures Inv(StoreContextStep(w, t))
  {
    StoreCurrentKeepsTasks(w, t);
    var v := StoreContextStep(w, t);
    OneTaskKeepsGoroutines(w, v, t, Some(v.tasks[t]), None);
    StoreCurrentKeepsPlaces(w, t);
  }

  lemma StoreCurrentKeepsTasks(w: World, t: TaskId)
    requires TasksOk(w) && OneStartUp(w) && StartUpAt(w, t) && Current(w.ctl, w.tasks[t].tag)
    requires w.tasks[t].pc.WatchMade? || w.tasks[t].pc.SyncMade?
    ensures TasksOk(StoreContextStep(w, t)) && OneStartUp(StoreContextStep(w, t))
  {
    var v := StoreContextStep(w, t);
    assert TaskOk(w.ctl, w.nextServer, w.tasks[t]);
    forall u | u in v.tasks
      ensures u < v.nextTask && TaskOk(v.ctl, v.nextServer, v.tasks[u])
    {
      assert TaskOk(w.ctl, w.nextServer, w.tasks[u]);
      assert u != t && StartUpAt(w, u) ==> w.tasks[u].tag.server != w.tasks[t].tag.server;
    }
    assert forall u :: StartUpAt(v, u) ==> StartUpAt(w, u) && w.tasks[u].tag == v.tasks[u].tag;
  }

  lemma StoreCurrentKeepsPlaces(w: World, t: TaskId)
    requires TasksOk(w) && PlacesOk(w) && StartUpAt(w, t) && Current(w.ctl, w.tasks[t].tag)
    requires w.tasks[t].pc.WatchMade? || w.tasks[t].pc.SyncMade?
    ensures PlacesOk(StoreContextStep(w, t))
  {
    var v, h := StoreContextStep(w, t), w.tasks[t].pc.h;
    assert TaskOk(w.ctl, w.nextServer, w.tasks[t]);
    assert PlaceAgrees(w, h, Unstored(t));
    forall g, p ensures PlaceAgrees(v, g, p) {
      assert PlaceAgrees(w, g, p);
    }
  }

  lemma CancelOwnKeeps(w: World, t: TaskId)
    requires Inv(w)
    ensures Inv(CancelOwnStep(w, t))
  {
    if StartUpAt(w, t) && (w.tasks[t].pc.WatchStale? || w.tasks[t].pc.SyncStale?) {
      var pc := if w.tasks[t].pc.WatchStale? then NoSync else Restoring;
      CancelKeeps(w, CancelOwnStep(w, t), t, w.tasks[t].(pc := pc), w.tasks[t].pc.h);
    }
  }

  /** There is never a previous handle to cancel. */
  lemma CancelPreviousKeeps(w: World, t: TaskId)
    requires Inv(w)
    ensures CancelPreviousStep(w, t) == w
  {
    assert t in w.tasks ==> TaskOk(w.ctl, w.nextServer, w.tasks[t]);
  }

  lemma GoKeeps(w: World, t: TaskId)
    requires Inv(w)
    ensures Inv(GoStep(w, t))
  {
    if StartUpAt(w, t) {
      var tag := w.tasks[t].tag;
      match w.tasks[t].pc
      case WatchStored(None, h) => LaunchKeeps(w, t, NoSync, Watcher(tag, h));
      case SyncStored(None, h) => LaunchKeeps(w, t, Restoring, SyncLoop(tag, h, None));
      case _ =>
    }
  }

  /** The goroutine is spawned with the handle that was stored for it. */
  lemma LaunchKeeps(w: World, t: TaskId, next: StartPc, spawned: Task)
    requires Inv(w) && StartUpAt(w, t)
    requires match w.tasks[t].pc
             case WatchStored(None, h) => next == NoSync && spawned == Watcher(w.tasks[t].tag, h)
             case SyncStored(None, h) => next == Restoring && spawned == SyncLoop(w.tasks[t].tag, h, None)
             case _ => false
    ensures Inv(GoStep(w, t))
  {
    assert TaskOk(w.ctl, w.nextServer, w.tasks[t]);
    OneTaskKeepsAll(w, GoStep(w, t), t, Some(w.tasks[t].(pc := next)), Some(spawned));
  }

  lemma RestoreReturnsKeeps(w: World, t: TaskId, failure: Option<string>)
    requires Inv(w)
    ensures Inv(RestoreReturnsStep(w, t, failure))
  {
    if StartUpAt(w, t) && w.tasks[t].pc.Restoring? {
      var pc := if failure.Some? then Failing(failure.value) else Restored;
      OneTaskKeepsAll(w, RestoreReturnsStep(w, t, failure), t, Some(w.tasks[t].(pc := pc)), None);
    }
  }

  lemma FinishKeeps(w: World, t: TaskId)
    requires Inv(w)
    ensures Inv(FinishStep(w, t))
  {
    if StartUpAt(w, t) && w.tasks[t].pc.Restored? {
      OneTaskKeepsAll(w, FinishStep(w, t), t, None, None);
    }
  }

  lemma NotifyKeeps(w: World, t: TaskId, files: seq<IncomingFile>)
    requires Inv(w)
    ensures Inv(NotifyStep(w, t, files))
  {
    if t in w.tasks && w.tasks[t].Watcher? {
      var v := NotifyStep(w, t, files);
      assert v.tasks == w.tasks[t := w.tasks[t]];
      assert TaskOk(w.ctl, w.nextServer, w.tasks[t]);
      OneTaskKeepsAll(w, v, t, Some(w.tasks[t]), None);
    }
  }

  lemma WatcherExitsKeeps(w: World, t: TaskId)
    requires Inv(w)
    ensures Inv(WatcherExitsStep(w, t))
  {
    if t in w.tasks && w.tasks[t].Watcher? {
      OneTaskKeepsAll(w, Drop(w, t), t, None, None);
    }
  }

  lemma RefreshExitsKeeps(w: World, t: TaskId)
    requires Inv(w)
    ensures Inv(RefreshExitsStep(w, t))
  {
    if t in w.tasks && w.tasks[t].Refresh? {
      OneTaskKeepsAll(w, Drop(w, t), t, None, None);
    }
  }

  lemma SweepDoneKeeps(w: World, t: TaskId, sample: Sample)
    requires Inv(w)
    ensures Inv(SweepDoneStep(w, t, sample))
  {
    var v := SweepDoneStep(w, t, sample);
    if v != w {
      assert TaskOk(w.ctl, w.nextServer, w.tasks[t]);
      OneTaskKeepsAll(w, v, t, Some(v.tasks[t]), None);
    }
  }

  predicate HasSweep(w: World, t: TaskId) {
    t in w.tasks && (w.tasks[t].SyncLoop? || w.tasks[t].Refresh?) && w.tasks[t].sweep.Some?
  }

  lemma PublishSweepKeepsCrew(w: World, t: TaskId)
    requires Crew(w) && PlacesOk(w) && HasSweep(w, t)
    ensures Crew(PublishSweepStep(w, t)) && PlacesOk(PublishSweepStep(w, t))
  {
    var v := PublishSweepStep(w, t);
    assert TaskOk(w.ctl, w.nextServer, w.tasks[t]);
    OneTaskKeepsAll(w, v, t, Some(w.tasks[t].(sweep := None)), None);
  }

  lemma PublishKeepsController(w: World, tag: Tag, sample: Sample)
    requires ControllerOk(w)
    ensures ControllerOk(PublishTo(w, tag, sample))
  {
  }

  lemma PublishSweepKeeps(w: World, t: TaskId)
    requires Inv(w)
    ensures Inv(PublishSweepStep(w, t))
  {
    if HasSweep(w, t) {
      var v, tag, sample := PublishSweepStep(w, t), w.tasks[t].tag, w.tasks[t].sweep.value;
      assert TaskOk(w.ctl, w.nextServer, w.tasks[t]);
      PublishKeepsWriters(w, tag, sample);
      PublishKeepsController(w, tag, sample);
      PublishSweepKeepsCrew(w, t);
      assert v.ctl == PublishTo(w, tag, sample).ctl && v.audit == PublishTo(w, tag, sample).audit;
    }
  }

  lemma PublishKeepsWriters(w: World, tag: Tag, sample: Sample)
    requires WritersOk(w.ctl, w.audit) && ProbeSample(sample)
    ensures var v := PublishTo(w, tag, sample); WritersOk(v.ctl, v.audit)
  {
    var v := PublishTo(w, tag, sample);
    if CurrentWithClient(w.ctl, tag) {
      assert v.audit.accepted[..|v.audit.accepted| - 1] == w.audit.accepted;
    }
  }

  /** A cancelled loop is never the current one, so its deferred section finds nothing to forget. */
  lemma LoopExitsKeeps(w: World, t: TaskId)
    requires Inv(w)
    ensures Inv(LoopExitsStep(w, t))
    ensures LoopExitsStep(w, t).ctl == w.ctl
  {
    if t in w.tasks && w.tasks[t].SyncLoop? && w.tasks[t].sweep.None? && w.tasks[t].h in w.cancelled {
      var h := w.tasks[t].h;
      assert TaskOk(w.ctl, w.nextServer, w.tasks[t]);
      assert PlaceAgrees(w, h, Cancelled) && PlaceAgrees(w, h, InController);
      assert ForgetSync(w.ctl, w.tasks[t].tag) == w.ctl;
      OneTaskKeepsAll(w, LoopExitsStep(w, t), t, None, None);
    }
  }

  lemma CallRefreshKeeps(w: World)
    requires Inv(w)
    ensures Inv(CallRefreshStep(w))
  {
    if w.ctl.server.Some? && w.ctl.client.Some? {
      QuietSpawnKeeps(w, Refresh(Tag(w.ctl.server.value, w.ctl.generation), None));
    }
  }

  /** A task that brings no handle and is not a start-up. */
  lemma QuietSpawnKeeps(w: World, task: Task)
    requires Crew(w) && PlacesOk(w)
    requires TaskOk(w.ctl, w.nextServer, task) && task.Refresh?
    ensures Crew(Spawn(w, task)) && PlacesOk(Spawn(w, task))
  {
    var v := Spawn(w, task);
    assert TasksOk(v);
    assert OneStartUp(v) by {
      assert forall u :: StartUpAt(v, u) ==> StartUpAt(w, u);
    }
    assert OneGoroutine(v) by {
      assert forall u :: u in v.tasks && Runs(v.tasks[u]).Some? ==> u in w.tasks && v.tasks[u] == w.tasks[u];
    }
    forall h, p ensures PlaceAgrees(v, h, p) {
      assert PlaceAgrees(w, h, p);
    }
  }

  predicate CallStep(e: Event) {
    || e.CallStart? || e.CallStop? || e.CallRestart? || e.CancelNext? || e.CloseServer? || e.CallInstall?
    || e.CallRefresh?
  }

  lemma CallStepKeepsInv(w: World, e: Event)
    requires Inv(w) && CallStep(e)
    ensures Inv(Apply(w, e))
  {
    match e
    case CallStart(urlOk) => InstallKeeps(w, None);
    case CallStop => DetachKeeps(w, None);
    case CallRestart(device) => DetachKeeps(w, Some(device));
    case CancelNext(t) => CancelNextKeeps(w, t);
    case CloseServer(t, closed) => CloseServerKeeps(w, t, closed);
    case CallInstall(t, urlOk) => CallInstallKeeps(w, t, urlOk);
    case CallRefresh => CallRefreshKeeps(w);
  }

  predicate BackgroundStep(e: Event) {
    || e.Notify? || e.WatcherExits? || e.SweepDone? || e.PublishSweep? || e.LoopExits? || e.RefreshExits?
  }

  lemma WatchStepKeepsInv(w: World, e: Event)
    requires Inv(w) && (e.Notify? || e.WatcherExits? || e.RefreshExits?)
    ensures Inv(Apply(w, e))
  {
    match e
    case Notify(t, files) => NotifyKeeps(w, t, files);
    case WatcherExits(t) => WatcherExitsKeeps(w, t);
    case RefreshExits(t) => RefreshExitsKeeps(w, t);
  }

  lemma SweepStepKeepsInv(w: World, e: Event)
    requires Inv(w) && (e.SweepDone? || e.PublishSweep? || e.LoopExits?)
    ensures Inv(Apply(w, e))
  {
    match e
    case SweepDone(t, sample) => SweepDoneKeeps(w, t, sample);
    case PublishSweep(t) => PublishSweepKeeps(w, t);
    case LoopExits(t) => LoopExitsKeeps(w, t);
  }

  lemma StartUpStepKeepsInv(w: World, e: Event)
    requires Inv(w) && !CallStep(e) && !BackgroundStep(e)
    ensures Inv(Apply(w, e))
  {
    match e
    case LaunchReturns(t, failure) => LaunchReturnsKeeps(w, t, failure);
    case RecordError(t) => RecordErrorKeeps(w, t);
    case StoreClient(t) => StoreClientKeeps(w, t);
    case MakeContext(t) => MakeContextKeeps(w, t);
    case StoreContext(t) => StoreContextKeeps(w, t);
    case CancelOwn(t) => CancelOwnKeeps(w, t);
    case CancelPrevious(t) => CancelPreviousKeeps(w, t);
    case Go(t) => GoKeeps(w, t);
    case RestoreReturns(t, failure) => RestoreReturnsKeeps(w, t, failure);
    case Finish(t) => FinishKeeps(w, t);
    case _ => assert false;
  }

  lemma StepKeepsInv(w: World, e: Event)
    requires Inv(w)
    ensures Inv(Apply(w, e))
  {
    if CallStep(e) {
      CallStepKeepsInv(w, e);
    } else if BackgroundStep(e) {
      if e.SweepDone? || e.PublishSweep? || e.LoopExits? {
        SweepStepKeepsInv(w, e);
      } else {
        WatchStepKeepsInv(w, e);
      }
    } else {
      StartUpStepKeepsInv(w, e);
    }
  }

  lemma {:induction false} RunKeepsInv(w: World, events: seq<Event>)
    requires Inv(w)
    ensures Inv(Run(w, events))
  {
    if events != [] {
      RunKeepsInv(w, events[..|events| - 1]);
      StepKeepsInv(Run(w, events[..|events| - 1]), events[|events| - 1]);
    }
  }
}
