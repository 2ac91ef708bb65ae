/**
 The backend lifecycle protocol.  Each critical section of the controller's mutex
 is one atomic step; cancel(), go and Close() are steps of their own, taken outside
 the lock by the call or task that owns them.  A World is the controller together
 with every call and task in flight; an Event is one step of one of them; Run takes
 any sequence of events, so a theorem about Run holds in every interleaving.
 */
module Lifecycle {
  import opened Wrappers
  import opened LocalSendDebouncer

  type ServerId = nat
  type TaskId = nat
  type DeviceId = nat

  /** The generation counter is 64 bits wide and wraps. */
  const GENERATIONS: nat := 0x1_0000_0000_0000_0000

  /** The cancel function of one incoming-file watcher or one device sync loop. */
  datatype Handle = WatchCancel(id: nat) | SyncCancel(id: nat)

  datatype IncomingFile = IncomingFile(name: string, declaredSize: int, received: int, startedAtMs: int)

  /** The fields guarded by the controller's mutex.  A client is named by the server it
      came from, and a start context by the server it starts. */
  datatype Controller = Controller(
    server: Option<ServerId>,
    client: Option<ServerId>,
    starting: bool,
    startErr: string,
    generation: nat,
    externalTun: bool,
    tunDevice: Option<DeviceId>,
    cancelStart: Option<ServerId>,
    taildropWatchStop: Option<Handle>,
    taildropIncoming: seq<IncomingFile>,
    deviceSyncStop: Option<Handle>,
    deviceSyncReady: bool,
    devices: Devices)

  /** The pair every background task carries to recognise that it is stale. */
  datatype Tag = Tag(server: ServerId, generation: nat)

  // ------------------------------------------------------- critical sections

  function NextGeneration(generation: nat): nat {
    (generation + 1) % GENERATIONS
  }

  predicate Current(c: Controller, tag: Tag) {
    c.server == Some(tag.server) && c.generation == tag.generation
  }

  predicate CurrentWithClient(c: Controller, tag: Tag) {
    Current(c, tag) && c.client.Some?
  }

  predicate CanInstall(c: Controller) {
    c.server.None? && !c.starting
  }

  function Install(c: Controller, server: ServerId, device: Option<DeviceId>): Controller {
    c.(generation := NextGeneration(c.generation),
       server := Some(server),
       starting := true,
       startErr := "",
       externalTun := device.Some?,
       tunDevice := device,
       cancelStart := Some(server))
  }

  /** The section that stop and restartWithTun share. */
  function Detach(c: Controller): Controller {
    Controller(None, None, false, "", NextGeneration(c.generation), false, None, None, None, [], None, false, NoDevices)
  }

  function PublishClient(c: Controller, tag: Tag): Controller {
    c.(client := Some(tag.server))
  }

  function StoreWatch(c: Controller, h: Handle): Controller {
    c.(taildropWatchStop := Some(h), taildropIncoming := [])
  }

  function StoreSync(c: Controller, h: Handle): Controller {
    c.(deviceSyncStop := Some(h), deviceSyncReady := true)
  }

  function MarkReady(c: Controller): Controller {
    c.(starting := false, cancelStart := None)
  }

  function RecordStartError(c: Controller, tag: Tag, err: string): Controller {
    if Current(c, tag) then c.(starting := false, startErr := err, cancelStart := None) else c
  }

  function ShowIncoming(c: Controller, tag: Tag, files: seq<IncomingFile>): Controller {
    if Current(c, tag) then c.(taildropIncoming := files) else c
  }

  function MergeDevices(c: Controller, tag: Tag, sample: Sample): Controller {
    if CurrentWithClient(c, tag) then c.(devices := Accept(c.devices, sample)) else c
  }

  function ForgetSync(c: Controller, tag: Tag): Controller {
    if Current(c, tag) then c.(deviceSyncStop := None) else c
  }

  // ------------------------------------------------------------------- tasks

  /** Where the start-up task of one server stands. */
  datatype StartPc =
    | Launching                                            // in server.Start or LocalClient
    | Failing(err: string)
    | HaveClient
    | NoWatch
    | WatchMade(h: Handle)                                 // context made, not stored
    | WatchStale(h: Handle)                                // about to cancel its own context
    | WatchStored(previous: Option<Handle>, h: Handle)     // about to cancel the one it replaced
    | NoSync
    | SyncMade(h: Handle)
    | SyncStale(h: Handle)
    | SyncStored(previous: Option<Handle>, h: Handle)
    | Restoring
    | Restored

  datatype Task =
    // stop, or restartWithTun when it carries a device: cancels and closes what its section took
    | Teardown(start: Option<ServerId>, watch: Option<Handle>, sync: Option<Handle>,
               server: Option<ServerId>, device: Option<DeviceId>)
    // restartWithTun past Close, before it calls startWithDevice
    | Reinstalling(newTun: DeviceId)
    | StartUp(tag: Tag, pc: StartPc)
    | Watcher(tag: Tag, h: Handle)
    // holds a finished sweep between its last context check and the update section
    | SyncLoop(tag: Tag, h: Handle, sweep: Option<Sample>)
    | Refresh(tag: Tag, sweep: Option<Sample>)

  /** Who may still cancel a handle. */
  datatype Place = Unstored(owner: TaskId) | InController | HeldBy(owner: TaskId) | Cancelled

  /** Bookkeeping that no step reads: the writer of each fenced field, the sweeps accepted
      since the last detach, and the place each handle was last moved to. */
  datatype Audit = Audit(
    client: Option<Tag>,
    startErr: Option<Tag>,
    incoming: Option<Tag>,
    devices: Option<Tag>,
    accepted: seq<Sample>,
    place: map<Handle, Place>)

  datatype World = World(
    ctl: Controller,
    tasks: map<TaskId, Task>,
    nextTask: TaskId,
    nextServer: ServerId,
    nextHandle: nat,
    cancelled: set<Handle>,
    cancelledStarts: set<ServerId>,
    audit: Audit)

  const Initial := World(
    Controller(None, None, false, "", 0, false, None, None, None, [], None, false, NoDevices),
    map[], 0, 0, 0, {}, {},
    Audit(None, None, None, None, [], map[]))

  datatype Event =
    | CallStart(urlOk: bool)
    | CallStop
    | CallRestart(newDevice: DeviceId)
    | CancelNext(t: TaskId)
    | CloseServer(t: TaskId, closed: bool)
    | CallInstall(t: TaskId, urlOk: bool)
    | LaunchReturns(t: TaskId, failure: Option<string>)
    | RecordError(t: TaskId)
    | StoreClient(t: TaskId)
    | MakeContext(t: TaskId)
    | StoreContext(t: TaskId)
    | CancelOwn(t: TaskId)
    | CancelPrevious(t: TaskId)
    | Go(t: TaskId)
    | RestoreReturns(t: TaskId, failure: Option<string>)
    | Finish(t: TaskId)
    | Notify(t: TaskId, files: seq<IncomingFile>)
    | WatcherExits(t: TaskId)
    | SweepDone(t: TaskId, sample: Sample)
    | PublishSweep(t: TaskId)
    | LoopExits(t: TaskId)
    | CallRefresh
    | RefreshExits(t: TaskId)

  // ------------------------------------------------------------------- steps

  function Put(w: World, t: TaskId, task: Task): World {
    w.(tasks := w.tasks[t := task])
  }

  function Drop(w: World, t: TaskId): World {
    w.(tasks := w.tasks - {t})
  }

  function Spawn(w: World, task: Task): World {
    w.(tasks := w.tasks[w.nextTask := task], nextTask := w.nextTask + 1)
  }

  function Move(w: World, h: Handle, place: Place): World {
    w.(audit := w.audit.(place := w.audit.place[h := place]))
  }

  function MoveIf(w: World, h: Option<Handle>, place: Place): World {
    if h.Some? then Move(w, h.value, place) else w
  }

  function CancelHandle(w: World, h: Handle): World {
    Move(w.(cancelled := w.cancelled + {h}), h, Cancelled)
  }

  /** startWithDevice: one section, then `go startAsync`. */
  function InstallStep(w: World, device: Option<DeviceId>): World {
    if CanInstall(w.ctl) then
      var ctl := Install(w.ctl, w.nextServer, device);
      Spawn(w.(ctl := ctl, nextServer := w.nextServer + 1, audit := w.audit.(startErr := None)),
            StartUp(Tag(w.nextServer, ctl.generation), Launching))
    else w
  }

  /** The shared section of stop and restartWithTun: the caller leaves with every handle. */
  function DetachStep(w: World, device: Option<DeviceId>): World {
    var c := w.ctl;
    var moved := MoveIf(MoveIf(w, c.taildropWatchStop, HeldBy(w.nextTask)), c.deviceSyncStop, HeldBy(w.nextTask));
    Spawn(moved.(ctl := Detach(c),
                 audit := Audit(None, None, None, None, [], moved.audit.place)),
          Teardown(c.cancelStart, c.taildropWatchStop, c.deviceSyncStop, c.server, device))
  }

  function CancelNextStep(w: World, t: TaskId): World {
    if t !in w.tasks || !w.tasks[t].Teardown? then w
    else
      var task := w.tasks[t];
      if task.start.Some? then
        Put(w.(cancelledStarts := w.cancelledStarts + {task.start.value}), t, task.(start := None))
      else if task.watch.Some? then
        Put(CancelHandle(w, task.watch.value), t, task.(watch := None))
      else if task.sync.Some? then
        Put(CancelHandle(w, task.sync.value), t, task.(sync := None))
      else w
  }

  function CloseServerStep(w: World, t: TaskId, closed: bool): World {
    if t !in w.tasks || !w.tasks[t].Teardown? then w
    else
      var task := w.tasks[t];
      if task.start.Some? || task.watch.Some? || task.sync.Some? then w
      else if task.device.None? || (task.server.Some? && !closed) then Drop(w, t)
      else Put(w, t, Reinstalling(task.device.value))
  }

  function CallInstallStep(w: World, t: TaskId, urlOk: bool): World {
    if t !in w.tasks || !w.tasks[t].Reinstalling? then w
    else
      var rest := Drop(w, t);
      if urlOk then InstallStep(rest, Some(w.tasks[t].newTun)) else rest
  }

  predicate StartUpAt(w: World, t: TaskId) {
    t in w.tasks && w.tasks[t].StartUp?
  }

  function Advance(w: World, t: TaskId, pc: StartPc): World
    requires StartUpAt(w, t)
  {
    Put(w, t, w.tasks[t].(pc := pc))
  }

  function LaunchReturnsStep(w: World, t: TaskId, failure: Option<string>): World {
    if !StartUpAt(w, t) || !w.tasks[t].pc.Launching? then w
    else Advance(w, t, if failure.Some? then Failing(failure.value) else HaveClient)
  }

  function RecordErrorStep(w: World, t: TaskId): World {
    if !StartUpAt(w, t) || !w.tasks[t].pc.Failing? then w
    else
      var tag := w.tasks[t].tag;
      var next := Drop(w.(ctl := RecordStartError(w.ctl, tag, w.tasks[t].pc.err)), t);
      if Current(w.ctl, tag) then next.(audit := w.audit.(startErr := Some(tag))) else next
  }

  /** The fence of startAsync: still installed, and the start context not cancelled. */
  predicate StillStarting(w: World, tag: Tag) {
    Current(w.ctl, tag) && tag.server !in w.cancelledStarts
  }

  function StoreClientStep(w: World, t: TaskId): World {
    if !StartUpAt(w, t) || !w.tasks[t].pc.HaveClient? then w
    else
      var tag := w.tasks[t].tag;
      if StillStarting(w, tag) then
        Advance(w.(ctl := PublishClient(w.ctl, tag), audit := w.audit.(client := Some(tag))), t, NoWatch)
      else Drop(w, t)
  }

  function MakeContextStep(w: World, t: TaskId): World {
    if !StartUpAt(w, t) then w
    else if w.tasks[t].pc.NoWatch? then
      var h := WatchCancel(w.nextHandle);
      Advance(Move(w.(nextHandle := w.nextHandle + 1), h, Unstored(t)), t, WatchMade(h))
    else if w.tasks[t].pc.NoSync? then
      var h := SyncCancel(w.nextHandle);
      Advance(Move(w.(nextHandle := w.nextHandle + 1), h, Unstored(t)), t, SyncMade(h))
    else w
  }

  function StoreContextStep(w: World, t: TaskId): World {
    if !StartUpAt(w, t) then w
    else
      var tag := w.tasks[t].tag;
      match w.tasks[t].pc
      case WatchMade(h) =>
        if !Current(w.ctl, tag) then Advance(Move(w, h, HeldBy(t)), t, WatchStale(h))
        else
          var previous := w.ctl.taildropWatchStop;
          Advance(Move(MoveIf(w, previous, HeldBy(t)), h, InController).(
                    ctl := StoreWatch(w.ctl, h)), t, WatchStored(previous, h))
      case SyncMade(h) =>
        if !Current(w.ctl, tag) then Advance(Move(w, h, HeldBy(t)), t, SyncStale(h))
        else
          var previous := w.ctl.deviceSyncStop;
          Advance(Move(MoveIf(w, previous, HeldBy(t)), h, InController).(
                    ctl := StoreSync(w.ctl, h)), t, SyncStored(previous, h))
      case _ => w
  }

  function CancelOwnStep(w: World, t: TaskId): World {
    if !StartUpAt(w, t) then w
    else match w.tasks[t].pc
      case WatchStale(h) => Advance(CancelHandle(w, h), t, NoSync)
      case SyncStale(h) => Advance(CancelHandle(w, h), t, Restoring)
      case _ => w
  }

  function CancelPreviousStep(w: World, t: TaskId): World {
    if !StartUpAt(w, t) then w
    else match w.tasks[t].pc
      case WatchStored(Some(previous), h) => Advance(CancelHandle(w, previous), t, WatchStored(None, h))
      case SyncStored(Some(previous), h) => Advance(CancelHandle(w, previous), t, SyncStored(None, h))
      case _ => w
  }

  function GoStep(w: World, t: TaskId): World {
    if !StartUpAt(w, t) then w
    else match w.tasks[t].pc
      case WatchStored(None, h) => Spawn(Advance(w, t, NoSync), Watcher(w.tasks[t].tag, h))
      case SyncStored(None, h) => Spawn(Advance(w, t, Restoring), SyncLoop(w.tasks[t].tag, h, None))
      case _ => w
  }

  function RestoreReturnsStep(w: World, t: TaskId, failure: Option<string>): World {
    if !StartUpAt(w, t) || !w.tasks[t].pc.Restoring? then w
    else Advance(w, t, if failure.Some? then Failing(failure.value) else Restored)
  }

  function FinishStep(w: World, t: TaskId): World {
    if !StartUpAt(w, t) || !w.tasks[t].pc.Restored? then w
    else if StillStarting(w, w.tasks[t].tag) then Drop(w.(ctl := MarkReady(w.ctl)), t)
    else Drop(w, t)
  }

  function NotifyStep(w: World, t: TaskId, files: seq<IncomingFile>): World {
    if t !in w.tasks || !w.tasks[t].Watcher? then w
    else
      var tag := w.tasks[t].tag;
      var next := w.(ctl := ShowIncoming(w.ctl, tag, files));
      if Current(w.ctl, tag) then next.(audit := w.audit.(incoming := Some(tag))) else next
  }

  function WatcherExitsStep(w: World, t: TaskId): World {
    if t in w.tasks && w.tasks[t].Watcher? && w.tasks[t].h in w.cancelled then Drop(w, t) else w
  }

  /** A sweep ends with a check that its context is not cancelled; a cancelled one is discarded. */
  function SweepDoneStep(w: World, t: TaskId, sample: Sample): World {
    if t !in w.tasks || !ProbeSample(sample) then w
    else match w.tasks[t]
      case SyncLoop(tag, h, None) => if h in w.cancelled then w else Put(w, t, SyncLoop(tag, h, Some(sample)))
      case Refresh(tag, None) => Put(w, t, Refresh(tag, Some(sample)))
      case _ => w
  }

  function PublishTo(w: World, tag: Tag, sample: Sample): World {
    var next := w.(ctl := MergeDevices(w.ctl, tag, sample));
    if CurrentWithClient(w.ctl, tag)
    then next.(audit := w.audit.(devices := Some(tag), accepted := w.audit.accepted + [sample]))
    else next
  }

  function PublishSweepStep(w: World, t: TaskId): World {
    if t !in w.tasks then w
    else match w.tasks[t]
      case SyncLoop(tag, h, Some(sample)) => Put(PublishTo(w, tag, sample), t, SyncLoop(tag, h, None))
      case Refresh(tag, Some(sample)) => Put(PublishTo(w, tag, sample), t, Refresh(tag, None))
      case _ => w
  }

  /** The loop's deferred section, after its context was cancelled. */
  function LoopExitsStep(w: World, t: TaskId): World {
    if t in w.tasks && w.tasks[t].SyncLoop? && w.tasks[t].sweep.None? && w.tasks[t].h in w.cancelled
    then Drop(w.(ctl := ForgetSync(w.ctl, w.tasks[t].tag)), t)
    else w
  }

  function CallRefreshStep(w: World): World {
    if w.ctl.server.Some? && w.ctl.client.Some?
    then Spawn(w, Refresh(Tag(w.ctl.server.value, w.ctl.generation), None))
    else w
  }

  function RefreshExitsStep(w: World, t: TaskId): World {
    if t in w.tasks && w.tasks[t].Refresh? && w.tasks[t].sweep.None? then Drop(w, t) else w
  }

  function Apply(w: World, e: Event): World {
    match e
    case CallStart(urlOk) => if urlOk then InstallStep(w, None) else w
    case CallStop => DetachStep(w, None)
    case CallRestart(device) => DetachStep(w, Some(device))
    case CancelNext(t) => CancelNextStep(w, t)
    case CloseServer(t, closed) => CloseServerStep(w, t, closed)
    case CallInstall(t, urlOk) => CallInstallStep(w, t, urlOk)
    case LaunchReturns(t, failure) => LaunchReturnsStep(w, t, failure)
    case RecordError(t) => RecordErrorStep(w, t)
    case StoreClient(t) => StoreClientStep(w, t)
    case MakeContext(t) => MakeContextStep(w, t)
    case StoreContext(t) => StoreContextStep(w, t)
    case CancelOwn(t) => CancelOwnStep(w, t)
    case CancelPrevious(t) => CancelPreviousStep(w, t)
    case Go(t) => GoStep(w, t)
    case RestoreReturns(t, failure) => RestoreReturnsStep(w, t, failure)
    case Finish(t) => FinishStep(w, t)
    case Notify(t, files) => NotifyStep(w, t, files)
    case WatcherExits(t) => WatcherExitsStep(w, t)
    case SweepDone(t, sample) => SweepDoneStep(w, t, sample)
    case PublishSweep(t) => PublishSweepStep(w, t)
    case LoopExits(t) => LoopExitsStep(w, t)
    case CallRefresh => CallRefreshStep(w)
    case RefreshExits(t) => RefreshExitsStep(w, t)
  }

  /** Any interleaving: an event whose task is not at that point changes nothing. */
  function Run(w: World, events: seq<Event>): World {
    if events == [] then w else Apply(Run(w, events[..|events| - 1]), events[|events| - 1])
  }
}
