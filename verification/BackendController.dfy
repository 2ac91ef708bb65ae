/**
 The controller as the source has it: fields assigned under the mutex, one method a
 critical section, and the calls and the start-up task written out with other calls,
 tasks and loops running wherever the mutex is free.  Every method moves the protocol's
 World by the events it stands for, so each of its states is a state of some Run.
 */
module Backend {
  import opened Wrappers
  import opened LocalSendDebouncer
  import opened Lifecycle
  import opened LifecycleProofs
  import opened LifecycleTheorems
  import opened LifecycleCompletions

  lemma RunOneMore(w: World, events: seq<Event>, e: Event)
    ensures Run(w, events + [e]) == Apply(Run(w, events), e)
  {
    assert (events + [e])[..|events + [e]| - 1] == events;
  }

  lemma StepNeverUncancels(w: World, e: Event)
    ensures w.cancelled <= Apply(w, e).cancelled
  {
  }

  /** What is cancelled stays cancelled, and a server that has gone stays away. */
  ghost predicate Later(w: World, v: World) {
    w.cancelledStarts <= v.cancelledStarts && forall s :: Gone(w, s) ==> Gone(v, s)
  }

  lemma StepLeadsLater(w: World, e: Event)
    ensures Later(w, Apply(w, e))
  {
    StartsStayCancelled(w, e);
    forall s | Gone(w, s) ensures Gone(Apply(w, e), s) {
      StaysGone(w, e, s);
    }
  }

  lemma InstalledIsNotCancelled(events: seq<Event>)
    ensures var w := Run(Initial, events); forall s :: s in w.cancelledStarts ==> w.ctl.server != Some(s)
  {
    ReachableInv(events);
  }

  class BackendController {
    var server: Option<ServerId>
    var client: Option<ServerId>
    var starting: bool
    var startErr: string
    var generation: nat
    var externalTun: bool
    var tunDevice: Option<DeviceId>
    var cancelStart: Option<ServerId>
    var taildropWatchStop: Option<Handle>
    var taildropIncoming: seq<IncomingFile>
    var meshArcDeviceSyncStop: Option<Handle>
    var meshArcDeviceSyncReady: bool
    var meshArcDeviceStatuses: map<PeerKey, Status>
    var meshArcDeviceFailures: map<PeerKey, nat>

    /** The controller's surroundings: every call, task and loop in flight. */
    var world: World
    ghost var trace: seq<Event>

    function View(): Controller
      reads this
    {
      Controller(server, client, starting, startErr, generation, externalTun, tunDevice, cancelStart,
                 taildropWatchStop, taildropIncoming, meshArcDeviceSyncStop, meshArcDeviceSyncReady,
                 Devices(meshArcDeviceStatuses, meshArcDeviceFailures))
    }

    ghost predicate Valid()
      reads this
    {
      View() == world.ctl && world == Run(Initial, trace)
    }

    lemma TaskBelowNext(t: TaskId)
      requires Valid() && t in world.tasks
      ensures t < world.nextTask
    {
      ReachableInv(trace);
    }

    ghost predicate TaskIs(t: TaskId, task: Task)
      reads this`world
    {
      t in world.tasks && world.tasks[t] == task
    }

    constructor ()
      ensures Valid() && world == Initial
    {
      server, client, starting, startErr := None, None, false, "";
      generation, externalTun, tunDevice, cancelStart := 0, false, None, None;
      taildropWatchStop, taildropIncoming := None, [];
      meshArcDeviceSyncStop, meshArcDeviceSyncReady := None, false;
      meshArcDeviceStatuses, meshArcDeviceFailures := map[], map[];
      world, trace := Initial, [];
    }

    /** The protocol takes the step that the fields have just taken. */
    method Advance(e: Event)
      requires world == Run(Initial, trace) && View() == Apply(world, e).ctl
      modifies this`world, this`trace
      ensures Valid() && world == Apply(old(world), e)
      ensures old(world).cancelled <= world.cancelled && Later(old(world), world)
    {
      RunOneMore(Initial, trace, e);
      StepNeverUncancels(world, e);
      StepLeadsLater(world, e);
      world, trace := Apply(world, e), trace + [e];
    }

    method Load(c: Controller)
      modifies this
      ensures View() == c && world == old(world) && trace == old(trace)
    {
      generation := c.generation;
      LoadServer(c);
      LoadBackground(c);
    }

    method LoadServer(c: Controller)
      modifies this`server, this`client, this`starting, this`startErr
      modifies this`externalTun, this`tunDevice, this`cancelStart
      ensures View() == old(View()).(server := c.server, client := c.client, starting := c.starting,
                                     startErr := c.startErr, externalTun := c.externalTun,
                                     tunDevice := c.tunDevice, cancelStart := c.cancelStart)
    {
      server, client, starting, startErr := c.server, c.client, c.starting, c.startErr;
      externalTun, tunDevice, cancelStart := c.externalTun, c.tunDevice, c.cancelStart;
    }

    method LoadBackground(c: Controller)
      modifies this`taildropWatchStop, this`taildropIncoming, this`meshArcDeviceSyncStop, this`meshArcDeviceSyncReady,
               this`meshArcDeviceStatuses, this`meshArcDeviceFailures
      ensures View() == old(View()).(taildropWatchStop := c.taildropWatchStop, taildropIncoming := c.taildropIncoming,
                                     deviceSyncStop := c.deviceSyncStop, deviceSyncReady := c.deviceSyncReady,
                                     devices := c.devices)
    {
      taildropWatchStop, taildropIncoming := c.taildropWatchStop, c.taildropIncoming;
      meshArcDeviceSyncStop, meshArcDeviceSyncReady := c.deviceSyncStop, c.deviceSyncReady;
      meshArcDeviceStatuses, meshArcDeviceFailures := c.devices.statuses, c.devices.failures;
    }

    /** The mutex is free: any number of steps of everybody but t, which stays where it is. */
    method Interfere(t: TaskId, ghost task: Task)
      requires Valid() && TaskIs(t, task)
      modifies this
      ensures Valid() && TaskIs(t, task)
      ensures old(world).cancelled <= world.cancelled && Later(old(world), world)
    {
      var steps: nat := *;
      while steps > 0
        invariant Valid() && TaskIs(t, task)
        invariant old(world).cancelled <= world.cancelled && Later(old(world), world)
      {
        var e: Event := *;
        if Subject(e) != Some(t) {
          TaskBelowNext(t);
          OthersUntouched(world, e, t);
          Load(Apply(world, e).ctl);
          Advance(e);
        }
        steps := steps - 1;
      }
    }

    // ------------------------------------------------------------- sections

    method InstallSection(device: Option<DeviceId>) returns (installed: bool)
      requires Valid()
      modifies this
      ensures installed <==> CanInstall(old(View()))
      ensures View() == if installed then Install(old(View()), world.nextServer, device) else old(View())
      ensures world == old(world) && trace == old(trace)
    {
      if server.Some? || starting {
        return false;
      }
      generation := (generation + 1) % GENERATIONS;
      server := Some(world.nextServer);
      starting := true;
      startErr := "";
      externalTun := device.Some?;
      tunDevice := device;
      cancelStart := server;
      return true;
    }

    method DetachSection()
      modifies this
      ensures View() == Detach(old(View()))
      ensures world == old(world) && trace == old(trace)
    {
      generation := (generation + 1) % GENERATIONS;
      ForgetServer();
      ForgetBackground();
    }

    /** The first half of the section's assignments. */
    method ForgetServer()
      modifies this`server, this`client, this`starting, this`startErr
      modifies this`externalTun, this`tunDevice, this`cancelStart
      ensures View() == old(View()).(server := None, client := None, starting := false, startErr := "",
                                     externalTun := false, tunDevice := None, cancelStart := None)
    {
      server := None;
      client := None;
      starting := false;
      startErr := "";
      externalTun := false;
      tunDevice := None;
      cancelStart := None;
    }

    /** The second half. */
    method ForgetBackground()
      modifies this`taildropWatchStop, this`taildropIncoming, this`meshArcDeviceSyncStop, this`meshArcDeviceSyncReady,
               this`meshArcDeviceStatuses, this`meshArcDeviceFailures
      ensures View() == old(View()).(taildropWatchStop := None, taildropIncoming := [], deviceSyncStop := None,
                                     deviceSyncReady := false, devices := NoDevices)
    {
      taildropWatchStop := None;
      meshArcDeviceSyncStop := None;
      meshArcDeviceStatuses := map[];
      meshArcDeviceFailures := map[];
      meshArcDeviceSyncReady := false;
      taildropIncoming := [];
    }

    // ---------------------------------------------------------------- calls

    method StartWithDevice(urlOk: bool) returns (installed: bool)
      requires Valid()
      modifies this
      ensures Valid() && world == Apply(old(world), CallStart(urlOk))
      ensures installed <==> urlOk && old(server).None?
      ensures urlOk ==> server.Some?
      ensures View() == if installed then Install(old(View()), old(world).nextServer, None) else old(View())
      ensures installed ==> server == Some(old(world).nextServer) && tunDevice.None? && starting
    {
      if !urlOk {
        Advance(CallStart(false));
        return false;
      }
      ReachableInv(trace);
      installed := InstallSection(None);
      Advance(CallStart(true));
    }

    /** The cancels and the Close that follow the section, each at any later moment. */
    method TearDown(t: TaskId, closed: bool)
      requires Valid() && t in world.tasks && world.tasks[t].Teardown?
      modifies this
      ensures Valid() && old(world).cancelled <= world.cancelled && Later(old(world), world)
      ensures forall h :: h in Holding(old(world).tasks[t]) ==> h in world.cancelled
      ensures var start := old(world).tasks[t].start; start.Some? ==> start.value in world.cancelledStarts
      ensures var task := old(world).tasks[t];
              if task.device.None? || (task.server.Some? && !closed) then t !in world.tasks
              else t in world.tasks && world.tasks[t] == Reinstalling(task.device.value)
    {
      var task := world.tasks[t];
      if task.start.Some? {
        CancelOne(t, task, task.(start := None));
        task := task.(start := None);
      }
      if task.watch.Some? {
        CancelOne(t, task, task.(watch := None));
        task := task.(watch := None);
      }
      if task.sync.Some? {
        CancelOne(t, task, task.(sync := None));
        task := task.(sync := None);
      }
      Interfere(t, task);
      Advance(CloseServer(t, closed));
    }

    /** One cancel() of a teardown, in the order start, watch, sync. */
    method CancelOne(t: TaskId, ghost task: Task, ghost after: Task)
      requires Valid() && TaskIs(t, task) && task.Teardown?
      requires after == if task.start.Some? then task.(start := None)
                        else if task.watch.Some? then task.(watch := None) else task.(sync := None)
      requires task.start.Some? || task.watch.Some? || task.sync.Some?
      modifies this
      ensures Valid() && TaskIs(t, after)
      ensures old(world).cancelled <= world.cancelled && Later(old(world), world)
      ensures Holding(task) <= Holding(after) + world.cancelled
      ensures task.start.Some? ==> task.start.value in world.cancelledStarts
    {
      Interfere(t, task);
      Advance(CancelNext(t));
    }

    /** stop: on return every handle it found stored is cancelled, a start-up under way too, and the server
        it found is installed no more, whatever else ran meanwhile. */
    method Stop(closed: bool)
      requires Valid()
      modifies this
      ensures Valid()
      ensures forall h :: old(At(world, h, InController)) ==> h in world.cancelled
      ensures old(cancelStart).Some? ==> old(cancelStart).value in world.cancelledStarts
      ensures old(server).Some? ==> server != old(server)
      ensures old(world).nextTask !in world.tasks
    {
      var t := world.nextTask;
      ReachableInv(trace);
      DetachSection();
      Advance(CallStop);
      assert old(server).Some? ==> Gone(world, old(server).value);
      TearDown(t, closed);
    }

    /** restartWithTun: as stop, then a second section that a foreign start may have beaten.  Without a
        usable TUN descriptor it changes nothing.  `met` is the protocol as the second section found it, or
        as the call left it when an unclosed server kept it from getting there. */
    method RestartWithTun(device: DeviceId, tunOk: bool, closed: bool, urlOk: bool)
      returns (installed: bool, ghost met: World)
      requires Valid()
      modifies this
      ensures Valid()
      ensures !tunOk ==> world == old(world)
      ensures tunOk ==> forall h :: old(At(world, h, InController)) ==> h in world.cancelled
      ensures tunOk && old(cancelStart).Some? ==> old(cancelStart).value in world.cancelledStarts
      ensures tunOk && old(server).Some? ==> server != old(server)
      ensures tunOk ==> old(world).nextTask !in world.tasks
      ensures installed <==> tunOk && urlOk && (closed || old(server).None?) && met.ctl.server.None?
      ensures tunOk && urlOk && (closed || old(server).None?) ==> server.Some?
      ensures View() == if installed then Install(met.ctl, met.nextServer, Some(device)) else met.ctl
      ensures installed ==> server == Some(met.nextServer) && tunDevice == Some(device) && starting
      ensures installed ==> Running(StartUp(Tag(met.nextServer, generation), Launching))
    {
      if !tunOk {
        return false, world;
      }
      var t := world.nextTask;
      ReachableInv(trace);
      DetachSection();
      Advance(CallRestart(device));
      assert old(server).Some? ==> Gone(world, old(server).value);
      var hadServer := world.tasks[t].server.Some?;
      TearDown(t, closed);
      if hadServer && !closed {
        return false, world;
      }
      Interfere(t, Reinstalling(device));
      met := world;
      installed := Reinstall(t, device, urlOk);
    }

    /** The second section of a restart, which is the start of any server, with the TUN this time. */
    method Reinstall(t: TaskId, device: DeviceId, urlOk: bool) returns (installed: bool)
      requires Valid() && TaskIs(t, Reinstalling(device))
      modifies this
      ensures Valid() && world == Apply(old(world), CallInstall(t, urlOk)) && t !in world.tasks
      ensures old(world).cancelled <= world.cancelled && Later(old(world), world)
      ensures installed <==> urlOk && old(server).None?
      ensures urlOk ==> server.Some?
      ensures View() == if installed then Install(old(View()), old(world).nextServer, Some(device)) else old(View())
      ensures installed ==> Running(StartUp(Tag(old(world).nextServer, generation), Launching))
    {
      TaskBelowNext(t);
      ReachableInv(trace);
      if !urlOk {
        Advance(CallInstall(t, false));
        return false;
      }
      installed := InstallSection(Some(device));
      ghost var u := world.nextTask;
      Advance(CallInstall(t, true));
      assert installed ==> u in world.tasks;
    }

    // ------------------------------------------------------- start-up task

    method SetStartErrorFor(t: TaskId, tag: Tag, err: string)
      requires Valid() && TaskIs(t, StartUp(tag, Failing(err)))
      modifies this
      ensures Valid() && world == Apply(old(world), RecordError(t)) && t !in world.tasks
      ensures Lifecycle.Current(View(), tag) ==> !starting && startErr == err
      ensures old(world).cancelled <= world.cancelled
    {
      if server == Some(tag.server) && generation == tag.generation {
        starting := false;
        startErr := err;
        cancelStart := None;
      }
      Advance(RecordError(t));
    }

    method Current(tag: Tag) returns (current: bool)
      ensures current <==> Lifecycle.Current(View(), tag)
    {
      return server == Some(tag.server) && generation == tag.generation;
    }

    /** A goroutine is running that does this. */
    ghost predicate Running(task: Task)
      reads this`world
    {
      exists u :: u in world.tasks && world.tasks[u] == task
    }

    /** The context made here ends up cancelled, or with the watcher started under it. */
    method StartTaildropIncomingWatch(t: TaskId, tag: Tag)
      requires Valid() && TaskIs(t, StartUp(tag, NoWatch))
      modifies this
      ensures Valid() && TaskIs(t, StartUp(tag, NoSync))
      ensures var h := WatchCancel(old(world).nextHandle); h in world.cancelled || Running(Watcher(tag, h))
      ensures old(world).cancelled <= world.cancelled
    {
      var h := WatchCancel(world.nextHandle);
      Advance(MakeContext(t));
      Interfere(t, StartUp(tag, WatchMade(h)));
      var current := StoreWatchSection(t, tag, h);
      if current {
        GoLoop(t, tag, WatchStored(None, h));
      } else {
        CancelOwnContext(t, tag, WatchStale(h));
      }
    }

    /** `go` of the loop whose context was stored; no previous one was there to cancel. */
    method GoLoop(t: TaskId, tag: Tag, ghost pc: StartPc)
      requires Valid() && TaskIs(t, StartUp(tag, pc))
      requires (pc.WatchStored? || pc.SyncStored?) && pc.previous.None?
      modifies this
      ensures Valid() && TaskIs(t, StartUp(tag, if pc.WatchStored? then NoSync else Restoring))
      ensures Running(if pc.WatchStored? then Watcher(tag, pc.h) else SyncLoop(tag, pc.h, None))
      ensures old(world).cancelled <= world.cancelled
    {
      Interfere(t, StartUp(tag, pc));
      TaskBelowNext(t);
      ghost var u := world.nextTask;
      Advance(Go(t));
      assert u in world.tasks;
    }

    /** The backend has moved on: the new context is cancelled and no loop starts. */
    method CancelOwnContext(t: TaskId, tag: Tag, ghost pc: StartPc)
      requires Valid() && TaskIs(t, StartUp(tag, pc)) && (pc.WatchStale? || pc.SyncStale?)
      modifies this
      ensures Valid() && TaskIs(t, StartUp(tag, if pc.WatchStale? then NoSync else Restoring))
      ensures old(world).cancelled <= world.cancelled && pc.h in world.cancelled
    {
      Interfere(t, StartUp(tag, pc));
      Advance(CancelOwn(t));
    }

    method StoreWatchSection(t: TaskId, tag: Tag, h: Handle) returns (current: bool)
      requires Valid() && TaskIs(t, StartUp(tag, WatchMade(h)))
      modifies this
      ensures Valid() && world.cancelled == old(world).cancelled
      ensures TaskIs(t, StartUp(tag, if current then WatchStored(None, h) else WatchStale(h)))
      ensures current <==> Lifecycle.Current(old(View()), tag)
      ensures View() == if current then StoreWatch(old(View()), h) else old(View())
    {
      current := Current(tag);
      if current {
        StoreFindsNothing(t);
        taildropWatchStop := Some(h);
        taildropIncoming := [];
      }
      Advance(StoreContext(t));
    }

    /** The same for the sync loop. */
    method StartMeshArcDeviceSync(t: TaskId, tag: Tag)
      requires Valid() && TaskIs(t, StartUp(tag, NoSync))
      modifies this
      ensures Valid() && TaskIs(t, StartUp(tag, Restoring))
      ensures var h := SyncCancel(old(world).nextHandle); h in world.cancelled || Running(SyncLoop(tag, h, None))
      ensures old(world).cancelled <= world.cancelled
    {
      var h := SyncCancel(world.nextHandle);
      Advance(MakeContext(t));
      Interfere(t, StartUp(tag, SyncMade(h)));
      var current := StoreSyncSection(t, tag, h);
      if current {
        GoLoop(t, tag, SyncStored(None, h));
      } else {
        CancelOwnContext(t, tag, SyncStale(h));
      }
    }

    method StoreSyncSection(t: TaskId, tag: Tag, h: Handle) returns (current: bool)
      requires Valid() && TaskIs(t, StartUp(tag, SyncMade(h)))
      modifies this
      ensures Valid() && world.cancelled == old(world).cancelled
      ensures TaskIs(t, StartUp(tag, if current then SyncStored(None, h) else SyncStale(h)))
      ensures current <==> Lifecycle.Current(old(View()), tag)
      ensures View() == if current then StoreSync(old(View()), h) else old(View())
    {
      current := Current(tag);
      if current {
        StoreFindsNothing(t);
        meshArcDeviceSyncStop := Some(h);
        meshArcDeviceSyncReady := true;
      }
      Advance(StoreContext(t));
    }

    /** There is no previous handle to cancel when a start-up task stores its own. */
    lemma StoreFindsNothing(t: TaskId)
      requires Valid() && StartUpAt(world, t) && Lifecycle.Current(View(), world.tasks[t].tag)
      ensures world.tasks[t].pc.WatchMade? ==> taildropWatchStop.None?
      ensures world.tasks[t].pc.SyncMade? ==> meshArcDeviceSyncStop.None?
    {
      ReachableInv(trace);
      assert TaskOk(world.ctl, world.nextServer, world.tasks[t]);
    }

    /** startAsync, from its first line to its last: it always runs to its end, and if its backend is
        still the installed one then that is in full service without an error, or shows the failure. */
    method StartAsync(t: TaskId, tag: Tag, launchFailure: Option<string>, restoreFailure: Option<string>)
      requires Valid() && TaskIs(t, StartUp(tag, Launching))
      modifies this
      ensures Valid() && t !in world.tasks
      ensures old(world).cancelled <= world.cancelled
      ensures Lifecycle.Current(View(), tag) ==> !starting
      ensures Lifecycle.Current(View(), tag) && launchFailure.Some? ==> startErr == launchFailure.value
      ensures Lifecycle.Current(View(), tag) && launchFailure.None? && restoreFailure.Some? ==>
                startErr == restoreFailure.value
      ensures Lifecycle.Current(View(), tag) && launchFailure.None? && restoreFailure.None? ==>
                Equipped(View()) && startErr == ""
    {
      Interfere(t, StartUp(tag, Launching));
      Advance(LaunchReturns(t, launchFailure));
      if launchFailure.Some? {
        Interfere(t, StartUp(tag, Failing(launchFailure.value)));
        SetStartErrorFor(t, tag, launchFailure.value);
        return;
      }
      Serve(t, tag, restoreFailure);
    }

    /** The client has come up: store it, start the background tasks, restore the preferences. */
    method Serve(t: TaskId, tag: Tag, restoreFailure: Option<string>)
      requires Valid() && TaskIs(t, StartUp(tag, HaveClient))
      modifies this
      ensures Valid() && t !in world.tasks
      ensures old(world).cancelled <= world.cancelled
      ensures Lifecycle.Current(View(), tag) ==> !starting
      ensures Lifecycle.Current(View(), tag) && restoreFailure.Some? ==> startErr == restoreFailure.value
      ensures Lifecycle.Current(View(), tag) && restoreFailure.None? ==> Equipped(View()) && startErr == ""
    {
      Interfere(t, StartUp(tag, HaveClient));
      var current := Current(tag);
      if !current || tag.server in world.cancelledStarts {
        ReachableInv(trace);
        Advance(StoreClient(t));
        return;
      }
      client := Some(tag.server);
      Advance(StoreClient(t));
      Interfere(t, StartUp(tag, NoWatch));
      StartTaildropIncomingWatch(t, tag);
      Interfere(t, StartUp(tag, NoSync));
      StartMeshArcDeviceSync(t, tag);
      RestoreAndFinish(t, tag, restoreFailure);
    }

    /** The end of startAsync: restoring preferences may panic, and the panic is recorded. */
    method RestoreAndFinish(t: TaskId, tag: Tag, restoreFailure: Option<string>)
      requires Valid() && TaskIs(t, StartUp(tag, Restoring))
      modifies this
      ensures Valid() && t !in world.tasks
      ensures old(world).cancelled <= world.cancelled
      ensures Lifecycle.Current(View(), tag) ==> !starting
      ensures Lifecycle.Current(View(), tag) && restoreFailure.Some? ==> startErr == restoreFailure.value
      ensures Lifecycle.Current(View(), tag) && restoreFailure.None? ==> Equipped(View()) && startErr == ""
    {
      Interfere(t, StartUp(tag, Restoring));
      Advance(RestoreReturns(t, restoreFailure));
      if restoreFailure.Some? {
        Interfere(t, StartUp(tag, Failing(restoreFailure.value)));
        SetStartErrorFor(t, tag, restoreFailure.value);
        return;
      }
      Interfere(t, StartUp(tag, Restored));
      ReadySection(t, tag);
    }

    method ReadySection(t: TaskId, tag: Tag)
      requires Valid() && TaskIs(t, StartUp(tag, Restored))
      modifies this
      ensures Valid() && t !in world.tasks && world.cancelled == old(world).cancelled
      ensures View() == if Lifecycle.Current(old(View()), tag)
                        then old(View()).(starting := false, cancelStart := None) else old(View())
      ensures Lifecycle.Current(View(), tag) ==> Equipped(View()) && startErr == ""
    {
      RunKeepsProgress(trace);
      var current := Current(tag);
      InstalledIsNotCancelled(trace);
      if current && tag.server !in world.cancelledStarts {
        starting := false;
        cancelStart := None;
      }
      Advance(Finish(t));
    }

    // ------------------------------------------------------ background updates

    method UpdateTaildropIncomingFiles(t: TaskId, summaries: seq<IncomingFile>)
      requires Valid() && t in world.tasks && world.tasks[t].Watcher?
      modifies this
      ensures Valid() && world == Apply(old(world), Notify(t, summaries))
      ensures taildropIncoming
              == if Lifecycle.Current(old(View()), old(world).tasks[t].tag) then summaries else old(taildropIncoming)
    {
      var tag := world.tasks[t].tag;
      if server == Some(tag.server) && generation == tag.generation {
        taildropIncoming := summaries;
      }
      Advance(Notify(t, summaries));
    }

    /** The deferred section of the sync loop: it never has anything to clear. */
    method ForgetDeviceSync(t: TaskId)
      requires Valid() && t in world.tasks && world.tasks[t].SyncLoop? && world.tasks[t].sweep.None?
      requires world.tasks[t].h in world.cancelled
      modifies this
      ensures Valid() && world == Apply(old(world), LoopExits(t)) && View() == old(View())
    {
      var tag := world.tasks[t].tag;
      if server == Some(tag.server) && generation == tag.generation {
        meshArcDeviceSyncStop := None;
      }
      ReachableInv(trace);
      LoopExitsKeeps(world, t);
      Advance(LoopExits(t));
    }

    /** One visited entry of a sweep: its counter is edited in place, its published status returned. */
    method MergeEntry(k: PeerKey, status: Status, ghost statuses: Sample) returns (published: Status)
      requires k in statuses && statuses[k] == status
      modifies this`meshArcDeviceFailures
      ensures Some(published) == StatusAfter(old(View().devices), statuses, k)
      ensures Lookup(meshArcDeviceFailures, k) == FailuresAfter(old(View().devices), statuses, k)
      ensures forall other ::
                other != k ==> Lookup(meshArcDeviceFailures, other) == Lookup(old(meshArcDeviceFailures), other)
    {
      published := status;
      if status.state == Available {
        meshArcDeviceFailures := meshArcDeviceFailures - {k};
        return;
      }
      var hadPrevious := k in meshArcDeviceStatuses;
      if hadPrevious && meshArcDeviceStatuses[k].state != Available && meshArcDeviceStatuses[k].state != Checking {
        meshArcDeviceFailures := meshArcDeviceFailures - {k};
        return;
      }
      var failures := (if k in meshArcDeviceFailures then meshArcDeviceFailures[k] else 0) + 1;
      meshArcDeviceFailures := meshArcDeviceFailures[k := failures];
      if failures < 2 {
        if hadPrevious {
          published := meshArcDeviceStatuses[k];
        } else {
          published := Status(Checking, "", 0, "", status.checkedAtMs);
        }
      }
    }

    /** Counters of peers the sweep did not see are dropped, in any order. */
    method DropUnseenFailures(statuses: Sample)
      modifies this`meshArcDeviceFailures
      ensures meshArcDeviceFailures ==
              map k | k in old(meshArcDeviceFailures) && k in statuses :: old(meshArcDeviceFailures)[k]
    {
      var unvisited := meshArcDeviceFailures.Keys;
      while unvisited != {}
        invariant meshArcDeviceFailures.Keys <= old(meshArcDeviceFailures).Keys
        invariant forall k :: k in old(meshArcDeviceFailures) && (k in statuses || k in unvisited)
                              ==> k in meshArcDeviceFailures
        invariant forall k :: k in meshArcDeviceFailures ==> meshArcDeviceFailures[k] == old(meshArcDeviceFailures)[k]
        invariant forall k :: k in meshArcDeviceFailures && k !in unvisited ==> k in statuses
        invariant unvisited <= old(meshArcDeviceFailures).Keys
        decreases |unvisited|
      {
        var k :| k in unvisited;
        unvisited := unvisited - {k};
        if k !in statuses {
          meshArcDeviceFailures := meshArcDeviceFailures - {k};
        }
      }
    }

    /** The sample is a map, visited in any order; statuses and counters are edited in place. */
    method UpdateMeshArcDeviceStatuses(tag: Tag, statuses: Sample) returns (accepted: bool)
      modifies this`meshArcDeviceStatuses, this`meshArcDeviceFailures
      ensures accepted <==> CurrentWithClient(old(View()), tag)
      ensures View() == if accepted then old(View()).(devices := Accept(old(View()).devices, statuses)) else old(View())
    {
      if server != Some(tag.server) || generation != tag.generation || client.None? {
        return false;
      }
      ghost var before := View().devices;
      var merged := MergeEntries(statuses);
      ghost var counted := meshArcDeviceFailures;
      DropUnseenFailures(statuses);
      meshArcDeviceStatuses := merged;
      MergedTables(before, statuses, merged, counted, meshArcDeviceFailures);
      return true;
    }

    /** The tables that the two loops leave behind are the debouncer's. */
    static lemma MergedTables(before: Devices, statuses: Sample, merged: map<PeerKey, Status>,
                              counted: map<PeerKey, nat>, failures: map<PeerKey, nat>)
      requires merged.Keys == statuses.Keys
      requires forall k :: k in statuses ==> Some(merged[k]) == StatusAfter(before, statuses, k)
      requires forall k :: k in statuses ==> Lookup(counted, k) == FailuresAfter(before, statuses, k)
      requires failures == map k | k in counted && k in statuses :: counted[k]
      ensures Devices(merged, failures) == Accept(before, statuses)
    {
      forall k
        ensures Lookup(merged, k) == StatusAfter(before, statuses, k)
        ensures Lookup(failures, k) == FailuresAfter(before, statuses, k)
      {
        assert k in statuses ==> Lookup(counted, k) == FailuresAfter(before, statuses, k);
      }
      MergedIsDeterministic(before, statuses, Devices(merged, failures), Accept(before, statuses));
    }

    method MergeEntries(statuses: Sample) returns (merged: map<PeerKey, Status>)
      modifies this`meshArcDeviceFailures
      ensures merged.Keys == statuses.Keys
      ensures forall k :: k in statuses ==> Some(merged[k]) == StatusAfter(old(View().devices), statuses, k)
      ensures forall k :: Lookup(meshArcDeviceFailures, k)
                          == if k in statuses then FailuresAfter(old(View().devices), statuses, k)
                             else Lookup(old(meshArcDeviceFailures), k)
    {
      ghost var before := View().devices;
      merged := statuses;
      var unvisited := statuses.Keys;
      while unvisited != {}
        invariant unvisited <= statuses.Keys && merged.Keys == statuses.Keys
        invariant forall k :: k in statuses && k !in unvisited ==> Some(merged[k]) == StatusAfter(before, statuses, k)
        invariant forall k :: Lookup(meshArcDeviceFailures, k)
                              == if k in statuses && k !in unvisited then FailuresAfter(before, statuses, k)
                                 else Lookup(before.failures, k)
        decreases |unvisited|
      {
        var k :| k in unvisited;
        unvisited := unvisited - {k};
        assert Lookup(meshArcDeviceFailures, k) == Lookup(before.failures, k);
        var published := MergeEntry(k, statuses[k], statuses);
        merged := merged[k := published];
      }
    }

    /** A sweep that ended with its context alive is published, or dropped if its backend has gone. */
    method PublishFinishedSweep(t: TaskId) returns (accepted: bool)
      requires Valid() && t in world.tasks && (world.tasks[t].SyncLoop? || world.tasks[t].Refresh?)
      requires world.tasks[t].sweep.Some?
      modifies this
      ensures Valid() && world == Apply(old(world), PublishSweep(t))
      ensures accepted <==> CurrentWithClient(old(View()), world.tasks[t].tag)
      ensures world.audit.accepted
              == if accepted then old(world).audit.accepted + [old(world).tasks[t].sweep.value]
                 else old(world).audit.accepted
    {
      accepted := UpdateMeshArcDeviceStatuses(world.tasks[t].tag, world.tasks[t].sweep.value);
      Advance(PublishSweep(t));
    }

    method HasPendingMeshArcDeviceFailure(tag: Tag) returns (pending: bool)
      ensures pending <==> CurrentWithClient(View(), tag) && PendingFailure(View().devices)
    {
      if server != Some(tag.server) || generation != tag.generation || client.None? {
        return false;
      }
      var unvisited := meshArcDeviceFailures.Keys;
      while unvisited != {}
        invariant unvisited <= meshArcDeviceFailures.Keys
        invariant forall k :: k in meshArcDeviceFailures && k !in unvisited ==> meshArcDeviceFailures[k] != 1
        decreases |unvisited|
      {
        var k :| k in unvisited;
        if meshArcDeviceFailures[k] == 1 {
          return true;
        }
        unvisited := unvisited - {k};
      }
      return false;
    }
  }
}
