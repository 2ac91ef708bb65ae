/** What a stop, a sweep and a cancelled loop bring about in the end, in every interleaving. */
module LifecycleCompletions {
  import opened Wrappers
  import opened LocalSendDebouncer
  import opened Lifecycle
  import opened LifecycleProofs
  import opened LifecycleTheorems

  // ------------------------------------------------------------------ what a stop took

  lemma StartsStayCancelled(w: World, e: Event)
    ensures w.cancelledStarts <= Apply(w, e).cancelledStarts
  {
  }

  /** A stop or restart that has taken a start-up's cancel function still holds it or has called it. */
  predicate StartInHand(w: World, t: TaskId, s: ServerId) {
    s in w.cancelledStarts || (t in w.tasks && w.tasks[t].Teardown? && w.tasks[t].start == Some(s))
  }

  lemma CallKeepsStartInHand(w: World, e: Event, t: TaskId, s: ServerId)
    requires t < w.nextTask && StartInHand(w, t, s)
    ensures StartInHand(Apply(w, e), t, s)
  {
    StartsStayCancelled(w, e);
    if Subject(e) != Some(t) {
      OthersUntouched(w, e, t);
    }
  }

  lemma {:induction false} StartInHandUntilCancelled(w: World, events: seq<Event>, t: TaskId, s: ServerId)
    requires t < w.nextTask && StartInHand(w, t, s)
    ensures StartInHand(Run(w, events), t, s) && t < Run(w, events).nextTask
  {
    if events != [] {
      var before, e := events[..|events| - 1], events[|events| - 1];
      StartInHandUntilCancelled(w, before, t, s);
      CallKeepsStartInHand(Run(w, before), e, t, s);
      TasksAreNumbered(Run(w, before), e);
    }
  }

  lemma TasksAreNumbered(w: World, e: Event)
    ensures w.nextTask <= Apply(w, e).nextTask
  {
  }

  /** Whatever runs in between, a stop or restart that has got past its cancels has cancelled the start-up
      that it found under way. */
  lemma StopCancelsTheStart(before: seq<Event>, device: Option<DeviceId>, after: seq<Event>, s: ServerId)
    requires var w := Run(Initial, before);
             && w.ctl.cancelStart == Some(s)
             && var v := Run(DetachStep(w, device), after);
                w.nextTask in v.tasks ==> !v.tasks[w.nextTask].Teardown?
    ensures s in Run(DetachStep(Run(Initial, before), device), after).cancelledStarts
  {
    var w := Run(Initial, before);
    StartInHandUntilCancelled(DetachStep(w, device), after, w.nextTask, s);
  }

  /** The server was installed once and is not any more. */
  predicate Gone(w: World, s: ServerId) {
    s < w.nextServer && w.ctl.server != Some(s)
  }

  lemma StaysGone(w: World, e: Event, s: ServerId)
    requires Gone(w, s)
    ensures Gone(Apply(w, e), s)
  {
    ServerComesFresh(w, e);
    ServersAreNumbered(w, e);
  }

  lemma ServersAreNumbered(w: World, e: Event)
    ensures w.nextServer <= Apply(w, e).nextServer
  {
  }

  /** A server that a stop or restart took away is never installed again. */
  lemma {:induction false} StoppedServerIsGone(before: seq<Event>, device: Option<DeviceId>, after: seq<Event>,
                                               s: ServerId)
    requires Run(Initial, before).ctl.server == Some(s)
    ensures Gone(Run(DetachStep(Run(Initial, before), device), after), s)
  {
    ReachableInv(before);
    if after != [] {
      StoppedServerIsGone(before, device, after[..|after| - 1], s);
      StaysGone(Run(DetachStep(Run(Initial, before), device), after[..|after| - 1]), after[|after| - 1], s);
    }
  }

  // ------------------------------------------------------------------ generations

  /** The generation moves on by one, modulo 2^64, with every stop, restart and installed server, and with
      nothing else. */
  lemma GenerationCountsChanges(w: World, e: Event)
    ensures var v := Apply(w, e);
            v.ctl.generation ==
            if e.CallStop? || e.CallRestart? || v.nextServer > w.nextServer
            then (w.ctl.generation + 1) % 0x1_0000_0000_0000_0000 else w.ctl.generation
  {
  }

  // ------------------------------------------------------------------ sweeps and loops

  /** A finished sweep is accepted, and counts as one more, exactly when the backend it was made for is
      still installed and has its client; otherwise it leaves no trace. */
  lemma SweepsCountExactlyWhenCurrent(events: seq<Event>, t: TaskId, sample: Sample)
    requires var w := Run(Initial, events); HasSweep(w, t) && w.tasks[t].sweep == Some(sample)
    ensures var w := Run(Initial, events);
            var v, tag := Apply(w, PublishSweep(t)), w.tasks[t].tag;
            if w.ctl.server == Some(tag.server) && w.ctl.client.Some?
            then v.audit.accepted == w.audit.accepted + [sample] && v.ctl.devices == Accept(w.ctl.devices, sample)
            else v.audit.accepted == w.audit.accepted && v.ctl.devices == w.ctl.devices
  {
    ReachableInv(events);
    var w := Run(Initial, events);
    assert TaskOk(w.ctl, w.nextServer, w.tasks[t]);
  }

  /** A cancelled watcher or sync loop can always end, the loop after handing in a sweep it holds. */
  lemma CancelledLoopsEnd(w: World, t: TaskId)
    requires t in w.tasks && (w.tasks[t].Watcher? || w.tasks[t].SyncLoop?) && w.tasks[t].h in w.cancelled
    ensures if w.tasks[t].Watcher? then t !in Apply(w, WatcherExits(t)).tasks
            else if w.tasks[t].sweep.None? then t !in Apply(w, LoopExits(t)).tasks
            else t !in Apply(Apply(w, PublishSweep(t)), LoopExits(t)).tasks
  {
  }
}
