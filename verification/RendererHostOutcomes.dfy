/** What becomes of each call of the renderer host: what one stretch of code does to it, and that a
    render given while the host mounts or is mounted reaches the renderer. */
module RendererHostOutcomes {
  import opened Common
  import opened RendererHost
  import opened RendererHostProof

  // ---- One stretch of code -----------------------------------------------------------------------

  lemma {:induction false} MayStepExactly(s: State, l: Label)
    ensures Enabled(s, l) <==>
              match l
              case MountSettle(_) => s.inFlight.Some?
              case WaiterResume(job) => job in s.waiters && s.waiters[job] in s.outcomes
              case JobStart => s.current == None && |s.queue| > 0
              case JobSettle(_) => s.current.Some?
              case DisposalResume =>
                || (s.disposal.AwaitingMount? && s.disposal.mount in s.outcomes)
                || (s.disposal.AwaitingTail? && s.disposal.upTo <= s.settled)
              case DisposeSettle => s.disposal == Invoked
              case _ => true
  {
  }

  /** The answer to a mount call: a host mounts once, on one element. */
  lemma MountAnswers(s: State, host: Element)
    ensures MountOutcome(s, host) ==
              match s.phase
              case Unmounted => Starts
              case Mounting => if s.pendingMountHost == Some(host) && s.pendingMount.Some? then Joins(s.pendingMount.value) else MountRefused
              case Mounted => if s.host == Some(host) then AlreadyMounted else MountRefused
              case Disposed => MountRefused
  {
  }

  lemma {:induction false} MountEffect(s: State, host: Element)
    ensures var t := Step(s, Mount(host));
            t == if s.phase == Unmounted
                 then s.(phase := Mounting, pendingMountHost := Some(host), pendingMount := Some(s.mounts),
                         inFlight := Some(InFlight(s.mounts, host)), mounts := s.mounts + 1, trace := s.trace + [MountCalled(host)])
                 else s
  {
  }

  /** A mount that settles publishes its element or leaves the host unmounted, unless it was disposed. */
  lemma {:induction false} MountSettleEffect(s: State, ok: bool)
    requires s.inFlight.Some?
    ensures var t := Step(s, MountSettle(ok));
            var m := s.inFlight.value;
            var back := s.(inFlight := None, outcomes := s.outcomes[m.mount := ok], trace := s.trace + [MountDone(ok)]);
            t == if s.phase == Disposed then back
                 else if ok then back.(host := Some(m.host), phase := Mounted)
                 else back.(phase := Unmounted, pendingMount := None, pendingMountHost := None)
  {
  }

  function Queued(s: State, job: Job): State
  {
    s.(queue := s.queue + [job], pendingRenderCount := s.pendingRenderCount + 1, accepted := s.accepted + 1, trace := s.trace + [Accepted(job)])
  }

  lemma {:induction false} RenderEffect(s: State)
    ensures var t := Step(s, Render);
            var u := s.(calls := s.calls + 1);
            t == if s.phase == Mounted then Queued(u, s.calls)
                 else if s.phase == Mounting && s.pendingMount.Some? then u.(waiters := s.waiters[s.calls := s.pendingMount.value])
                 else u.(trace := s.trace + [Rejected(s.calls)])
  {
  }

  lemma {:induction false} WaiterEffect(s: State, job: Job)
    requires job in s.waiters && s.waiters[job] in s.outcomes
    ensures var t := Step(s, WaiterResume(job));
            var u := s.(waiters := s.waiters - {job});
            t == if s.outcomes[s.waiters[job]] && s.phase == Mounted then Queued(u, job) else u.(trace := s.trace + [Rejected(job)])
  {
  }

  lemma {:induction false} JobEffect(s: State)
    requires s.current == None && |s.queue| > 0
    ensures var t := Step(s, JobStart);
            t == if s.phase == Disposed
                 then s.(queue := s.queue[1..], pendingRenderCount := s.pendingRenderCount - 1, settled := s.settled + 1,
                         trace := s.trace + [Dropped(s.queue[0])])
                 else s.(queue := s.queue[1..], current := Some(s.queue[0]), trace := s.trace + [RenderCalled(s.queue[0])])
  {
  }

  lemma {:induction false} JobSettleEffect(s: State, ok: bool)
    requires s.current.Some?
    ensures Step(s, JobSettle(ok))
            == s.(current := None, pendingRenderCount := s.pendingRenderCount - 1, settled := s.settled + 1,
                  trace := s.trace + [RenderDone(s.current.value, ok)])
  {
  }

  /** The renderer is disposed at once when nothing is queued or under way, else after the tail. */
  function Finishing(s: State): State
  {
    if s.pendingRenderCount > 0 then s.(disposal := AwaitingTail(s.accepted))
    else s.(disposal := Invoked, trace := s.trace + [DisposeCalled])
  }

  lemma {:induction false} DisposeEffect(s: State)
    ensures var t := Step(s, Dispose);
            var over := s.(phase := Disposed, host := None);
            t == if s.phase == Disposed then s
                 else if s.phase == Mounting && s.pendingMount.Some?
                 then over.(disposal := AwaitingMount(s.pendingMount.value), pendingMount := None, pendingMountHost := None)
                 else Finishing(over)
  {
  }

  lemma {:induction false} DisposalEffect(s: State, l: Label)
    requires Enabled(s, l) && (l.DisposalResume? || l.DisposeSettle?)
    ensures var t := Step(s, l);
            if l.DisposeSettle? then t == s.(disposal := Settled, trace := s.trace + [DisposeDone])
            else if s.disposal.AwaitingMount? then t == Finishing(s)
            else t == s.(disposal := Invoked, trace := s.trace + [DisposeCalled])
  {
  }

  // ---- A render call ------------------------------------------------------------------------------

  function After(s: State, labels: seq<Label>): State
  {
    if labels == [] then s
    else
      var u := After(s, labels[..|labels| - 1]);
      var l := labels[|labels| - 1];
      if Enabled(u, l) then Step(u, l) else u
  }

  lemma {:induction false} RunThenAfter(first: seq<Label>, more: seq<Label>)
    ensures Run(first + more) == After(Run(first), more)
  {
    if more == [] {
      assert first + more == first;
    } else {
      var n := |more| - 1;
      RunThenAfter(first, more[..n]);
      assert (first + more)[..|first + more| - 1] == first + more[..n];
    }
  }

  /** A successful mount leaves the host mounted until it is disposed. */
  predicate SuccessHolds(s: State) {
    forall m :: m in s.outcomes && s.outcomes[m] ==> s.phase.Mounted? || s.phase.Disposed?
  }

  lemma {:induction false} StepHoldsSuccess(s: State, l: Label)
    requires Phases(s) && SuccessHolds(s) && Enabled(s, l)
    ensures SuccessHolds(Step(s, l))
    ensures forall m :: m in s.outcomes ==> m in Step(s, l).outcomes && Step(s, l).outcomes[m] == s.outcomes[m]
    ensures s.phase.Disposed? ==> Step(s, l).phase.Disposed?
    ensures forall e :: e in s.trace ==> e in Step(s, l).trace
  {
  }

  lemma {:induction false} AlwaysHoldsSuccess(labels: seq<Label>)
    ensures SuccessHolds(Run(labels)) && Phases(Run(labels))
  {
    hide Phases, Observed, JobsOf, Step, Enabled;
    AlwaysGood(labels);
    if labels == [] {
      NothingSucceeded();
    } else {
      var s := Run(labels[..|labels| - 1]);
      AlwaysGood(labels[..|labels| - 1]);
      AlwaysHoldsSuccess(labels[..|labels| - 1]);
      if Enabled(s, labels[|labels| - 1]) {
        StepHoldsSuccess(s, labels[|labels| - 1]);
      }
    }
  }

  lemma NothingSucceeded()
    ensures SuccessHolds(Initial())
  {
  }

  /** A call waits for its mount, was accepted, or was refused because the mount failed or the host
      was disposed. */
  predicate Accounted(s: State, job: Job, mount: nat) {
    || (job in s.waiters && s.waiters[job] == mount)
    || Accepted(job) in s.trace
    || s.phase.Disposed?
    || (mount in s.outcomes && !s.outcomes[mount])
  }

  lemma {:induction false} StepAccounts(s: State, l: Label, job: Job, mount: nat)
    requires Phases(s) && SuccessHolds(s) && Accounted(s, job, mount) && Enabled(s, l) && job < s.calls
    ensures Accounted(Step(s, l), job, mount) && job < Step(s, l).calls
  {
    StepHoldsSuccess(s, l);
    if l.WaiterResume? && l.job == job {
      WaiterEffect(s, job);
    }
  }

  lemma {:induction false} StaysAccounted(first: seq<Label>, more: seq<Label>, job: Job, mount: nat)
    requires Accounted(Run(first), job, mount) && job < Run(first).calls
    ensures Accounted(After(Run(first), more), job, mount) && job < After(Run(first), more).calls
  {
    hide Phases, SuccessHolds, Step, Enabled, Accounted, Run;
    if more != [] {
      var n := |more| - 1;
      StaysAccounted(first, more[..n], job, mount);
      RunThenAfter(first, more[..n]);
      AlwaysHoldsSuccess(first + more[..n]);
      if Enabled(After(Run(first), more[..n]), more[n]) {
        StepAccounts(After(Run(first), more[..n]), more[n], job, mount);
      }
    }
  }

  lemma {:induction false} JobOfEvent(trace: seq<Event>, kind: Kind, job: Job)
    ensures job in JobsOf(trace, kind) <==> exists i :: 0 <= i < |trace| && Picks(kind, trace[i]) && trace[i].job == job
  {
    if trace != [] {
      var before, e := trace[..|trace| - 1], trace[|trace| - 1];
      JobOfEvent(before, kind, job);
      assert forall i :: 0 <= i < |before| ==> before[i] == trace[i];
      if Picks(kind, e) && e.job == job {
        assert trace[|trace| - 1] == e;
      }
    }
  }

  /** Nothing is waiting, queued or under way. */
  predicate AtRest(s: State) {
    s.waiters == map[] && s.queue == [] && s.current == None
  }

  /** Of an undisposed host at rest: what was accepted was delivered, and came back. */
  lemma {:induction false} AcceptedIsDelivered(s: State, job: Job)
    requires Good(s) && AtRest(s) && !s.phase.Disposed? && Accepted(job) in s.trace
    ensures RenderCalled(job) in s.trace && exists ok :: RenderDone(job, ok) in s.trace
  {
    hide Observed, JobsOf;
    var i :| 0 <= i < |s.trace| && s.trace[i] == Accepted(job);
    JobOfEvent(s.trace, AcceptedJobs, job);
    assert Picks(AcceptedJobs, s.trace[i]);
    JobOfEvent(s.trace, SettledJobs, job);
    JobOfEvent(s.trace, DeliveredJobs, job);
    JobOfEvent(s.trace, DroppedJobs, job);
    var a, d, e, x := JobsOf(s.trace, AcceptedJobs), JobsOf(s.trace, SettledJobs), JobsOf(s.trace, DeliveredJobs), JobsOf(s.trace, DroppedJobs);
    assert InOrder(a, d, e, x, s.current, s.queue, s.phase.Disposed?);
    assert a == d && e == d && x == [];
    var k :| 0 <= k < |s.trace| && Picks(SettledJobs, s.trace[k]) && s.trace[k].job == job;
    var n :| 0 <= n < |s.trace| && Picks(DeliveredJobs, s.trace[n]) && s.trace[n].job == job;
    assert s.trace[n] == RenderCalled(job);
    assert Picks(DroppedJobs, s.trace[k]) ==> job in x;
    assert s.trace[k].RenderDone? ==> s.trace[k] == RenderDone(job, s.trace[k].ok);
  }

  /** Main result: a render called while the host is mounted, or while it mounts and that mount then
      succeeds, is delivered to the renderer and comes back, in every run that ends at rest with the
      host undisposed. */
  lemma {:induction false} RenderIsDelivered(first: seq<Label>, more: seq<Label>)
    requires var s := Run(first);
             || s.phase == Mounted
             || (s.phase == Mounting && s.pendingMount.Some?
                 && var t := Run(first + [Render] + more); s.pendingMount.value in t.outcomes && t.outcomes[s.pendingMount.value])
    requires var t := Run(first + [Render] + more); AtRest(t) && t.phase != Disposed
    ensures var job, t := Run(first).calls, Run(first + [Render] + more);
            RenderCalled(job) in t.trace && exists ok :: RenderDone(job, ok) in t.trace
  {
    hide Step, Enabled, Run, Phases, Observed, JobsOf;
    var s := Run(first);
    var job := s.calls;
    var mount := if s.phase == Mounted then s.mounts else s.pendingMount.value;
    var t := Run(first + [Render] + more);
    RunsOnce(first, Render);
    MayStepExactly(s, Render);
    RenderEffect(s);
    RunThenAfter(first + [Render], more);
    StaysAccounted(first + [Render], more, job, mount);
    AlwaysGood(first + [Render] + more);
    if s.phase == Mounted {
      AcceptedStays(first + [Render], more, job);
    }
    AcceptedIsDelivered(t, job);
  }

  lemma RunsOnce(first: seq<Label>, l: Label)
    ensures Run(first + [l]) == if Enabled(Run(first), l) then Step(Run(first), l) else Run(first)
  {
    assert (first + [l])[..|first|] == first;
  }

  lemma {:induction false} AcceptedStays(first: seq<Label>, more: seq<Label>, job: Job)
    requires Accepted(job) in Run(first).trace
    ensures Accepted(job) in After(Run(first), more).trace
  {
    hide Phases, SuccessHolds, Step, Enabled, Run;
    if more != [] {
      var n := |more| - 1;
      AcceptedStays(first, more[..n], job);
      RunThenAfter(first, more[..n]);
      AlwaysHoldsSuccess(first + more[..n]);
      if Enabled(After(Run(first), more[..n]), more[n]) {
        StepHoldsSuccess(After(Run(first), more[..n]), more[n]);
      }
    }
  }
}
