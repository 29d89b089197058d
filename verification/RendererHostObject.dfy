/** `BodyRendererHost` as an object (src/body/bodyRenderer.ts).

    One method per stretch of code between two suspension points; each is specified by the step
    function of the same moment, and keeps the object in a state some run can reach. */
module RendererHostObject {
  import opened Common
  import opened RendererHost
  import opened RendererHostProof

  class BodyRendererHost {
    var phase: Phase
    var host: Option<Element>
    var pendingMount: Option<nat>
    var pendingMountHost: Option<Element>
    var inFlight: Option<InFlight>
    var outcomes: map<nat, bool>
    var waiters: map<Job, nat>
    var queue: seq<Job>
    var current: Option<Job>
    var pendingRenderCount: int
    var accepted: nat
    var settled: nat
    var disposal: Disposal
    var calls: nat
    var mounts: nat
    var trace: seq<Event>

    function Model(): State
      reads this
    {
      State(phase, host, pendingMount, pendingMountHost, inFlight, outcomes, waiters, queue, current,
            pendingRenderCount, accepted, settled, disposal, calls, mounts, trace)
    }

    ghost predicate Valid()
      reads this
    {
      Good(Model())
    }

    constructor ()
      ensures Valid() && Model() == Initial()
      ensures phase == Unmounted && host == None && pendingMount == None && pendingRenderCount == 0 && queue == []
      ensures inFlight == None && current == None && disposal == NotDisposing && trace == []
    {
      phase, host, pendingMount, pendingMountHost, inFlight := Unmounted, None, None, None, None;
      outcomes, waiters, queue, current := map[], map[], [], None;
      pendingRenderCount, accepted, settled := 0, 0, 0;
      disposal, calls, mounts, trace := NotDisposing, 0, 0, [];
      new;
      hide Good;
      assert Model() == Initial();
      hide *;
      InitiallyGood();
    }

    method CheckMount(element: Element) returns (verdict: MountVerdict)
      ensures verdict == MountOutcome(Model(), element)
    {
      if phase.Disposed? {
        return MountRefused;
      }
      if phase.Mounted? {
        return if host == Some(element) then AlreadyMounted else MountRefused;
      }
      if phase.Mounting? {
        if pendingMountHost == Some(element) && pendingMount.Some? {
          return Joins(pendingMount.value);
        }
        return MountRefused;
      }
      return Starts;
    }

    method Mount(element: Element) returns (verdict: MountVerdict)
      modifies this`phase, this`pendingMountHost, this`pendingMount, this`inFlight, this`mounts, this`trace
      ensures verdict == MountOutcome(old(Model()), element)
      ensures var n := CallMount(old(Model()), element);
              phase == n.phase && pendingMountHost == n.pendingMountHost && pendingMount == n.pendingMount
              && inFlight == n.inFlight && mounts == n.mounts && trace == n.trace
    {
      verdict := CheckMount(element);
      if verdict.Starts? {
        phase, pendingMountHost, pendingMount := Mounting, Some(element), Some(mounts);
        inFlight, mounts := Some(InFlight(mounts, element)), mounts + 1;
        trace := trace + [MountCalled(element)];
      }
    }

    /** The whole state after a mount call. */
    method RunMount(element: Element)
      modifies this
      ensures Model() == CallMount(old(Model()), element)
    {
      var verdict := Mount(element);
    }

    /** Publishes the mounted host, or rolls back for a retry. */
    method SettlePhase(element: Element, ok: bool)
      modifies this`phase, this`host, this`pendingMountHost, this`pendingMount
      ensures phase == if ok then Mounted else Unmounted
      ensures host == if ok then Some(element) else old(host)
      ensures pendingMount == if ok then old(pendingMount) else None
      ensures pendingMountHost == if ok then old(pendingMountHost) else None
    {
      if ok {
        host, phase := Some(element), Mounted;
      } else {
        pendingMount, pendingMountHost, phase := None, None, Unmounted;
      }
    }

    method MountSettled(ok: bool)
      requires inFlight.Some?
      modifies this`phase, this`host, this`pendingMountHost, this`pendingMount, this`inFlight, this`outcomes, this`trace
      ensures var n := MountSettles(old(Model()), ok);
              phase == n.phase && host == n.host && pendingMountHost == n.pendingMountHost && pendingMount == n.pendingMount
              && inFlight == n.inFlight && outcomes == n.outcomes && trace == n.trace
    {
      var mount := inFlight.value;
      inFlight, outcomes := None, outcomes[mount.mount := ok];
      if !phase.Disposed? {
        SettlePhase(mount.host, ok);
      }
      trace := trace + [MountDone(ok)];
    }

    /** The whole state after a mount has settled. */
    method RunMountSettled(ok: bool)
      requires inFlight.Some?
      modifies this
      ensures Model() == MountSettles(old(Model()), ok)
    {
      MountSettled(ok);
    }

    method EnqueueRender(job: Job)
      modifies this`queue, this`pendingRenderCount, this`accepted, this`trace
      ensures Model() == Enqueue(old(Model()), job, true)
    {
      pendingRenderCount := pendingRenderCount + 1;
      queue, accepted := queue + [job], accepted + 1;
      trace := trace + [Accepted(job)];
    }

    method Render()
      modifies this`queue, this`pendingRenderCount, this`accepted, this`trace, this`waiters, this`calls
      ensures Model() == CallRender(old(Model()))
    {
      var job := calls;
      calls := calls + 1;
      if phase.Mounting? && pendingMount.Some? {
        waiters := waiters[job := pendingMount.value];
      } else if phase.Mounted? {
        EnqueueRender(job);
      } else {
        trace := trace + [Rejected(job)];
      }
    }

    method WaiterResumed(job: Job)
      requires job in waiters && waiters[job] in outcomes
      modifies this`queue, this`pendingRenderCount, this`accepted, this`trace, this`waiters
      ensures Model() == WaiterResumes(old(Model()), job)
    {
      var mounted := outcomes[waiters[job]];
      waiters := waiters - {job};
      if mounted && phase.Mounted? {
        EnqueueRender(job);
      } else {
        trace := trace + [Rejected(job)];
      }
    }

    method JobStarted()
      requires current.None? && queue != []
      modifies this`queue, this`current, this`pendingRenderCount, this`settled, this`trace
      ensures Model() == JobStarts(old(Model()))
    {
      var job := queue[0];
      queue := queue[1..];
      if phase.Disposed? {
        trace := trace + [Dropped(job)];
        pendingRenderCount, settled := pendingRenderCount - 1, settled + 1;
      } else {
        current := Some(job);
        trace := trace + [RenderCalled(job)];
      }
    }

    method JobSettled(ok: bool)
      requires current.Some?
      modifies this`current, this`pendingRenderCount, this`settled, this`trace
      ensures Model() == JobSettles(old(Model()), ok)
    {
      trace := trace + [RenderDone(current.value, ok)];
      current, pendingRenderCount, settled := None, pendingRenderCount - 1, settled + 1;
    }

    method FinishDisposal()
      modifies this`disposal, this`trace
      ensures Model() == RendererHost.FinishDisposal(old(Model()))
    {
      if pendingRenderCount > 0 {
        disposal := AwaitingTail(accepted);
      } else {
        disposal, trace := Invoked, trace + [RendererHost.Event.DisposeCalled];
      }
    }

    method DisposeAndWait()
      modifies this`phase, this`host, this`pendingMount, this`pendingMountHost, this`disposal, this`trace
      ensures Model() == CallDispose(old(Model()))
    {
      if phase.Disposed? {
        return;
      }
      if phase.Mounting? && pendingMount.Some? {
        disposal := AwaitingMount(pendingMount.value);
        phase, host, pendingMount, pendingMountHost := Disposed, None, None, None;
        return;
      }
      phase, host := Disposed, None;
      FinishDisposal();
    }

    method DisposalResumed()
      requires DisposalReady(Model())
      modifies this`disposal, this`trace
      ensures Model() == DisposalResumes(old(Model()))
    {
      if disposal.AwaitingMount? {
        FinishDisposal();
      } else {
        disposal, trace := Invoked, trace + [RendererHost.Event.DisposeCalled];
      }
    }

    method DisposeSettled()
      modifies this`disposal, this`trace
      ensures Model() == DisposeSettles(old(Model()))
    {
      disposal, trace := Settled, trace + [DisposeDone];
    }

    /** Any enabled moment of the event loop. */
    method Advance(l: Label)
      requires Valid() && Enabled(Model(), l)
      modifies this
      ensures Model() == Step(old(Model()), l) && Valid()
    {
      hide Good, CallMount, MountSettles, CallRender, WaiterResumes, JobStarts, JobSettles;
      hide CallDispose, DisposalResumes, DisposeSettles;
      StepKeepsGood(Model(), l);
      match l
      case Mount(element) => RunMount(element);
      case MountSettle(ok) => RunMountSettled(ok);
      case Render => Render();
      case WaiterResume(job) => WaiterResumed(job);
      case JobStart => JobStarted();
      case JobSettle(ok) => JobSettled(ok);
      case Dispose => DisposeAndWait();
      case DisposalResume => DisposalResumed();
      case DisposeSettle => DisposeSettled();
    }
  }
}
