/** `Live2DRenderer` as an object (src/body/live2dRenderer.ts): one method per stretch of code
    between two suspension points, each specified by the step function of the same moment. */
module Live2DObject {
  import opened Common
  import opened Live2D
  import opened Live2DProof

  class Live2DRenderer {
    var phase: Phase
    var host: Option<Element>
    var pendingMount: Option<nat>
    var pendingMountHost: Option<Element>
    var engine: Option<Engine>
    var engineDisposal: Option<Engine>
    var inFlight: set<Engine>
    var lifecycleGeneration: nat
    var mount: MountThread
    var disposal: DisposeThread
    var nextEngine: nat
    var trace: seq<Event>

    function Model(): State
      reads this
    {
      State(phase, host, pendingMount, pendingMountHost, engine, engineDisposal, inFlight, lifecycleGeneration,
            mount, disposal, nextEngine, trace)
    }

    ghost predicate Valid()
      reads this
    {
      Good(Model())
    }

    constructor ()
      ensures Valid() && Model() == Initial()
      ensures phase == Unmounted && host == None && pendingMount == None && engine == None && engineDisposal == None
      ensures lifecycleGeneration == 0 && mount == NoMount && disposal == NoDispose && trace == []
    {
      phase, host, pendingMount, pendingMountHost := Unmounted, None, None, None;
      engine, engineDisposal, inFlight, lifecycleGeneration := None, None, {}, 0;
      mount, disposal, nextEngine, trace := NoMount, NoDispose, 0, [];
      new;
      hide Good;
      AlwaysGood([]);
    }

    method Mount(element: Element, made: bool)
      modifies this`phase, this`pendingMount, this`pendingMountHost, this`engine, this`lifecycleGeneration,
               this`mount, this`nextEngine, this`trace
      ensures Model() == CallMount(old(Model()), element, made)
    {
      if !phase.Unmounted? {
        return;
      }
      lifecycleGeneration := lifecycleGeneration + 1;
      phase, pendingMountHost, pendingMount := Mounting, Some(element), Some(lifecycleGeneration);
      if made {
        engine, nextEngine := Some(nextEngine), nextEngine + 1;
        trace := trace + [Started(engine.value)];
        mount := AwaitEngine(lifecycleGeneration, element, None);
      } else {
        mount := AwaitFail(lifecycleGeneration, Nothing);
      }
    }

    method EngineReturned(ok: bool)
      requires mount.AwaitEngine? && engine.Some?
      modifies this`mount, this`trace
      ensures Model() == EngineReturns(old(Model()), ok)
    {
      mount := AwaitEngine(mount.generation, mount.host, Some(ok));
      trace := trace + [MountReturned(engine.value, ok)];
    }

    /** `disposeEngine` up to its await. */
    method DisposeEngine(throws: bool) returns (wait: Wait)
      modifies this`engine, this`engineDisposal, this`inFlight, this`trace
      ensures Model() == Live2D.DisposeEngine(old(Model()), throws) && wait == WaitFor(old(Model()), throws)
    {
      if engineDisposal.Some? {
        return Other(engineDisposal.value);
      }
      if engine.None? {
        return Nothing;
      }
      var e := engine.value;
      engine := None;
      if throws {
        trace := trace + [Dropped(e)];
        return Nothing;
      }
      engineDisposal, inFlight := Some(e), inFlight + {e};
      trace := trace + [DisposeCalled(e)];
      return Own(e);
    }

    method Forget(w: Wait)
      modifies this`engineDisposal
      ensures Model() == Released(old(Model()), w)
    {
      if w.Own? && engineDisposal == Some(w.engine) {
        engineDisposal := None;
      }
    }

    method ContinueMount(throws: bool)
      requires MountReady(Model())
      modifies this`phase, this`host, this`engine, this`engineDisposal, this`inFlight, this`mount, this`trace
      ensures Model() == Live2D.ContinueMount(old(Model()), throws)
    {
      match mount
      case AwaitEngine(g, element, back) =>
        if back.value && phase.Mounting? && lifecycleGeneration == g {
          host, phase, mount := Some(element), Mounted, NoMount;
        } else {
          var w := DisposeEngine(throws);
          mount := if back.value then AwaitAbort(g, w) else AwaitFail(g, w);
        }
      case AwaitAbort(_, w) =>
        Forget(w);
        mount := NoMount;
      case AwaitFail(g, w) =>
        Forget(w);
        mount := NoMount;
        if phase.Mounting? && lifecycleGeneration == g {
          phase, host := Unmounted, None;
        }
    }

    method Finally(generation: nat)
      modifies this`pendingMount, this`pendingMountHost
      ensures Model() == MountFinally(old(Model()), generation)
    {
      if pendingMount == Some(generation) {
        pendingMount, pendingMountHost := None, None;
      }
    }

    method Render()
      modifies this`trace
      ensures Model() == RenderNow(old(Model()))
    {
      if phase.Mounted? && engine.Some? {
        trace := trace + [RenderCalled(engine.value)];
      }
    }

    method Dispose(throws: bool)
      modifies this`phase, this`host, this`pendingMount, this`pendingMountHost, this`engine, this`engineDisposal,
               this`inFlight, this`lifecycleGeneration, this`disposal, this`trace
      ensures Model() == CallDispose(old(Model()), throws)
    {
      if phase.Disposed? {
        return;
      }
      if pendingMount.Some? {
        disposal := AwaitMount(pendingMount.value);
      } else {
        var w := DisposeEngine(throws);
        disposal := AwaitRelease(w);
      }
      phase, host, pendingMount, pendingMountHost := Disposed, None, None, None;
      lifecycleGeneration := lifecycleGeneration + 1;
    }

    method ContinueDispose(throws: bool)
      requires DisposeReady(Model())
      modifies this`engine, this`engineDisposal, this`inFlight, this`disposal, this`trace
      ensures Model() == Live2D.ContinueDispose(old(Model()), throws)
    {
      if disposal.AwaitMount? {
        var w := DisposeEngine(throws);
        disposal := AwaitRelease(w);
      } else {
        Forget(disposal.wait);
        disposal := DisposeOver;
      }
    }

    method DisposalReturned(e: Engine)
      modifies this`inFlight, this`trace
      ensures Model() == DisposalReturns(old(Model()), e)
    {
      inFlight, trace := inFlight - {e}, trace + [DisposeReturned(e)];
    }

    /** Any enabled moment of the event loop. */
    method Advance(l: Label)
      requires Valid() && Enabled(Model(), l)
      modifies this
      ensures Model() == Step(old(Model()), l) && Valid()
    {
      hide Good, CallMount, EngineReturns, Live2D.ContinueMount, MountFinally, RenderNow;
      hide CallDispose, Live2D.ContinueDispose, DisposalReturns;
      StepKeepsGood(Model(), l);
      match l
      case Mount(element, made) => Mount(element, made);
      case EngineReturn(ok) => EngineReturned(ok);
      case MountContinue(throws) => ContinueMount(throws);
      case Finally(g) => Finally(g);
      case Render => Render();
      case Dispose(throws) => Dispose(throws);
      case DisposeContinue(throws) => ContinueDispose(throws);
      case DisposalReturn(e) => DisposalReturned(e);
    }
  }
}
