/** `FallbackBodyRenderer` as an object (src/body/fallbackBodyRenderer.ts).

    `Mount`, `Render` and `Dispose` run to their first await; the `Continue` methods run a thread
    from one await to the next.  Each is specified by the step function of the same moment. */
module FallbackRendererObject {
  import opened Common
  import opened FallbackRenderer

  class FallbackBodyRenderer {
    var mode: Mode
    var host: Option<Element>
    var hasPendingMount: bool
    var lastMount: Option<bool>
    var primaryCleanupOwned: bool
    var fallbackCleanupOwned: bool
    var fallbackMounted: bool
    var disposedRenderers: set<Which>
    var mount: Thread
    var render: Thread
    var dispose: Thread
    var trace: seq<Event>

    function Model(): State
      reads this
    {
      State(mode, host, hasPendingMount, lastMount, primaryCleanupOwned, fallbackCleanupOwned, fallbackMounted,
            disposedRenderers, mount, render, dispose, trace)
    }

    constructor ()
      ensures Model() == Initial()
      ensures mode == Mode.Unmounted && host == None && !hasPendingMount && disposedRenderers == {} && trace == []
      ensures !primaryCleanupOwned && !fallbackCleanupOwned && !fallbackMounted
      ensures mount == Idle && render == Idle && dispose == Idle
    {
      mode, host, hasPendingMount, lastMount := Unmounted, None, false, None;
      primaryCleanupOwned, fallbackCleanupOwned, fallbackMounted := false, false, false;
      disposedRenderers, mount, render, dispose, trace := {}, Idle, Idle, Idle, [];
    }

    /** `disposePrimaryOnce` and `disposeFallbackOnce`, up to the await. */
    method DisposeOnce(w: Which) returns (op: Op)
      modifies this`primaryCleanupOwned, this`fallbackCleanupOwned, this`disposedRenderers, this`trace
      ensures Model() == Release(old(Model()), w) && op == ReleaseOp(old(Model()), w)
    {
      op := Back(true);
      if if w.ThePrimary? then primaryCleanupOwned else fallbackCleanupOwned {
        if w.ThePrimary? {
          primaryCleanupOwned := false;
        } else {
          fallbackCleanupOwned := false;
        }
        if w !in disposedRenderers {
          disposedRenderers := disposedRenderers + {w};
          trace := trace + [Invoked(w, DisposeKind)];
          op := Waiting;
        }
      }
    }

    method MountFallback()
      modifies this`fallbackCleanupOwned, this`trace
      ensures Model() == BeginFallbackMount(old(Model()))
    {
      fallbackCleanupOwned := true;
      trace := trace + [Invoked(TheFallback, MountKind)];
    }

    method TryRender(w: Which)
      modifies this`render, this`trace
      ensures Model() == BeginRender(old(Model()), w)
    {
      render := At(if w.ThePrimary? then RenderPrimary else RenderFallback, Waiting);
      trace := trace + [Invoked(w, RenderKind)];
    }

    method FinishRender(ok: bool)
      modifies this`render, this`trace
      ensures Model() == EndRender(old(Model()), ok)
    {
      render := Finished(ok);
      trace := trace + [RenderEnded(ok)];
    }

    method RenderWithFallback()
      modifies this`render, this`trace, this`fallbackCleanupOwned
      ensures Model() == FallbackRenderer.RenderWithFallback(old(Model()))
    {
      if host.None? {
        FinishRender(false);
      } else if !fallbackMounted {
        MountFallback();
        render := At(RenderMountFallback, Waiting);
      } else {
        TryRender(TheFallback);
      }
    }

    // ---- Entry points -----------------------------------------------------------------------

    method Mount(element: Element)
      modifies this`mode, this`host, this`hasPendingMount, this`mount,
               this`primaryCleanupOwned, this`fallbackCleanupOwned, this`disposedRenderers, this`trace
      ensures Model() == CallMount(old(Model()), element)
    {
      if !mode.Unmounted? {
        mount := Finished((mode.Primary? || mode.Fallback?) && host == Some(element));
        return;
      }
      mode, host, hasPendingMount := Mounting, Some(element), true;
      var op := DisposeOnce(ThePrimary);
      mount := At(PrepPrimary, op);
    }

    method Render()
      modifies this`render, this`trace, this`fallbackCleanupOwned
      ensures Model() == CallRender(old(Model()))
    {
      match mode
      case Disposed => FinishRender(false);
      case Unmounted => FinishRender(false);
      case Mounting =>
        if hasPendingMount {
          render := At(AwaitMount, Back(true));
        } else {
          FinishRender(false);
        }
      case Primary => TryRender(ThePrimary);
      case Fallback => RenderWithFallback();
    }

    method Dispose()
      modifies this`mode, this`host, this`fallbackMounted, this`dispose,
               this`primaryCleanupOwned, this`fallbackCleanupOwned, this`disposedRenderers, this`trace
      ensures Model() == CallDispose(old(Model()))
    {
      if mode.Disposed? {
        dispose := Finished(true);
        return;
      }
      mode, host, fallbackMounted := Disposed, None, false;
      if hasPendingMount {
        dispose := At(DisposeAwait, Back(true));
      } else {
        var op := DisposeOnce(ThePrimary);
        dispose := At(DisposePrimary, op);
      }
    }

    // ---- Continuations ------------------------------------------------------------------------

    method FinishMount(ok: bool)
      modifies this`mount, this`lastMount
      ensures Model() == EndMount(old(Model()), ok)
    {
      mount, lastMount := Finished(ok), Some(ok);
    }

    /** The rest of `prepareFreshLifetime`, and the primary's mount. */
    method ContinuePreparation()
      requires mount.At? && mount.op.Back? && (mount.pc.PrepPrimary? || mount.pc.PrepFallback? || mount.pc.Reset?)
      modifies this`mount, this`lastMount, this`fallbackMounted,
               this`primaryCleanupOwned, this`fallbackCleanupOwned, this`disposedRenderers, this`trace
      ensures Model() == ResumeMount(old(Model()))
    {
      if mount.pc.PrepPrimary? {
        var op := DisposeOnce(TheFallback);
        mount := At(PrepFallback, op);
      } else if mount.pc.PrepFallback? {
        mount := At(Reset, Back(true));
        if !mode.Disposed? {
          primaryCleanupOwned, fallbackCleanupOwned, fallbackMounted := false, false, false;
          disposedRenderers := {};
          trace := trace + [Lifetime];
        }
      } else if mode.Disposed? {
        FinishMount(true);
      } else {
        primaryCleanupOwned, mount := true, At(MountPrimary, Waiting);
        trace := trace + [Invoked(ThePrimary, MountKind)];
      }
    }

    /** After the primary's mount: keep it, or drop it and mount the fallback. */
    method ContinuePrimary()
      requires mount.At? && mount.op.Back? && (mount.pc.MountPrimary? || mount.pc.AbortPrimary? || mount.pc.DropPrimary?)
      modifies this`mount, this`lastMount, this`mode,
               this`primaryCleanupOwned, this`fallbackCleanupOwned, this`disposedRenderers, this`trace
      ensures Model() == ResumeMount(old(Model()))
    {
      if mount.pc.AbortPrimary? {
        FinishMount(true);
      } else if mount.pc.DropPrimary? {
        MountFallback();
        mode, mount := Fallback, At(FallbackRenderer.MountFallback, Waiting);
      } else if !mode.Disposed? && mount.op.ok {
        FinishMount(true);
        mode := Primary;
      } else {
        var op := DisposeOnce(ThePrimary);
        mount := At(if mode.Disposed? then AbortPrimary else DropPrimary, op);
      }
    }

    /** After the fallback's mount inside `mount`. */
    method ContinueFallback()
      requires mount.At? && mount.op.Back?
      requires mount.pc.MountFallback? || mount.pc.FallbackMounted? || mount.pc.AbortFallback? || mount.pc.FailMount?
      modifies this`mount, this`lastMount, this`mode, this`host, this`fallbackMounted,
               this`primaryCleanupOwned, this`fallbackCleanupOwned, this`disposedRenderers, this`trace
      ensures Model() == ResumeMount(old(Model()))
    {
      if mount.pc.MountFallback? {
        fallbackMounted, mount := mount.op.ok, At(FallbackMounted, mount.op);
      } else if mount.pc.AbortFallback? {
        FinishMount(true);
      } else if mount.pc.FailMount? {
        if !mode.Disposed? {
          mode, host := Unmounted, None;
        }
        FinishMount(false);
      } else if mode.Disposed? {
        var op := DisposeOnce(TheFallback);
        mount := At(AbortFallback, op);
      } else if mount.op.ok {
        FinishMount(true);
      } else {
        mode, host, mount := Unmounted, None, At(FailMount, Back(true));
      }
    }

    method ContinueRender()
      requires render.At? && render.op.Back?
      requires !render.pc.AwaitMount?
      modifies this`render, this`mode, this`fallbackMounted,
               this`primaryCleanupOwned, this`fallbackCleanupOwned, this`disposedRenderers, this`trace
      ensures Model() == ResumeRender(old(Model()))
    {
      match render.pc
      case RenderPrimary =>
        if render.op.ok {
          FinishRender(true);
        } else {
          var op := DisposeOnce(ThePrimary);
          render := At(FailoverDrop, op);
        }
      case FailoverDrop =>
        if mode.Disposed? || host.None? {
          FinishRender(false);
        } else {
          MountFallback();
          mode, render := Fallback, At(RenderMountFallback, Waiting);
        }
      case RenderMountFallback => fallbackMounted, render := render.op.ok, At(RenderFallbackMounted, render.op);
      case RenderFallbackMounted =>
        if !render.op.ok || mode.Disposed? {
          FinishRender(false);
        } else {
          TryRender(TheFallback);
        }
      case RenderFallback => FinishRender(render.op.ok);
      case _ =>
    }

    /** A render that arrived while mounting continues. */
    method ContinueAwaitingRender()
      requires render.At? && render.op.Back? && render.pc.AwaitMount?
      modifies this`render, this`fallbackCleanupOwned, this`trace
      ensures Model() == ResumeRender(old(Model()))
    {
      if lastMount == Some(true) && mode.Primary? {
        TryRender(ThePrimary);
      } else if lastMount == Some(true) && mode.Fallback? {
        RenderWithFallback();
      } else {
        FinishRender(false);
      }
    }

    method ContinueDispose()
      requires dispose.At? && dispose.op.Back?
      modifies this`dispose, this`primaryCleanupOwned, this`fallbackCleanupOwned, this`disposedRenderers, this`trace
      ensures Model() == ResumeDispose(old(Model()))
    {
      match dispose.pc
      case DisposeAwait =>
        var op := DisposeOnce(ThePrimary);
        dispose := At(DisposePrimary, op);
      case DisposePrimary =>
        var op := DisposeOnce(TheFallback);
        dispose := At(DisposeFallback, op);
      case DisposeFallback => dispose, trace := Finished(true), trace + [DisposeEnded];
      case _ =>
    }
  }
}
