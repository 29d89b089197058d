/** What each stretch of the firewall's code does between two awaits, spelled out, whichever other
    calls are under way. */
module FallbackEffects {
  import opened Common
  import opened FallbackRenderer

  /** Whether giving the renderer up calls its dispose: it is owned and was not disposed yet. */
  predicate Calls(s: State, w: Which) {
    w !in s.disposedRenderers && match w case ThePrimary => s.primaryCleanupOwned case TheFallback => s.fallbackCleanupOwned
  }

  /** The thread goes on at once, or once that dispose has settled. */
  function Then(s: State, w: Which, pc: Pc): Thread
  {
    if Calls(s, w) then At(pc, Waiting) else At(pc, Back(true))
  }

  /** The renderer is given up. */
  function GivenUp(s: State, w: Which): State
  {
    s.(primaryCleanupOwned := w == TheFallback && s.primaryCleanupOwned,
       fallbackCleanupOwned := w == ThePrimary && s.fallbackCleanupOwned,
       disposedRenderers := if Calls(s, w) then s.disposedRenderers + {w} else s.disposedRenderers,
       trace := if Calls(s, w) then s.trace + [Invoked(w, DisposeKind)] else s.trace)
  }

  lemma GivingUp(s: State, w: Which, pc: Pc)
    ensures Release(s, w) == GivenUp(s, w) && At(pc, ReleaseOp(s, w)) == Then(s, w, pc)
  {
  }

  function Called(s: State, w: Which, kind: Kind): seq<Event>
  {
    s.trace + [Invoked(w, kind)]
  }

  /** One call of each kind at a time; a thread goes on once its operation is back, and one that waits
      for the mount once no mount is under way. */
  lemma {:induction false} MayStepExactly(s: State, l: Label)
    ensures Enabled(s, l) <==>
              match l
              case Mount(_) => s.mount == Idle
              case Render => s.render == Idle
              case Dispose => s.dispose == Idle
              case Settles(e, _) => ThreadAt(s, e).At? && ThreadAt(s, e).op == Waiting
              case Resumes(e) =>
                && ThreadAt(s, e).At? && ThreadAt(s, e).op.Back?
                && (ThreadAt(s, e).pc.AwaitMount? || ThreadAt(s, e).pc.DisposeAwait? ==> !s.mount.At?)
              case Takes(e) => ThreadAt(s, e).Finished?
  {
  }

  /** A mount call starts from rest only; a mounted firewall accepts its own element and no other. */
  lemma {:induction false} MountCall(s: State, host: Element)
    requires s.mount == Idle
    ensures var t := Step(s, Mount(host));
            if s.mode == Mode.Unmounted then
              t == GivenUp(s, ThePrimary).(mode := Mounting, host := Some(host), hasPendingMount := true, mount := Then(s, ThePrimary, PrepPrimary))
            else t == s.(mount := Finished((s.mode == Mode.Primary || s.mode == Mode.Fallback) && s.host == Some(host)))
  {
    GivingUp(s, ThePrimary, PrepPrimary);
  }

  lemma {:induction false} RenderCall(s: State)
    requires s.render == Idle
    ensures var t := Step(s, Render);
            match s.mode
            case Primary => t == s.(render := At(RenderPrimary, Waiting), trace := Called(s, ThePrimary, RenderKind))
            case Fallback => t == FallbackRendered(s)
            case Mounting =>
              t == if s.hasPendingMount then s.(render := At(AwaitMount, Back(true)))
                   else s.(render := Finished(false), trace := s.trace + [RenderEnded(false)])
            case _ => t == s.(render := Finished(false), trace := s.trace + [RenderEnded(false)])
  {
  }

  /** A render on the fallback mounts it first if need be. */
  function FallbackRendered(s: State): State
  {
    if s.host == None then s.(render := Finished(false), trace := s.trace + [RenderEnded(false)])
    else if s.fallbackMounted then s.(render := At(RenderFallback, Waiting), trace := Called(s, TheFallback, RenderKind))
    else s.(fallbackCleanupOwned := true, render := At(RenderMountFallback, Waiting), trace := Called(s, TheFallback, MountKind))
  }

  lemma {:induction false} DisposeCall(s: State)
    requires s.dispose == Idle
    ensures var t := Step(s, Dispose);
            var over := s.(mode := Mode.Disposed, host := None, fallbackMounted := false);
            if s.mode == Mode.Disposed then t == s.(dispose := Finished(true))
            else if s.hasPendingMount then t == over.(dispose := At(DisposeAwait, Back(true)))
            else t == GivenUp(over, ThePrimary).(dispose := Then(s, ThePrimary, DisposePrimary))
  {
    GivingUp(s, ThePrimary, DisposePrimary);
  }

  /** Where a mount stands, and what it does next. */
  lemma {:induction false} MountGoesOn(s: State)
    requires s.mount.At? && s.mount.op.Back? && !s.mount.pc.AwaitMount? && !s.mount.pc.DisposeAwait?
    ensures var t := Step(s, Resumes(TheMount));
            var disposed, ok := s.mode == Mode.Disposed, s.mount.op.ok;
            match s.mount.pc
            case PrepPrimary => t == GivenUp(s, TheFallback).(mount := Then(s, TheFallback, PrepFallback))
            case PrepFallback =>
              t == if disposed then s.(mount := At(Reset, Back(true)))
                   else s.(primaryCleanupOwned := false, fallbackCleanupOwned := false, fallbackMounted := false,
                           disposedRenderers := {}, mount := At(Reset, Back(true)), trace := s.trace + [Lifetime])
            case Reset =>
              t == if disposed then s.(mount := Finished(true), lastMount := Some(true))
                   else s.(primaryCleanupOwned := true, mount := At(MountPrimary, Waiting), trace := Called(s, ThePrimary, MountKind))
            case MountPrimary =>
              if disposed then t == GivenUp(s, ThePrimary).(mount := Then(s, ThePrimary, AbortPrimary))
              else if ok then t == s.(mode := Mode.Primary, mount := Finished(true), lastMount := Some(true))
              else t == GivenUp(s, ThePrimary).(mount := Then(s, ThePrimary, DropPrimary))
            case DropPrimary =>
              t == s.(mode := Mode.Fallback, fallbackCleanupOwned := true, mount := At(MountFallback, Waiting),
                      trace := Called(s, TheFallback, MountKind))
            case MountFallback => t == s.(fallbackMounted := ok, mount := At(FallbackMounted, Back(ok)))
            case FallbackMounted =>
              if disposed then t == GivenUp(s, TheFallback).(mount := Then(s, TheFallback, AbortFallback))
              else if ok then t == s.(mount := Finished(true), lastMount := Some(true))
              else t == s.(mode := Mode.Unmounted, host := None, mount := At(FailMount, Back(true)))
            case AbortPrimary => t == s.(mount := Finished(true), lastMount := Some(true))
            case AbortFallback => t == s.(mount := Finished(true), lastMount := Some(true))
            case FailMount =>
              t == s.(mount := Finished(false), lastMount := Some(false), mode := if disposed then s.mode else Mode.Unmounted,
                      host := if disposed then s.host else None)
            case _ => true
  {
    hide Release, ReleaseOp, GivenUp, Then;
    match s.mount.pc
    case PrepPrimary => GivingUp(s, TheFallback, PrepFallback);
    case MountPrimary => GivingUp(s, ThePrimary, AbortPrimary); GivingUp(s, ThePrimary, DropPrimary);
    case FallbackMounted => GivingUp(s, TheFallback, AbortFallback);
    case _ =>
  }

  /** Where a render stands, and what it does next. */
  lemma {:induction false} RenderGoesOn(s: State)
    requires s.render.At? && s.render.op.Back? && (s.render.pc.AwaitMount? || s.render.pc.DisposeAwait? ==> !s.mount.At?)
    ensures var t := Step(s, Resumes(TheRender));
            var disposed, ok := s.mode == Mode.Disposed, s.render.op.ok;
            var failed := s.(render := Finished(false), trace := s.trace + [RenderEnded(false)]);
            match s.render.pc
            case AwaitMount =>
              if s.lastMount == Some(true) && s.mode == Mode.Primary then t == s.(render := At(RenderPrimary, Waiting), trace := Called(s, ThePrimary, RenderKind))
              else if s.lastMount == Some(true) && s.mode == Mode.Fallback then t == FallbackRendered(s)
              else t == failed
            case RenderPrimary =>
              t == if ok then s.(render := Finished(true), trace := s.trace + [RenderEnded(true)])
                   else GivenUp(s, ThePrimary).(render := Then(s, ThePrimary, FailoverDrop))
            case FailoverDrop =>
              t == if disposed || s.host == None then failed
                   else s.(mode := Mode.Fallback, fallbackCleanupOwned := true, render := At(RenderMountFallback, Waiting),
                           trace := Called(s, TheFallback, MountKind))
            case RenderMountFallback => t == s.(fallbackMounted := ok, render := At(RenderFallbackMounted, Back(ok)))
            case RenderFallbackMounted =>
              t == if ok && !disposed then s.(render := At(RenderFallback, Waiting), trace := Called(s, TheFallback, RenderKind)) else failed
            case RenderFallback => t == s.(render := Finished(ok), trace := s.trace + [RenderEnded(ok)])
            case _ => true
  {
    hide Release, ReleaseOp, GivenUp, Then;
    GivingUp(s, ThePrimary, FailoverDrop);
  }

  /** Where a disposal stands, and what it does next. */
  lemma {:induction false} DisposeGoesOn(s: State)
    requires s.dispose.At? && s.dispose.op.Back? && (s.dispose.pc.AwaitMount? || s.dispose.pc.DisposeAwait? ==> !s.mount.At?)
    ensures var t := Step(s, Resumes(TheDispose));
            match s.dispose.pc
            case DisposeAwait => t == GivenUp(s, ThePrimary).(dispose := Then(s, ThePrimary, DisposePrimary))
            case DisposePrimary => t == GivenUp(s, TheFallback).(dispose := Then(s, TheFallback, DisposeFallback))
            case DisposeFallback => t == s.(dispose := Finished(true), trace := s.trace + [DisposeEnded])
            case _ => true
  {
    hide Release, ReleaseOp, GivenUp, Then;
    GivingUp(s, ThePrimary, DisposePrimary);
    GivingUp(s, TheFallback, DisposeFallback);
  }

  /** What a thread was waiting for comes back, and nothing else changes. */
  lemma {:induction false} OperationReturns(s: State, e: Entry, ok: bool)
    requires ThreadAt(s, e).At? && ThreadAt(s, e).op == Waiting
    ensures var t := Step(s, Settles(e, ok));
            var pc := ThreadAt(s, e).pc;
            && ThreadAt(t, e) == At(pc, Back(ok)) && t == WithThread(s, e, ThreadAt(t, e)).(trace := t.trace)
            && t.trace == s.trace + [match pc
                                     case MountPrimary => Returned(ThePrimary, MountKind, ok)
                                     case MountFallback => Returned(TheFallback, MountKind, ok)
                                     case RenderMountFallback => Returned(TheFallback, MountKind, ok)
                                     case RenderPrimary => Returned(ThePrimary, RenderKind, ok)
                                     case RenderFallback => Returned(TheFallback, RenderKind, ok)
                                     case PrepFallback => Returned(TheFallback, DisposeKind, ok)
                                     case AbortFallback => Returned(TheFallback, DisposeKind, ok)
                                     case DisposeFallback => Returned(TheFallback, DisposeKind, ok)
                                     case _ => Returned(ThePrimary, DisposeKind, ok)]
  {
  }

  function ThreadAt(s: State, e: Entry): Thread
  {
    match e case TheMount => s.mount case TheRender => s.render case TheDispose => s.dispose
  }

  function WithThread(s: State, e: Entry, t: Thread): State
  {
    match e case TheMount => s.(mount := t) case TheRender => s.(render := t) case TheDispose => s.(dispose := t)
  }

  lemma {:induction false} CallerTakes(s: State, e: Entry)
    requires ThreadAt(s, e).Finished?
    ensures Step(s, Takes(e)) == WithThread(s, e, Idle)
  {
  }
}
