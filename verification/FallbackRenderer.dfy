/** The presentation firewall around two renderers (src/body/fallbackBodyRenderer.ts).

    Every `await` is a place where a thread of control can stand: it waits for an operation of an
    inner renderer, and later continues from its result.  The inner renderers are free to succeed
    or fail.  The three entry points run as one thread each; nothing here makes them exclude one
    another, that is the business of the renderer host. */
module FallbackRenderer {
  import opened Common

  type Element = nat

  datatype Mode = Unmounted | Mounting | Primary | Fallback | Disposed

  datatype Which = ThePrimary | TheFallback
  datatype Kind = MountKind | RenderKind | DisposeKind

  datatype Event =
    | Lifetime
    | Invoked(which: Which, kind: Kind)
    | Returned(which: Which, kind: Kind, ok: bool)
    | RenderEnded(ok: bool)
    | DisposeEnded

  /** Where a thread stands, named after what it awaits. */
  datatype Pc =
    // mount
    | PrepPrimary | PrepFallback | Reset | MountPrimary | AbortPrimary | DropPrimary
    | MountFallback | FallbackMounted | AbortFallback | FailMount
    // render
    | AwaitMount | RenderPrimary | FailoverDrop | RenderMountFallback | RenderFallbackMounted | RenderFallback
    // dispose
    | DisposeAwait | DisposePrimary | DisposeFallback

  /** The awaited operation is in flight, or is back with its result. */
  datatype Op = Waiting | Back(ok: bool)

  datatype Thread = Idle | At(pc: Pc, op: Op) | Finished(ok: bool)

  datatype State = State(
    mode: Mode,
    host: Option<Element>,
    hasPendingMount: bool,
    lastMount: Option<bool>,
    primaryCleanupOwned: bool,
    fallbackCleanupOwned: bool,
    fallbackMounted: bool,
    disposedRenderers: set<Which>,
    mount: Thread,
    render: Thread,
    dispose: Thread,
    trace: seq<Event>)

  function Initial(): State
  {
    State(Unmounted, None, false, None, false, false, false, {}, Idle, Idle, Idle, [])
  }

  // ---- Shared pieces ------------------------------------------------------------------------

  /** Whether `disposePrimaryOnce` or `disposeFallbackOnce` reaches its renderer now. */
  predicate Releases(s: State, w: Which) {
    (if w.ThePrimary? then s.primaryCleanupOwned else s.fallbackCleanupOwned) && w !in s.disposedRenderers
  }

  function ReleaseOp(s: State, w: Which): Op
  {
    if Releases(s, w) then Waiting else Back(true)
  }

  function Release(s: State, w: Which): State
  {
    s.(primaryCleanupOwned := s.primaryCleanupOwned && !w.ThePrimary?,
       fallbackCleanupOwned := s.fallbackCleanupOwned && !w.TheFallback?,
       disposedRenderers := if Releases(s, w) then s.disposedRenderers + {w} else s.disposedRenderers,
       trace := if Releases(s, w) then s.trace + [Invoked(w, DisposeKind)] else s.trace)
  }

  /** `mountFallback` up to its await; ownership starts before the call. */
  function BeginFallbackMount(s: State): State
  {
    s.(fallbackCleanupOwned := true, trace := s.trace + [Invoked(TheFallback, MountKind)])
  }

  function BeginRender(s: State, w: Which): State
  {
    s.(render := At(if w.ThePrimary? then RenderPrimary else RenderFallback, Waiting),
       trace := s.trace + [Invoked(w, RenderKind)])
  }

  function EndRender(s: State, ok: bool): State
  {
    s.(render := Finished(ok), trace := s.trace + [RenderEnded(ok)])
  }

  /** `renderWithFallback` up to its first await. */
  function RenderWithFallback(s: State): State
  {
    if s.host.None? then EndRender(s, false)
    else if !s.fallbackMounted then BeginFallbackMount(s).(render := At(RenderMountFallback, Waiting))
    else BeginRender(s, TheFallback)
  }

  // ---- Entry points -------------------------------------------------------------------------

  function CallMount(s: State, host: Element): State
  {
    if s.mode.Unmounted? then
      Release(s, ThePrimary).(mode := Mounting, host := Some(host), hasPendingMount := true,
                              mount := At(PrepPrimary, ReleaseOp(s, ThePrimary)))
    else
      s.(mount := Finished((s.mode.Primary? || s.mode.Fallback?) && s.host == Some(host)))
  }

  function CallRender(s: State): State
  {
    match s.mode
    case Disposed => EndRender(s, false)
    case Unmounted => EndRender(s, false)
    case Mounting => if s.hasPendingMount then s.(render := At(AwaitMount, Back(true))) else EndRender(s, false)
    case Primary => BeginRender(s, ThePrimary)
    case Fallback => RenderWithFallback(s)
  }

  function CallDispose(s: State): State
  {
    if s.mode.Disposed? then s.(dispose := Finished(true))
    else if s.hasPendingMount then
      s.(mode := Disposed, host := None, fallbackMounted := false, dispose := At(DisposeAwait, Back(true)))
    else
      Release(s, ThePrimary).(mode := Disposed, host := None, fallbackMounted := false,
                              dispose := At(DisposePrimary, ReleaseOp(s, ThePrimary)))
  }

  // ---- Continuations ------------------------------------------------------------------------

  function EndMount(s: State, ok: bool): State
  {
    s.(mount := Finished(ok), lastMount := Some(ok))
  }

  function ResumeMount(s: State): State
    requires s.mount.At? && s.mount.op.Back?
  {
    match s.mount.pc
    case PrepPrimary => Release(s, TheFallback).(mount := At(PrepFallback, ReleaseOp(s, TheFallback)))
    case PrepFallback =>
      if s.mode.Disposed? then s.(mount := At(Reset, Back(true)))
      else s.(primaryCleanupOwned := false, fallbackCleanupOwned := false, fallbackMounted := false,
              disposedRenderers := {}, mount := At(Reset, Back(true)), trace := s.trace + [Lifetime])
    case Reset =>
      if s.mode.Disposed? then EndMount(s, true)
      else s.(primaryCleanupOwned := true, mount := At(MountPrimary, Waiting),
              trace := s.trace + [Invoked(ThePrimary, MountKind)])
    case MountPrimary =>
      if !s.mode.Disposed? && s.mount.op.ok then EndMount(s, true).(mode := Primary)
      else Release(s, ThePrimary).(
             mount := At(if s.mode.Disposed? then AbortPrimary else DropPrimary, ReleaseOp(s, ThePrimary)))
    case AbortPrimary => EndMount(s, true)
    case DropPrimary => BeginFallbackMount(s).(mode := Fallback, mount := At(MountFallback, Waiting))
    case MountFallback => s.(fallbackMounted := s.mount.op.ok, mount := At(FallbackMounted, s.mount.op))
    case FallbackMounted =>
      if s.mode.Disposed? then Release(s, TheFallback).(mount := At(AbortFallback, ReleaseOp(s, TheFallback)))
      else if s.mount.op.ok then EndMount(s, true)
      else s.(mode := Unmounted, host := None, mount := At(FailMount, Back(true)))
    case AbortFallback => EndMount(s, true)
    case FailMount =>
      EndMount(s, false).(mode := if s.mode.Disposed? then s.mode else Unmounted,
                          host := if s.mode.Disposed? then s.host else None)
    case _ => s
  }

  function ResumeRender(s: State): State
    requires s.render.At? && s.render.op.Back?
  {
    match s.render.pc
    case AwaitMount =>
      if s.lastMount == Some(true) && s.mode.Primary? then BeginRender(s, ThePrimary)
      else if s.lastMount == Some(true) && s.mode.Fallback? then RenderWithFallback(s)
      else EndRender(s, false)
    case RenderPrimary =>
      if s.render.op.ok then EndRender(s, true)
      else Release(s, ThePrimary).(render := At(FailoverDrop, ReleaseOp(s, ThePrimary)))
    case FailoverDrop =>
      if s.mode.Disposed? || s.host.None? then EndRender(s, false)
      else BeginFallbackMount(s).(mode := Fallback, render := At(RenderMountFallback, Waiting))
    case RenderMountFallback =>
      s.(fallbackMounted := s.render.op.ok, render := At(RenderFallbackMounted, s.render.op))
    case RenderFallbackMounted =>
      if !s.render.op.ok || s.mode.Disposed? then EndRender(s, false) else BeginRender(s, TheFallback)
    case RenderFallback => EndRender(s, s.render.op.ok)
    case _ => s
  }

  function ResumeDispose(s: State): State
    requires s.dispose.At? && s.dispose.op.Back?
  {
    match s.dispose.pc
    case DisposeAwait => Release(s, ThePrimary).(dispose := At(DisposePrimary, ReleaseOp(s, ThePrimary)))
    case DisposePrimary => Release(s, TheFallback).(dispose := At(DisposeFallback, ReleaseOp(s, TheFallback)))
    case DisposeFallback => s.(dispose := Finished(true), trace := s.trace + [DisposeEnded])
    case _ => s
  }

  /** The inner operation a place waits for. */
  function Callee(pc: Pc): (Which, Kind)
  {
    match pc
    case MountPrimary => (ThePrimary, MountKind)
    case MountFallback => (TheFallback, MountKind)
    case RenderMountFallback => (TheFallback, MountKind)
    case RenderPrimary => (ThePrimary, RenderKind)
    case RenderFallback => (TheFallback, RenderKind)
    case PrepFallback => (TheFallback, DisposeKind)
    case AbortFallback => (TheFallback, DisposeKind)
    case DisposeFallback => (TheFallback, DisposeKind)
    case _ => (ThePrimary, DisposeKind)
  }

  function Return(pc: Pc, ok: bool): Event
  {
    Returned(Callee(pc).0, Callee(pc).1, ok)
  }

  // ---- Steps --------------------------------------------------------------------------------

  datatype Entry = TheMount | TheRender | TheDispose

  function ThreadOf(s: State, e: Entry): Thread
  {
    match e
    case TheMount => s.mount
    case TheRender => s.render
    case TheDispose => s.dispose
  }

  /** `Settles`: an awaited inner operation returns.  `Resumes`: the thread continues.
      `Takes`: the caller learns the result. */
  datatype Label =
    | Mount(host: Element)
    | Render
    | Dispose
    | Settles(entry: Entry, ok: bool)
    | Resumes(entry: Entry)
    | Takes(entry: Entry)

  predicate Enabled(s: State, l: Label) {
    match l
    case Mount(_) => s.mount.Idle?
    case Render => s.render.Idle?
    case Dispose => s.dispose.Idle?
    case Settles(e, _) => ThreadOf(s, e).At? && ThreadOf(s, e).op.Waiting?
    case Resumes(e) =>
      && ThreadOf(s, e).At? && ThreadOf(s, e).op.Back?
      && (ThreadOf(s, e).pc.AwaitMount? || ThreadOf(s, e).pc.DisposeAwait? ==> !s.mount.At?)
    case Takes(e) => ThreadOf(s, e).Finished?
  }

  function Settle(s: State, e: Entry, ok: bool): State
    requires ThreadOf(s, e).At?
  {
    var t := At(ThreadOf(s, e).pc, Back(ok));
    s.(mount := if e.TheMount? then t else s.mount,
       render := if e.TheRender? then t else s.render,
       dispose := if e.TheDispose? then t else s.dispose,
       trace := s.trace + [Return(ThreadOf(s, e).pc, ok)])
  }

  function Resume(s: State, e: Entry): State
    requires ThreadOf(s, e).At? && ThreadOf(s, e).op.Back?
  {
    match e
    case TheMount => ResumeMount(s)
    case TheRender => ResumeRender(s)
    case TheDispose => ResumeDispose(s)
  }

  function Take(s: State, e: Entry): State
  {
    s.(mount := if e.TheMount? then Idle else s.mount,
       render := if e.TheRender? then Idle else s.render,
       dispose := if e.TheDispose? then Idle else s.dispose)
  }

  function Step(s: State, l: Label): State
    requires Enabled(s, l)
  {
    match l
    case Mount(host) => CallMount(s, host)
    case Render => CallRender(s)
    case Dispose => CallDispose(s)
    case Settles(e, ok) => Settle(s, e, ok)
    case Resumes(e) => Resume(s, e)
    case Takes(e) => Take(s, e)
  }

  // ---- What the inner renderers may rely on -----------------------------------------------------

  datatype Released = NotReleased | Releasing | Done

  /** One inner renderer in the current lifetime.  `ready`: its mount succeeded, and it has not
      been given up since. */
  datatype Usage = Usage(mounted: bool, ready: bool, released: Released)

  const UNUSED := Usage(false, false, NotReleased)

  /** `legal` is false once the inner renderers were not treated as promised; `successes` counts
      the deliveries of the render call under way that succeeded. */
  datatype Watch = Watch(legal: bool, primary: Usage, fallback: Usage, busy: Option<(Which, Kind)>, successes: nat)

  const NOTHING_YET := Watch(true, UNUSED, UNUSED, None, 0)

  predicate Cleaned(u: Usage) {
    u.mounted ==> u.released.Done?
  }

  function UsageOf(w: Watch, which: Which): Usage
  {
    if which.ThePrimary? then w.primary else w.fallback
  }

  predicate MayInvoke(w: Watch, which: Which, kind: Kind) {
    var u := UsageOf(w, which);
    && w.busy.None?
    && match kind
       case MountKind =>
         if which.ThePrimary? then u == UNUSED
         else w.primary.mounted && !w.primary.ready && w.primary.released.Done? && u.released.NotReleased? && !u.ready
       case RenderKind => u.ready && u.released.NotReleased?
       case DisposeKind => u.mounted && u.released.NotReleased?
  }

  function AfterInvoke(u: Usage, kind: Kind): Usage
  {
    match kind
    case MountKind => u.(mounted := true)
    case RenderKind => u
    case DisposeKind => u.(released := Releasing)
  }

  /** A primary whose render failed is given up; a fallback is not. */
  function AfterReturn(u: Usage, which: Which, kind: Kind, ok: bool): Usage
  {
    match kind
    case MountKind => u.(ready := ok)
    case RenderKind => u.(ready := u.ready && (ok || which.TheFallback?))
    case DisposeKind => u.(released := Done)
  }

  function Observe(w: Watch, e: Event): Watch
  {
    match e
    case Lifetime =>
      Watch(w.legal && w.busy.None? && Cleaned(w.primary) && Cleaned(w.fallback), UNUSED, UNUSED, None, w.successes)
    case Invoked(which, kind) =>
      w.(legal := w.legal && MayInvoke(w, which, kind), busy := Some((which, kind)),
         primary := if which.ThePrimary? then AfterInvoke(w.primary, kind) else w.primary,
         fallback := if which.TheFallback? then AfterInvoke(w.fallback, kind) else w.fallback)
    case Returned(which, kind, ok) =>
      w.(legal := w.legal && w.busy == Some((which, kind)), busy := None,
         primary := if which.ThePrimary? then AfterReturn(w.primary, which, kind, ok) else w.primary,
         fallback := if which.TheFallback? then AfterReturn(w.fallback, which, kind, ok) else w.fallback,
         successes := if kind.RenderKind? && ok then w.successes + 1 else w.successes)
    case RenderEnded(ok) =>
      w.(legal := w.legal && w.busy.None? && w.successes == if ok then 1 else 0, successes := 0)
    case DisposeEnded =>
      w.(legal := w.legal && w.busy.None? && Cleaned(w.primary) && Cleaned(w.fallback))
  }

  function Watched(trace: seq<Event>): Watch
  {
    if trace == [] then NOTHING_YET
    else Observe(Watched(trace[..|trace| - 1]), trace[|trace| - 1])
  }
}
