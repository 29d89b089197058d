/** What every moment of the fallback renderer keeps while its calls exclude one another. */
module FallbackInvariant {
  import opened Common
  import opened FallbackRenderer

  /** One call at a time: the discipline under which the firewall is used. */
  predicate Exclusive(s: State) {
    && (s.mount.Idle? || s.render.Idle?)
    && (s.mount.Idle? || s.dispose.Idle?)
    && (s.render.Idle? || s.dispose.Idle?)
  }

  function Running(s: State): Thread
  {
    if !s.mount.Idle? then s.mount else if !s.render.Idle? then s.render else s.dispose
  }

  function BusyOf(t: Thread): Option<(Which, Kind)>
  {
    if t.At? && t.op.Waiting? then Some(Callee(t.pc)) else None
  }

  /** The cleanup flags say which renderer still has to be disposed. */
  predicate Owes(owned: bool, disposed: bool, u: Usage, busy: bool) {
    && (owned <==> u.mounted && u.released.NotReleased?)
    && (disposed <==> !u.released.NotReleased?)
    && (u.released.Releasing? <==> busy)
    && (u.ready || disposed ==> u.mounted)
  }

  predicate Ledger(s: State, w: Watch) {
    && Owes(s.primaryCleanupOwned, ThePrimary in s.disposedRenderers, w.primary, w.busy == Some((ThePrimary, DisposeKind)))
    && Owes(s.fallbackCleanupOwned, TheFallback in s.disposedRenderers, w.fallback, w.busy == Some((TheFallback, DisposeKind)))
  }

  predicate OnPrimary(s: State, w: Watch) {
    s.host.Some? && w.primary.mounted && w.fallback == UNUSED && !s.fallbackMounted
  }

  predicate OnFallback(s: State, w: Watch) {
    && s.mode.Fallback? && s.host.Some? && w.primary.mounted && !w.primary.ready && w.primary.released.Done?
    && w.fallback.mounted && w.fallback.released.NotReleased?
  }

  predicate Quiet(s: State, w: Watch) {
    && w.successes == 0
    && match s.mode
       case Unmounted => s.host.None?
       case Mounting => false
       case Primary => OnPrimary(s, w) && w.primary.ready && w.primary.released.NotReleased?
       case Fallback => OnFallback(s, w) && s.fallbackMounted == w.fallback.ready
       case Disposed => s.host.None? && Cleaned(w.primary) && Cleaned(w.fallback)
  }

  predicate MountPlace(s: State, w: Watch, pc: Pc, op: Op) {
    && w.successes == 0
    && match pc
       case PrepPrimary => s.mode.Mounting? && s.host.Some? && !s.primaryCleanupOwned
       case PrepFallback => s.mode.Mounting? && s.host.Some? && !s.primaryCleanupOwned && !s.fallbackCleanupOwned
       case Reset => s.mode.Mounting? && s.host.Some? && w.primary == UNUSED && w.fallback == UNUSED && !s.fallbackMounted && op.Back?
       case MountPrimary =>
         && s.mode.Mounting? && OnPrimary(s, w) && w.primary.released.NotReleased?
         && w.primary.ready == (op == Back(true))
       case DropPrimary => s.mode.Mounting? && OnPrimary(s, w) && !w.primary.ready && !s.primaryCleanupOwned
       case MountFallback => OnFallback(s, w) && w.fallback.ready == (op == Back(true))
       case FallbackMounted => OnFallback(s, w) && op.Back? && s.fallbackMounted == op.ok == w.fallback.ready
       case FailMount => s.mode.Unmounted? && s.host.None? && op.Back?
       case _ => false
  }

  predicate RenderPlace(s: State, w: Watch, pc: Pc, op: Op) {
    match pc
    case RenderPrimary =>
      && s.mode.Primary? && OnPrimary(s, w) && w.primary.released.NotReleased?
      && w.primary.ready == (op != Back(false)) && w.successes == (if op == Back(true) then 1 else 0)
    case FailoverDrop => s.mode.Primary? && OnPrimary(s, w) && !w.primary.ready && !s.primaryCleanupOwned && w.successes == 0
    case RenderMountFallback => OnFallback(s, w) && w.successes == 0 && w.fallback.ready == (op == Back(true))
    case RenderFallbackMounted =>
      OnFallback(s, w) && w.successes == 0 && op.Back? && s.fallbackMounted == op.ok == w.fallback.ready
    case RenderFallback =>
      && OnFallback(s, w) && s.fallbackMounted && w.fallback.ready
      && w.successes == (if op == Back(true) then 1 else 0)
    case _ => false
  }

  predicate DisposePlace(s: State, w: Watch, pc: Pc, op: Op) {
    && s.mode.Disposed? && s.host.None? && w.successes == 0
    && match pc
       case DisposeAwait => op.Back?
       case DisposePrimary => !s.primaryCleanupOwned
       case DisposeFallback => !s.primaryCleanupOwned && !s.fallbackCleanupOwned
       case _ => false
  }

  predicate Placed(s: State, w: Watch) {
    match Running(s)
    case Idle => Quiet(s, w)
    case Finished(ok) =>
      && Quiet(s, w)
      && (s.mount.Finished? ==> if ok then s.mode.Primary? || s.mode.Fallback? else s.mode.Unmounted?)
      && (s.render.Finished? ==> s.mode.Primary? || s.mode.Fallback?)
      && (s.dispose.Finished? ==> s.mode.Disposed?)
    case At(pc, op) =>
      if s.mount.At? then MountPlace(s, w, pc, op)
      else if s.render.At? then RenderPlace(s, w, pc, op)
      else DisposePlace(s, w, pc, op)
  }

  predicate Inv(s: State, w: Watch) {
    w.legal && Exclusive(s) && w.busy == BusyOf(Running(s)) && Ledger(s, w) && Placed(s, w)
  }

  lemma Extends(trace: seq<Event>, e: Event)
    ensures Watched(trace + [e]) == Observe(Watched(trace), e)
  {
    assert (trace + [e])[..|trace|] == trace;
  }

  lemma {:induction false} InitiallyInv()
    ensures Inv(Initial(), Watched(Initial().trace))
  {
  }

  // ---- Entry points -----------------------------------------------------------------------------

  predicate AllIdle(s: State) {
    s.mount.Idle? && s.render.Idle? && s.dispose.Idle?
  }

  lemma {:induction false} CallMountKeeps(s: State, host: Element)
    requires Inv(s, Watched(s.trace)) && AllIdle(s) && s.mode.Unmounted?
    ensures Inv(CallMount(s, host), Watched(CallMount(s, host).trace))
  {
    hide Watched;
    Extends(s.trace, Invoked(ThePrimary, DisposeKind));
  }

  lemma {:induction false} CallRenderKeeps(s: State)
    requires Inv(s, Watched(s.trace)) && AllIdle(s) && (s.mode.Primary? || s.mode.Fallback?)
    ensures Inv(CallRender(s), Watched(CallRender(s).trace))
  {
    hide Watched;
    Extends(s.trace, Invoked(ThePrimary, RenderKind));
    Extends(s.trace, Invoked(TheFallback, RenderKind));
    Extends(s.trace, Invoked(TheFallback, MountKind));
  }

  lemma {:induction false} CallDisposeKeeps(s: State)
    requires Inv(s, Watched(s.trace)) && AllIdle(s) && !s.mode.Disposed?
    ensures Inv(CallDispose(s), Watched(CallDispose(s).trace))
  {
    hide Watched;
    Extends(s.trace, Invoked(ThePrimary, DisposeKind));
  }

  lemma {:induction false} SettleKeeps(s: State, e: Entry, ok: bool)
    requires Inv(s, Watched(s.trace)) && Enabled(s, Settles(e, ok))
    ensures Inv(Settle(s, e, ok), Watched(Settle(s, e, ok).trace))
  {
    hide Watched;
    Extends(s.trace, Return(ThreadOf(s, e).pc, ok));
  }

  lemma {:induction false} PreparationKeeps(s: State)
    requires Inv(s, Watched(s.trace)) && s.mount.At? && s.mount.op.Back? && (s.mount.pc.PrepPrimary? || s.mount.pc.PrepFallback? || s.mount.pc.Reset?)
    ensures Inv(ResumeMount(s), Watched(ResumeMount(s).trace))
  {
    hide Watched;
    Extends(s.trace, Invoked(TheFallback, DisposeKind));
    Extends(s.trace, Lifetime);
    Extends(s.trace, Invoked(ThePrimary, MountKind));
  }

  lemma {:induction false} PrimaryMountKeeps(s: State)
    requires Inv(s, Watched(s.trace)) && s.mount.At? && s.mount.op.Back? && (s.mount.pc.MountPrimary? || s.mount.pc.DropPrimary?)
    ensures Inv(ResumeMount(s), Watched(ResumeMount(s).trace))
  {
    hide Watched;
    Extends(s.trace, Invoked(ThePrimary, DisposeKind));
    Extends(s.trace, Invoked(TheFallback, MountKind));
  }

  lemma {:induction false} FallbackMountKeeps(s: State)
    requires Inv(s, Watched(s.trace)) && s.mount.At? && s.mount.op.Back? && (!(s.mount.pc.PrepPrimary? || s.mount.pc.PrepFallback? || s.mount.pc.Reset? || s.mount.pc.MountPrimary? || s.mount.pc.DropPrimary?))
    ensures Inv(ResumeMount(s), Watched(ResumeMount(s).trace))
  {
    hide Watched;
  }

  lemma {:induction false} ResumeMountKeeps(s: State)
    requires Inv(s, Watched(s.trace)) && s.mount.At? && s.mount.op.Back?
    ensures Inv(ResumeMount(s), Watched(ResumeMount(s).trace))
  {
    hide Inv, ResumeMount;
    match s.mount.pc
    case PrepPrimary => PreparationKeeps(s);
    case PrepFallback => PreparationKeeps(s);
    case Reset => PreparationKeeps(s);
    case MountPrimary => PrimaryMountKeeps(s);
    case DropPrimary => PrimaryMountKeeps(s);
    case _ => FallbackMountKeeps(s);
  }

  lemma {:induction false} PrimaryRenderKeeps(s: State)
    requires Inv(s, Watched(s.trace)) && s.render.At? && s.render.op.Back? && (s.render.pc.RenderPrimary?)
    ensures Inv(ResumeRender(s), Watched(ResumeRender(s).trace))
  {
    hide Watched;
    Extends(s.trace, RenderEnded(true));
    Extends(s.trace, Invoked(ThePrimary, DisposeKind));
  }

  lemma {:induction false} FailoverKeeps(s: State)
    requires Inv(s, Watched(s.trace)) && s.render.At? && s.render.op.Back? && (s.render.pc.FailoverDrop? || s.render.pc.RenderMountFallback?)
    ensures Inv(ResumeRender(s), Watched(ResumeRender(s).trace))
  {
    hide Watched;
    Extends(s.trace, Invoked(TheFallback, MountKind));
  }

  lemma {:induction false} FallbackRenderKeeps(s: State)
    requires Inv(s, Watched(s.trace)) && s.render.At? && s.render.op.Back? && (!(s.render.pc.RenderPrimary? || s.render.pc.FailoverDrop? || s.render.pc.RenderMountFallback?))
    ensures Inv(ResumeRender(s), Watched(ResumeRender(s).trace))
  {
    hide Watched;
    Extends(s.trace, RenderEnded(s.render.op.ok));
    Extends(s.trace, Invoked(TheFallback, RenderKind));
  }

  lemma {:induction false} ResumeRenderKeeps(s: State)
    requires Inv(s, Watched(s.trace)) && s.render.At? && s.render.op.Back?
    ensures Inv(ResumeRender(s), Watched(ResumeRender(s).trace))
  {
    hide Inv, ResumeRender;
    match s.render.pc
    case RenderPrimary => PrimaryRenderKeeps(s);
    case FailoverDrop => FailoverKeeps(s);
    case RenderMountFallback => FailoverKeeps(s);
    case _ => FallbackRenderKeeps(s);
  }

  lemma {:induction false} DisposeStartKeeps(s: State)
    requires Inv(s, Watched(s.trace)) && s.dispose.At? && s.dispose.op.Back? && (s.dispose.pc.DisposeAwait?)
    ensures Inv(ResumeDispose(s), Watched(ResumeDispose(s).trace))
  {
    hide Watched;
    Extends(s.trace, Invoked(ThePrimary, DisposeKind));
  }

  lemma {:induction false} DisposeNextKeeps(s: State)
    requires Inv(s, Watched(s.trace)) && s.dispose.At? && s.dispose.op.Back? && (s.dispose.pc.DisposePrimary?)
    ensures Inv(ResumeDispose(s), Watched(ResumeDispose(s).trace))
  {
    hide Watched;
    Extends(s.trace, Invoked(TheFallback, DisposeKind));
  }

  lemma {:induction false} DisposeEndKeeps(s: State)
    requires Inv(s, Watched(s.trace)) && s.dispose.At? && s.dispose.op.Back? && (!s.dispose.pc.DisposeAwait? && !s.dispose.pc.DisposePrimary?)
    ensures Inv(ResumeDispose(s), Watched(ResumeDispose(s).trace))
  {
    hide Watched;
    Extends(s.trace, DisposeEnded);
  }

  lemma {:induction false} ResumeDisposeKeeps(s: State)
    requires Inv(s, Watched(s.trace)) && s.dispose.At? && s.dispose.op.Back?
    ensures Inv(ResumeDispose(s), Watched(ResumeDispose(s).trace))
  {
    hide Inv, ResumeDispose;
    match s.dispose.pc
    case DisposeAwait => DisposeStartKeeps(s);
    case DisposePrimary => DisposeNextKeeps(s);
    case _ => DisposeEndKeeps(s);
  }

  lemma {:induction false} TakeKeeps(s: State, e: Entry)
    requires Inv(s, Watched(s.trace)) && Enabled(s, Takes(e))
    ensures Inv(Take(s, e), Watched(Take(s, e).trace)) && AllIdle(Take(s, e))
  {
    hide Watched;
  }
}
