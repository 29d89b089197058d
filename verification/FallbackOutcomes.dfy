/** What the calls of the presentation firewall come back with.  Driven by the renderer host, a render
    fails only on a failure of the fallback, reported last; a mount tells which renderer took over. */
module FallbackOutcomes {
  import opened Common
  import opened ComposedRenderer
  import opened ComposedRendererProof
  import H = RendererHost
  import HP = RendererHostProof
  import opened F = FallbackRenderer
  import opened FallbackInvariant

  predicate EndsWith(trace: seq<F.Event>, e: F.Event) {
    trace != [] && trace[|trace| - 1] == e
  }

  /** A thread that is back from an inner operation whose result it has not acted on yet: that result is
      the last thing that happened. */
  predicate Reported(f: F.State) {
    && (f.render.At? && f.render.op.Back? ==>
          match f.render.pc
          case RenderPrimary => EndsWith(f.trace, Returned(ThePrimary, RenderKind, f.render.op.ok))
          case RenderMountFallback => EndsWith(f.trace, Returned(TheFallback, MountKind, f.render.op.ok))
          case RenderFallbackMounted => EndsWith(f.trace, Returned(TheFallback, MountKind, f.render.op.ok))
          case RenderFallback => EndsWith(f.trace, Returned(TheFallback, RenderKind, f.render.op.ok))
          case _ => true)
    && (f.mount.At? && f.mount.op.Back? ==>
          match f.mount.pc
          case MountPrimary => EndsWith(f.trace, Returned(ThePrimary, MountKind, f.mount.op.ok))
          case MountFallback => EndsWith(f.trace, Returned(TheFallback, MountKind, f.mount.op.ok))
          case FallbackMounted => EndsWith(f.trace, Returned(TheFallback, MountKind, f.mount.op.ok))
          case FailMount => EndsWith(f.trace, Returned(TheFallback, MountKind, false))
          case _ => true)
    && (f.mount.Finished? ==>
          EndsWith(f.trace, Returned(if f.mode.Primary? then ThePrimary else TheFallback, MountKind, f.mount.ok)))
    && (f.render.Finished? ==> EndsWith(f.trace, RenderEnded(f.render.ok)))
  }

  /** What the end of a render call comes right after. */
  predicate Explained(before: seq<F.Event>, ok: bool) {
    if ok then EndsWith(before, Returned(ThePrimary, RenderKind, true)) || EndsWith(before, Returned(TheFallback, RenderKind, true))
    else EndsWith(before, Returned(TheFallback, MountKind, false)) || EndsWith(before, Returned(TheFallback, RenderKind, false))
  }

  predicate Adds(f: F.State, g: F.State) {
    || g.trace == f.trace
    || (&& |g.trace| == |f.trace| + 1 && g.trace[..|f.trace|] == f.trace
        && (g.trace[|f.trace|].RenderEnded? ==> Explained(f.trace, g.trace[|f.trace|].ok)))
  }

  // ---- Preservation ------------------------------------------------------------------------------

  lemma {:induction false} PrimaryRenderReports(f: F.State, w: Watch)
    requires Reported(f) && Inv(f, w) && f.render.At? && f.render.op.Back? && (f.render.pc.RenderPrimary? || f.render.pc.FailoverDrop?)
    ensures Reported(ResumeRender(f)) && Adds(f, ResumeRender(f))
  {
    hide Ledger;
    assert RenderPlace(f, w, f.render.pc, f.render.op);
  }

  lemma {:induction false} FallbackRenderReports(f: F.State, w: Watch)
    requires Reported(f) && Inv(f, w) && f.render.At? && f.render.op.Back? && !f.render.pc.RenderPrimary? && !f.render.pc.FailoverDrop?
    ensures Reported(ResumeRender(f)) && Adds(f, ResumeRender(f))
  {
    hide Ledger, OnPrimary;
    assert RenderPlace(f, w, f.render.pc, f.render.op);
  }

  lemma {:induction false} RenderReports(f: F.State, w: Watch)
    requires Reported(f) && Inv(f, w) && f.render.At? && f.render.op.Back?
    ensures Reported(ResumeRender(f)) && Adds(f, ResumeRender(f))
  {
    hide Reported, Inv, Adds, ResumeRender;
    if f.render.pc.RenderPrimary? || f.render.pc.FailoverDrop? {
      PrimaryRenderReports(f, w);
    } else {
      FallbackRenderReports(f, w);
    }
  }

  lemma {:induction false} PrimaryMountReports(f: F.State, w: Watch)
    requires Reported(f) && Inv(f, w) && f.mount.At? && f.mount.op.Back? && (f.mount.pc.MountPrimary? || f.mount.pc.DropPrimary?)
    ensures Reported(ResumeMount(f)) && Adds(f, ResumeMount(f))
  {
    hide Ledger, OnPrimary, OnFallback;
    assert MountPlace(f, w, f.mount.pc, f.mount.op);
  }

  lemma {:induction false} FallbackMountReports(f: F.State, w: Watch)
    requires Reported(f) && Inv(f, w) && f.mount.At? && f.mount.op.Back? && (f.mount.pc.MountFallback? || f.mount.pc.FallbackMounted? || f.mount.pc.FailMount?)
    ensures Reported(ResumeMount(f)) && Adds(f, ResumeMount(f))
  {
    hide Ledger, OnPrimary;
    assert MountPlace(f, w, f.mount.pc, f.mount.op);
  }

  lemma {:induction false} PreparationReports(f: F.State, w: Watch)
    requires Reported(f) && Inv(f, w) && f.mount.At? && f.mount.op.Back?
    requires !f.mount.pc.MountPrimary? && !f.mount.pc.DropPrimary? && !f.mount.pc.MountFallback? && !f.mount.pc.FallbackMounted? && !f.mount.pc.FailMount?
    ensures Reported(ResumeMount(f)) && Adds(f, ResumeMount(f))
  {
    hide Ledger, OnPrimary, OnFallback;
    assert MountPlace(f, w, f.mount.pc, f.mount.op);
  }

  lemma {:induction false} MountReports(f: F.State, w: Watch)
    requires Reported(f) && Inv(f, w) && f.mount.At? && f.mount.op.Back?
    ensures Reported(ResumeMount(f)) && Adds(f, ResumeMount(f))
  {
    hide Reported, Inv, Adds, ResumeMount;
    match f.mount.pc
    case MountPrimary => PrimaryMountReports(f, w);
    case DropPrimary => PrimaryMountReports(f, w);
    case MountFallback => FallbackMountReports(f, w);
    case FallbackMounted => FallbackMountReports(f, w);
    case FailMount => FallbackMountReports(f, w);
    case _ => PreparationReports(f, w);
  }

  lemma {:induction false} DisposeReports(f: F.State, w: Watch)
    requires Reported(f) && Inv(f, w) && f.dispose.At? && f.dispose.op.Back?
    ensures Reported(ResumeDispose(f)) && Adds(f, ResumeDispose(f))
  {
    hide Ledger;
  }

  lemma {:induction false} SettleReports(f: F.State, w: Watch, e: Entry, ok: bool)
    requires Inv(f, w) && F.Enabled(f, Settles(e, ok))
    ensures Reported(Settle(f, e, ok)) && Adds(f, Settle(f, e, ok))
  {
    hide Ledger;
  }

  lemma {:induction false} FirewallReports(f: F.State, w: Watch, l: F.Label)
    requires Reported(f) && Inv(f, w) && (l.Settles? || l.Resumes?) && F.Enabled(f, l)
    ensures Reported(F.Step(f, l)) && Adds(f, F.Step(f, l))
  {
    hide Reported, Inv, Adds, ResumeMount, ResumeRender, ResumeDispose, Settle;
    match l
    case Settles(e, ok) => SettleReports(f, w, e, ok);
    case Resumes(TheMount) => MountReports(f, w);
    case Resumes(TheRender) => RenderReports(f, w);
    case Resumes(TheDispose) => DisposeReports(f, w);
  }

  /** The host calls from rest, and only what the mode allows. */
  lemma {:induction false} CallReports(f: F.State, w: Watch, d: H.Discipline, e: H.Event)
    requires Inv(f, w) && Linked(f, d) && H.Observe(d, e).legal && (e.MountCalled? || e.RenderCalled? || e.DisposeCalled?)
    ensures Reported(React(f, e)) && Adds(f, React(f, e))
  {
    hide Ledger;
  }

  lemma {:induction false} TakeReports(f: F.State, e: H.Event)
    requires Reported(f) && !e.MountCalled? && !e.RenderCalled? && !e.DisposeCalled?
    ensures Reported(React(f, e)) && Adds(f, React(f, e))
  {
  }

  lemma {:induction false} HostReports(s: ComposedRenderer.State, h: H.Label)
    requires Together(s) && Reported(s.firewall) && ComposedRenderer.Enabled(s, HostMoves(h))
    ensures var t := ComposedRenderer.Step(s, HostMoves(h)); Reported(t.firewall) && Adds(s.firewall, t.firewall)
  {
    hide Inv, Linked, H.Observed, Watched, HP.Good, H.Step, React, H.Observe, Reported;
    HP.StepKeepsGood(s.host, h);
    OneEvent(s.host, h);
    var t := H.Step(s.host, h).trace;
    if |t| > |s.host.trace| {
      var e := t[|s.host.trace|];
      HP.Extends(s.host.trace, e);
      assert t == s.host.trace + [e];
      LegalOf(H.Step(s.host, h));
      if e.MountCalled? || e.RenderCalled? || e.DisposeCalled? {
        CallReports(s.firewall, Watched(s.firewall.trace), H.Observed(s.host.trace), e);
      } else {
        TakeReports(s.firewall, e);
      }
    }
  }

  lemma {:induction false} StepReports(s: ComposedRenderer.State, l: ComposedRenderer.Label)
    requires Together(s) && Reported(s.firewall) && ComposedRenderer.Enabled(s, l)
    ensures var t := ComposedRenderer.Step(s, l); Reported(t.firewall) && Adds(s.firewall, t.firewall)
  {
    hide Inv, Linked, HP.Good, H.Step, F.Step, React, Reported, Adds;
    match l
    case HostMoves(h) => HostReports(s, h);
    case FirewallMoves(f) => FirewallReports(s.firewall, Watched(s.firewall.trace), f);
  }

  predicate AllExplained(trace: seq<F.Event>) {
    forall i :: 0 <= i < |trace| && trace[i].RenderEnded? ==> Explained(trace[..i], trace[i].ok)
  }

  lemma AddingExplains(f: F.State, g: F.State)
    requires AllExplained(f.trace) && Adds(f, g)
    ensures AllExplained(g.trace)
  {
    forall i | 0 <= i < |g.trace| && g.trace[i].RenderEnded? ensures Explained(g.trace[..i], g.trace[i].ok) {
      if i < |f.trace| {
        assert g.trace[i] == g.trace[..|f.trace|][i] == f.trace[i];
        assert g.trace[..i] == g.trace[..|f.trace|][..i] == f.trace[..i];
      }
    }
  }

  lemma {:induction false} AlwaysReported(labels: seq<ComposedRenderer.Label>)
    ensures var f := ComposedRenderer.Run(labels).firewall; Reported(f) && AllExplained(f.trace)
  {
    hide Together, Reported, Adds, AllExplained, ComposedRenderer.Step, ComposedRenderer.Enabled;
    if labels == [] {
      InitiallyReported();
    } else {
      var s := ComposedRenderer.Run(labels[..|labels| - 1]);
      AlwaysTogether(labels[..|labels| - 1]);
      AlwaysReported(labels[..|labels| - 1]);
      if ComposedRenderer.Enabled(s, labels[|labels| - 1]) {
        StepReports(s, labels[|labels| - 1]);
        AddingExplains(s.firewall, ComposedRenderer.Step(s, labels[|labels| - 1]).firewall);
      }
    }
  }

  lemma InitiallyReported()
    ensures var f := ComposedRenderer.Initial().firewall; Reported(f) && AllExplained(f.trace)
  {
  }

  // ---- Results -----------------------------------------------------------------------------------

  /** Main result, read by position: in every run under the renderer host, a render call that fails does
      so right after the fallback's mount or render failed, and one that succeeds right after an inner
      render succeeded.  So a snapshot is given up only when the fallback failed on it. */
  lemma {:induction false} RenderTells(labels: seq<ComposedRenderer.Label>, i: nat)
    requires i < |ComposedRenderer.Run(labels).firewall.trace| && ComposedRenderer.Run(labels).firewall.trace[i].RenderEnded?
    ensures var tr := ComposedRenderer.Run(labels).firewall.trace;
            && i > 0 && tr[i - 1].Returned? && tr[i - 1].ok == tr[i].ok
            && (tr[i].ok ==> tr[i - 1].kind == RenderKind)
            && (!tr[i].ok ==> tr[i - 1].which == TheFallback && (tr[i - 1].kind == MountKind || tr[i - 1].kind == RenderKind))
  {
    AlwaysReported(labels);
    var tr := ComposedRenderer.Run(labels).firewall.trace;
    assert Explained(tr[..i], tr[i].ok);
  }

  /** Main result: when the host learns the outcome of a mount, the last thing that happened is the mount
      of the renderer in charge succeeding, or the fallback's failing. */
  lemma {:induction false} MountTells(labels: seq<ComposedRenderer.Label>, ok: bool)
    requires ComposedRenderer.Enabled(ComposedRenderer.Run(labels), HostMoves(H.MountSettle(ok)))
    ensures var f := ComposedRenderer.Run(labels).firewall;
            && f.trace != []
            && var last := f.trace[|f.trace| - 1];
               if ok then
                 || (f.mode == Mode.Primary && last == Returned(ThePrimary, MountKind, true))
                 || (f.mode == Mode.Fallback && last == Returned(TheFallback, MountKind, true))
               else f.mode == Mode.Unmounted && last == Returned(TheFallback, MountKind, false)
  {
    hide HP.Good, Linked, Watched;
    AlwaysReported(labels);
    AlwaysTogether(labels);
  }
}
