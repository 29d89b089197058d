/** Results about the host and the firewall together, stated on both traces. */
module ComposedTheorems {
  import opened Common
  import opened ComposedRenderer
  import opened ComposedRendererProof
  import H = RendererHost
  import HP = RendererHostProof
  import opened F = FallbackRenderer
  import opened FallbackInvariant
  import opened FallbackTheorems

  /** Main result: once the host's disposal has settled, every inner renderer whose mount was
      called in the last lifetime was disposed exactly once in it, and none is still busy. */
  lemma {:induction false} DisposedRendererIsClean(labels: seq<ComposedRenderer.Label>, which: Which)
    ensures var s := ComposedRenderer.Run(labels);
            s.host.disposal.Settled? ==>
              && Watched(s.firewall.trace).busy.None?
              && Calls(s.firewall.trace, which, DisposeKind)
                   == if Calls(s.firewall.trace, which, MountKind) > 0 then 1 else 0
  {
    var s := ComposedRenderer.Run(labels);
    AlwaysTogether(labels);
    CallsAreWatched(s.firewall.trace, which);
    MountedWhenUsed(s.firewall.trace);
    if s.host.disposal.Settled? {
      SettledIsQuiet(s);
    }
  }

  lemma {:induction false} SettledIsQuiet(s: ComposedRenderer.State)
    requires Together(s) && s.host.disposal.Settled?
    ensures var w := Watched(s.firewall.trace); w.busy.None? && Cleaned(w.primary) && Cleaned(w.fallback)
  {
    assert HP.BusyOf(s.host).None?;
  }

  /** Deliveries of the host that succeeded. */
  function Delivered(trace: seq<H.Event>): nat
  {
    if trace == [] then 0
    else Delivered(trace[..|trace| - 1])
         + if trace[|trace| - 1].RenderDone? && trace[|trace| - 1].ok then 1 else 0
  }

  /** Render calls of the firewall that ended well. */
  function Ended(trace: seq<F.Event>): nat
  {
    if trace == [] then 0
    else Ended(trace[..|trace| - 1]) + if trace[|trace| - 1] == RenderEnded(true) then 1 else 0
  }

  /** Successful renders of the inner renderers. */
  function Rendered(trace: seq<F.Event>): nat
  {
    if trace == [] then 0
    else Rendered(trace[..|trace| - 1]) + if IsRendered(trace[|trace| - 1]) then 1 else 0
  }

  predicate IsRendered(e: F.Event) {
    e.Returned? && e.kind.RenderKind? && e.ok
  }

  lemma {:induction false} RenderedIsEnded(trace: seq<F.Event>)
    requires Watched(trace).legal
    ensures Rendered(trace) == Ended(trace) + Watched(trace).successes
  {
    if trace != [] {
      RenderedIsEnded(trace[..|trace| - 1]);
    }
  }

  function Waiting(f: F.State): nat
  {
    if f.render == Finished(true) then 1 else 0
  }

  lemma {:induction false} EndedGrows(trace: seq<F.Event>, e: F.Event)
    ensures Ended(trace + [e]) == Ended(trace) + if e == RenderEnded(true) then 1 else 0
  {
    assert (trace + [e])[..|trace|] == trace;
  }

  lemma {:induction false} DeliveredGrows(trace: seq<H.Event>, e: H.Event)
    ensures Delivered(trace + [e]) == Delivered(trace) + if e.RenderDone? && e.ok then 1 else 0
  {
    assert (trace + [e])[..|trace|] == trace;
  }

  lemma {:induction false} AwaitMountEnds(f: F.State)
    requires f.render.At? && f.render.op.Back? && f.render.pc.AwaitMount?
    ensures Ended(ResumeRender(f).trace) == Ended(f.trace)
    ensures Waiting(ResumeRender(f)) == 0
  {
    hide Ended;
    EndedGrows(f.trace, RenderEnded(false));
    EndedGrows(f.trace, Invoked(ThePrimary, RenderKind));
    EndedGrows(f.trace, Invoked(TheFallback, RenderKind));
    EndedGrows(f.trace, Invoked(TheFallback, MountKind));
  }

  lemma {:induction false} PrimaryRenderEnds(f: F.State)
    requires f.render.At? && f.render.op.Back? && (f.render.pc.RenderPrimary? || f.render.pc.FailoverDrop?)
    ensures Ended(ResumeRender(f).trace) == Ended(f.trace) + Waiting(ResumeRender(f))
  {
    hide Ended;
    if f.render.pc.RenderPrimary? {
      EndedGrows(f.trace, RenderEnded(true));
      EndedGrows(f.trace, Invoked(ThePrimary, DisposeKind));
    } else {
      EndedGrows(f.trace, RenderEnded(false));
      EndedGrows(f.trace, Invoked(TheFallback, MountKind));
    }
  }

  lemma {:induction false} FallbackRenderEnds(f: F.State)
    requires f.render.At? && f.render.op.Back? && (f.render.pc.RenderFallbackMounted? || f.render.pc.RenderFallback?)
    ensures Ended(ResumeRender(f).trace) == Ended(f.trace) + Waiting(ResumeRender(f))
  {
    hide Ended;
    if f.render.pc.RenderFallback? {
      EndedGrows(f.trace, RenderEnded(f.render.op.ok));
    } else {
      EndedGrows(f.trace, RenderEnded(false));
      EndedGrows(f.trace, Invoked(TheFallback, RenderKind));
    }
  }

  lemma {:induction false} OtherRenderEnds(f: F.State)
    requires f.render.At? && f.render.op.Back?
    requires !f.render.pc.AwaitMount? && !f.render.pc.RenderPrimary? && !f.render.pc.FailoverDrop?
             && !f.render.pc.RenderFallbackMounted? && !f.render.pc.RenderFallback?
    ensures ResumeRender(f).trace == f.trace && Waiting(ResumeRender(f)) == 0
  {
  }

  lemma {:induction false} ResumeRenderEnds(f: F.State)
    requires f.render.At? && f.render.op.Back?
    ensures Ended(ResumeRender(f).trace) == Ended(f.trace) + Waiting(ResumeRender(f))
  {
    hide Ended, ResumeRender, Waiting;
    match f.render.pc
    case AwaitMount => AwaitMountEnds(f);
    case RenderPrimary => PrimaryRenderEnds(f);
    case FailoverDrop => PrimaryRenderEnds(f);
    case RenderFallbackMounted => FallbackRenderEnds(f);
    case RenderFallback => FallbackRenderEnds(f);
    case _ => OtherRenderEnds(f);
  }

  lemma {:induction false} ResumeMountEnds(f: F.State)
    requires f.mount.At? && f.mount.op.Back?
    ensures Ended(ResumeMount(f).trace) == Ended(f.trace) && ResumeMount(f).render == f.render
  {
    hide Ended;
    match f.mount.pc
    case PrepPrimary => EndedGrows(f.trace, Invoked(TheFallback, DisposeKind));
    case PrepFallback => EndedGrows(f.trace, Lifetime);
    case Reset => EndedGrows(f.trace, Invoked(ThePrimary, MountKind));
    case MountPrimary => EndedGrows(f.trace, Invoked(ThePrimary, DisposeKind));
    case DropPrimary => EndedGrows(f.trace, Invoked(TheFallback, MountKind));
    case FallbackMounted => EndedGrows(f.trace, Invoked(TheFallback, DisposeKind));
    case _ =>
  }

  lemma {:induction false} ResumeDisposeEnds(f: F.State)
    requires f.dispose.At? && f.dispose.op.Back?
    ensures Ended(ResumeDispose(f).trace) == Ended(f.trace) && ResumeDispose(f).render == f.render
  {
    hide Ended;
    EndedGrows(f.trace, DisposeEnded);
    EndedGrows(f.trace, Invoked(ThePrimary, DisposeKind));
    EndedGrows(f.trace, Invoked(TheFallback, DisposeKind));
  }

  /** A render ends well exactly when its thread finishes with success. */
  lemma {:induction false} ResumeEnds(f: F.State, e: Entry)
    requires F.Enabled(f, Resumes(e))
    ensures Ended(Resume(f, e).trace) == Ended(f.trace) + Waiting(Resume(f, e)) - Waiting(f)
  {
    hide Ended, ResumeMount, ResumeRender, ResumeDispose;
    match e
    case TheMount => ResumeMountEnds(f);
    case TheRender => ResumeRenderEnds(f);
    case TheDispose => ResumeDisposeEnds(f);
  }

  /** Mounting, disposing and returning end no render. */
  lemma {:induction false} OtherCallEnds(f: F.State, e: H.Event)
    requires !e.RenderCalled?
    requires e.RenderDone? ==> f.render == Finished(e.ok)
    ensures Ended(React(f, e).trace) == Ended(f.trace)
    ensures Waiting(React(f, e)) == Waiting(f) - if e.RenderDone? && e.ok then 1 else 0
  {
    hide Ended;
    EndedGrows(f.trace, Invoked(ThePrimary, DisposeKind));
  }

  lemma {:induction false} RenderCallEnds(f: F.State)
    requires f.render.Idle? && (f.mode.Primary? || (f.mode.Fallback? && f.host.Some?))
    ensures Ended(CallRender(f).trace) == Ended(f.trace) && Waiting(CallRender(f)) == 0
  {
    hide Ended;
    EndedGrows(f.trace, Invoked(ThePrimary, RenderKind));
    EndedGrows(f.trace, Invoked(TheFallback, RenderKind));
    EndedGrows(f.trace, Invoked(TheFallback, MountKind));
  }

  lemma {:induction false} CallEnds(f: F.State, e: H.Event)
    requires e.RenderCalled? ==> f.render.Idle? && (f.mode.Primary? || (f.mode.Fallback? && f.host.Some?))
    requires e.RenderDone? ==> f.render == Finished(e.ok)
    ensures Ended(React(f, e).trace) == Ended(f.trace)
    ensures Waiting(React(f, e)) == Waiting(f) - if e.RenderDone? && e.ok then 1 else 0
  {
    hide Ended, CallRender;
    if e.RenderCalled? {
      RenderCallEnds(f);
    } else {
      OtherCallEnds(f, e);
    }
  }

  predicate Counted(s: ComposedRenderer.State) {
    Ended(s.firewall.trace) == Delivered(s.host.trace) + Waiting(s.firewall)
  }

  lemma {:induction false} StepCounts(s: ComposedRenderer.State, l: ComposedRenderer.Label)
    requires Together(s) && Counted(s) && ComposedRenderer.Enabled(s, l)
    ensures Counted(ComposedRenderer.Step(s, l))
  {
    match l
    case FirewallMoves(f) => FirewallCounts(s, f);
    case HostMoves(h) => HostCounts(s, h);
  }

  lemma {:induction false} FirewallCounts(s: ComposedRenderer.State, f: F.Label)
    requires Counted(s) && ComposedRenderer.Enabled(s, FirewallMoves(f))
    ensures Counted(ComposedRenderer.Step(s, FirewallMoves(f)))
  {
    hide Ended, Delivered, Resume;
    match f
    case Resumes(e) => ResumeEnds(s.firewall, e);
    case Settles(e, ok) => EndedGrows(s.firewall.trace, Return(ThreadOf(s.firewall, e).pc, ok));
  }

  lemma {:induction false} HostCounts(s: ComposedRenderer.State, h: H.Label)
    requires Together(s) && Counted(s) && ComposedRenderer.Enabled(s, HostMoves(h))
    ensures Counted(ComposedRenderer.Step(s, HostMoves(h)))
  {
    hide Ended, Delivered, React, Waiting, H.Step, HP.Good, Together, Watched, H.Observed, Inv, Linked;
    OneEvent(s.host, h);
    var t := H.Step(s.host, h).trace;
    if |t| > |s.host.trace| {
      var e := t[|s.host.trace|];
      assert t == s.host.trace + [e];
      DeliveredGrows(s.host.trace, e);
      CalledWhenReady(s, h, e);
      CallEnds(s.firewall, e);
    }
  }

  lemma {:induction false} CalledWhenReady(s: ComposedRenderer.State, h: H.Label, e: H.Event)
    requires Together(s) && H.Enabled(s.host, h) && H.Step(s.host, h).trace == s.host.trace + [e]
    ensures e.RenderCalled? ==>
              var f := s.firewall; f.render.Idle? && (f.mode.Primary? || (f.mode.Fallback? && f.host.Some?))
  {
    hide HP.Good, H.Observed, Watched, H.Step, Inv;
    HP.StepKeepsGood(s.host, h);
    LegalOf(H.Step(s.host, h));
    HP.Extends(s.host.trace, e);
    if e.RenderCalled? {
      ReadyToRender(s.firewall, H.Observed(s.host.trace));
    }
  }

  lemma {:induction false} ReadyToRender(f: F.State, d: H.Discipline)
    requires Inv(f, Watched(f.trace)) && Linked(f, d) && d.busy.None? && d.mounted && !d.disposing
    ensures f.render.Idle? && (f.mode.Primary? || (f.mode.Fallback? && f.host.Some?))
  {
    hide Watched;
  }

  /** Main result: whenever no render is under way, the host's successful deliveries and the
      successful renders of the inner renderers are equally many: each delivery reached exactly
      one of them. */
  lemma {:induction false} EverySuccessReachedOneRenderer(labels: seq<ComposedRenderer.Label>)
    ensures var s := ComposedRenderer.Run(labels);
            s.host.current.None? ==> Rendered(s.firewall.trace) == Delivered(s.host.trace)
  {
    AlwaysTogether(labels);
    AlwaysCounted(labels);
    var s := ComposedRenderer.Run(labels);
    RenderedIsEnded(s.firewall.trace);
    if s.host.current.None? {
      NothingOutstanding(s);
    }
  }

  lemma {:induction false} NothingOutstanding(s: ComposedRenderer.State)
    requires Together(s) && s.host.current.None?
    ensures s.firewall.render.Idle? && Watched(s.firewall.trace).successes == 0
  {
    hide Watched, H.Observed;
    assert HP.BusyOf(s.host) == H.Observed(s.host.trace).busy;
  }

  lemma {:induction false} AlwaysCounted(labels: seq<ComposedRenderer.Label>)
    ensures Counted(ComposedRenderer.Run(labels))
  {
    hide Together, Counted;
    if labels == [] {
      InitiallyCounted();
    } else {
      AlwaysCounted(labels[..|labels| - 1]);
      AlwaysTogether(labels[..|labels| - 1]);
      var s := ComposedRenderer.Run(labels[..|labels| - 1]);
      var l := labels[|labels| - 1];
      if ComposedRenderer.Enabled(s, l) {
        StepCounts(s, l);
      }
    }
  }

  lemma InitiallyCounted()
    ensures Counted(ComposedRenderer.Initial())
  {
  }

  // ---- Every call returns -----------------------------------------------------------------------

  /** How many places a call may still visit. */
  function PlacesLeft(pc: Pc): nat
  {
    match pc
    case PrepPrimary => 9
    case PrepFallback => 8
    case Reset => 7
    case MountPrimary => 6
    case DropPrimary => 5
    case AbortPrimary => 1
    case MountFallback => 4
    case FallbackMounted => 3
    case AbortFallback => 1
    case FailMount => 1
    case AwaitMount => 6
    case RenderPrimary => 5
    case FailoverDrop => 4
    case RenderMountFallback => 3
    case RenderFallbackMounted => 2
    case RenderFallback => 1
    case DisposeAwait => 3
    case DisposePrimary => 2
    case DisposeFallback => 1
  }

  function Rank(t: Thread): nat
  {
    if t.At? then 2 * PlacesLeft(t.pc) + (if t.op.Waiting? then 1 else 0) else 0
  }

  function Caller(f: F.State): Entry
  {
    if !f.mount.Idle? then TheMount else if !f.render.Idle? then TheRender else TheDispose
  }

  /** What the firewall does next inside a call, when the inner operation fails. */
  function NextMove(f: F.State): F.Label
  {
    if ThreadOf(f, Caller(f)).At? && ThreadOf(f, Caller(f)).op.Waiting? then Settles(Caller(f), false)
    else Resumes(Caller(f))
  }

  lemma {:induction false} SettleCloser(f: F.State, e: Entry, ok: bool)
    requires Exclusive(f) && F.Enabled(f, Settles(e, ok))
    ensures Running(f).At? && Rank(Running(Settle(f, e, ok))) < Rank(Running(f))
  {
  }

  lemma {:induction false} MountCloser(f: F.State)
    requires Exclusive(f) && f.mount.At? && f.mount.op.Back? && MountPlace(f, Watched(f.trace), f.mount.pc, f.mount.op)
    ensures Running(f).At? && Rank(Running(ResumeMount(f))) < Rank(Running(f))
  {
    hide Watched, OnPrimary, OnFallback;
  }

  lemma {:induction false} RenderCloser(f: F.State)
    requires Exclusive(f) && f.render.At? && f.render.op.Back? && RenderPlace(f, Watched(f.trace), f.render.pc, f.render.op)
    ensures Running(f).At? && Rank(Running(ResumeRender(f))) < Rank(Running(f))
  {
    hide Watched, OnPrimary, OnFallback;
  }

  lemma {:induction false} DisposeCloser(f: F.State)
    requires Exclusive(f) && f.dispose.At? && f.dispose.op.Back? && DisposePlace(f, Watched(f.trace), f.dispose.pc, f.dispose.op)
    ensures Running(f).At? && Rank(Running(ResumeDispose(f))) < Rank(Running(f))
  {
    hide Watched;
  }

  lemma {:induction false} MoveCloser(f: F.State, l: F.Label)
    requires Inv(f, Watched(f.trace)) && (l.Settles? || l.Resumes?) && F.Enabled(f, l)
    ensures Running(f).At? && Rank(Running(F.Step(f, l))) < Rank(Running(f))
  {
    hide Watched, MountPlace, RenderPlace, DisposePlace, Ledger, ResumeMount, ResumeRender, ResumeDispose, Settle, Rank;
    match l
    case Settles(e, ok) => SettleCloser(f, e, ok);
    case Resumes(e) =>
      match e {
        case TheMount => MountCloser(f);
        case TheRender => RenderCloser(f);
        case TheDispose => DisposeCloser(f);
      }
  }

  /** Main result: a call of the host is never stuck in the firewall.  While it has not returned,
      the firewall can move, and every move brings it closer to its result, whatever the inner
      renderers answer. */
  lemma {:induction false} CallsReturn(labels: seq<ComposedRenderer.Label>, l: F.Label)
    ensures var s := ComposedRenderer.Run(labels);
            && (H.Observed(s.host.trace).busy.Some? ==>
                  Running(s.firewall).Finished? || ComposedRenderer.Enabled(s, FirewallMoves(NextMove(s.firewall))))
            && (ComposedRenderer.Enabled(s, FirewallMoves(l)) ==>
                  Rank(Running(F.Step(s.firewall, l))) < Rank(Running(s.firewall)))
  {
    hide H.Observed, Watched, HP.Good, ComposedRenderer.Run;
    AlwaysTogether(labels);
    var s := ComposedRenderer.Run(labels);
    if ComposedRenderer.Enabled(s, FirewallMoves(l)) {
      MoveCloser(s.firewall, l);
    }
  }
}
