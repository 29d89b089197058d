/** The renderer host driving the presentation firewall.

    The renderer that `BodyRendererHost` owns is a `FallbackBodyRenderer`: each call of the host
    starts the matching entry point, and the host sees exactly the result of that entry point.
    The two inner renderers remain free. */
module ComposedRenderer {
  import opened Common
  import H = RendererHost
  import F = FallbackRenderer

  datatype State = State(host: H.State, firewall: F.State)

  datatype Label =
    | HostMoves(host: H.Label)
    | FirewallMoves(firewall: F.Label)

  function Initial(): State
  {
    State(H.Initial(), F.Initial())
  }

  /** A host step that waits for the firewall needs its result; the firewall moves on its own
      only inside a call. */
  predicate Enabled(s: State, l: Label) {
    match l
    case HostMoves(h) =>
      && H.Enabled(s.host, h)
      && (h.MountSettle? ==> s.firewall.mount == F.Finished(h.ok))
      && (h.JobSettle? ==> s.firewall.render == F.Finished(h.ok))
      && (h.DisposeSettle? ==> s.firewall.dispose.Finished?)
    case FirewallMoves(f) => (f.Settles? || f.Resumes?) && F.Enabled(s.firewall, f)
  }

  /** What a call or a return at the boundary does to the firewall. */
  function React(f: F.State, e: H.Event): F.State
  {
    match e
    case MountCalled(host) => F.CallMount(f, host)
    case RenderCalled(_) => F.CallRender(f)
    case DisposeCalled => F.CallDispose(f)
    case MountDone(_) => F.Take(f, F.TheMount)
    case RenderDone(_, _) => F.Take(f, F.TheRender)
    case DisposeDone => F.Take(f, F.TheDispose)
    case _ => f
  }

  function Step(s: State, l: Label): State
    requires Enabled(s, l)
  {
    match l
    case HostMoves(h) =>
      var host := H.Step(s.host, h);
      State(host,
            if |host.trace| > |s.host.trace| then React(s.firewall, host.trace[|host.trace| - 1]) else s.firewall)
    case FirewallMoves(f) => State(s.host, F.Step(s.firewall, f))
  }

  function Run(labels: seq<Label>): State
  {
    if labels == [] then Initial()
    else
      var s := Run(labels[..|labels| - 1]);
      var l := labels[|labels| - 1];
      if Enabled(s, l) then Step(s, l) else s
  }
}

module ComposedRendererProof {
  import opened Common
  import opened ComposedRenderer
  import H = RendererHost
  import HP = RendererHostProof
  import opened F = FallbackRenderer
  import opened FallbackInvariant

  /** The firewall is inside a call exactly when the host is waiting for one. */
  predicate Linked(f: F.State, d: H.Discipline) {
    && (d.busy.None? <==> AllIdle(f))
    && (d.busy == Some(H.MountCall) <==> !f.mount.Idle?)
    && (d.busy.Some? && d.busy.value.RenderCall? <==> !f.render.Idle?)
    && (d.busy == Some(H.Call.DisposeCall) <==> !f.dispose.Idle?)
    && (d.disposing <==> f.mode.Disposed?)
    && (d.busy.None? && !d.disposing ==> (d.mounted <==> f.mode.Primary? || f.mode.Fallback?))
    && (d.busy.Some? && d.busy.value.RenderCall? ==> d.mounted)
  }

  ghost predicate Together(s: ComposedRenderer.State) {
    && HP.Good(s.host)
    && Inv(s.firewall, Watched(s.firewall.trace))
    && Linked(s.firewall, H.Observed(s.host.trace))
  }

  /** A legal event of the host is a call or a return the firewall can take. */
  lemma {:induction false} ReactKeeps(f: F.State, d: H.Discipline, e: H.Event)
    requires Inv(f, Watched(f.trace)) && Linked(f, d) && H.Observe(d, e).legal
    requires e.MountDone? ==> f.mount == Finished(e.ok)
    requires e.RenderDone? ==> f.render == Finished(e.ok)
    requires e.DisposeDone? ==> f.dispose.Finished?
    ensures Inv(React(f, e), Watched(React(f, e).trace)) && Linked(React(f, e), H.Observe(d, e))
  {
    hide Watched;
    match e
    case MountCalled(host) => CallMountKeeps(f, host);
    case RenderCalled(_) => CallRenderKeeps(f);
    case DisposeCalled => CallDisposeKeeps(f);
    case MountDone(_) => TakeKeeps(f, TheMount);
    case RenderDone(_, _) => TakeKeeps(f, TheRender);
    case DisposeDone => TakeKeeps(f, TheDispose);
    case _ =>
  }

  lemma {:induction false} SettleStaysLinked(f: F.State, d: H.Discipline, e: Entry, ok: bool)
    requires Linked(f, d) && F.Enabled(f, Settles(e, ok))
    ensures Linked(Settle(f, e, ok), d)
  {
  }

  lemma {:induction false} MountStaysLinked(f: F.State, d: H.Discipline)
    requires Inv(f, Watched(f.trace)) && Linked(f, d) && f.mount.At? && f.mount.op.Back?
    ensures Linked(ResumeMount(f), d)
  {
    hide Watched, Ledger;
    assert MountPlace(f, Watched(f.trace), f.mount.pc, f.mount.op);
  }

  lemma {:induction false} RenderStaysLinked(f: F.State, d: H.Discipline)
    requires Inv(f, Watched(f.trace)) && Linked(f, d) && f.render.At? && f.render.op.Back?
    ensures Linked(ResumeRender(f), d)
  {
    hide Watched, Ledger;
    assert RenderPlace(f, Watched(f.trace), f.render.pc, f.render.op);
  }

  lemma {:induction false} DisposeStaysLinked(f: F.State, d: H.Discipline)
    requires Inv(f, Watched(f.trace)) && Linked(f, d) && f.dispose.At? && f.dispose.op.Back?
    ensures Linked(ResumeDispose(f), d)
  {
    hide Watched, Ledger;
    assert DisposePlace(f, Watched(f.trace), f.dispose.pc, f.dispose.op);
  }

  /** A thread that continues stays the one thread inside a call, and changes the mode only
      within what its call may do. */
  lemma {:induction false} ResumeStaysLinked(f: F.State, d: H.Discipline, e: Entry)
    requires Inv(f, Watched(f.trace)) && Linked(f, d) && F.Enabled(f, Resumes(e))
    ensures Linked(Resume(f, e), d)
  {
    hide Watched, Inv, Linked, ResumeMount, ResumeRender, ResumeDispose;
    match e
    case TheMount => MountStaysLinked(f, d);
    case TheRender => RenderStaysLinked(f, d);
    case TheDispose => DisposeStaysLinked(f, d);
  }

  lemma {:induction false} FirewallKeeps(f: F.State, d: H.Discipline, l: F.Label)
    requires Inv(f, Watched(f.trace)) && Linked(f, d)
    requires (l.Settles? || l.Resumes?) && F.Enabled(f, l)
    ensures Inv(F.Step(f, l), Watched(F.Step(f, l).trace)) && Linked(F.Step(f, l), d)
  {
    hide Watched, Inv, Linked;
    match l
    case Settles(e, ok) =>
      SettleKeeps(f, e, ok);
      SettleStaysLinked(f, d, e, ok);
    case Resumes(e) =>
      ResumeStaysLinked(f, d, e);
      match e {
        case TheMount => ResumeMountKeeps(f);
        case TheRender => ResumeRenderKeeps(f);
        case TheDispose => ResumeDisposeKeeps(f);
      }
  }

  /** A host step shows the renderer at most one event, and which one is visible in its label. */
  lemma {:induction false} OneEvent(s: H.State, l: H.Label)
    requires H.Enabled(s, l)
    ensures var t := H.Step(s, l).trace;
            t == s.trace
            || (|t| == |s.trace| + 1 && t[..|s.trace|] == s.trace
                && var e := t[|s.trace|];
                   && (e.MountDone? ==> l == H.MountSettle(e.ok))
                   && (e.RenderDone? ==> l == H.JobSettle(e.ok))
                   && (e.DisposeDone? ==> l.DisposeSettle?))
  {
  }

  lemma {:induction false} HostMoveKeeps(s: ComposedRenderer.State, h: H.Label)
    requires Together(s) && ComposedRenderer.Enabled(s, HostMoves(h))
    ensures Together(ComposedRenderer.Step(s, HostMoves(h)))
  {
    hide Inv, Linked, H.Observed, Watched, HP.Good, H.Step, F.Step, React, H.Observe;
    HP.StepKeepsGood(s.host, h);
    OneEvent(s.host, h);
    var t := H.Step(s.host, h).trace;
    if |t| > |s.host.trace| {
      HP.Extends(s.host.trace, t[|s.host.trace|]);
      assert t == s.host.trace + [t[|s.host.trace|]];
      LegalOf(H.Step(s.host, h));
      ReactKeeps(s.firewall, H.Observed(s.host.trace), t[|s.host.trace|]);
    }
  }

  lemma {:induction false} StepKeepsTogether(s: ComposedRenderer.State, l: ComposedRenderer.Label)
    requires Together(s) && ComposedRenderer.Enabled(s, l)
    ensures Together(ComposedRenderer.Step(s, l))
  {
    hide Inv, Linked, H.Observed, Watched, HP.Good, H.Step, F.Step, React;
    match l
    case FirewallMoves(f) => FirewallKeeps(s.firewall, H.Observed(s.host.trace), f);
    case HostMoves(h) => HostMoveKeeps(s, h);
  }

  lemma LegalOf(s: H.State)
    requires HP.Good(s)
    ensures H.Observed(s.trace).legal
  {
  }

  lemma {:induction false} AlwaysTogether(labels: seq<ComposedRenderer.Label>)
    ensures Together(ComposedRenderer.Run(labels))
  {
    hide Inv, Linked, HP.Good, Together;
    if labels == [] {
      HP.AlwaysGood([]);
      InitiallyTogether();
    } else {
      AlwaysTogether(labels[..|labels| - 1]);
      var s := ComposedRenderer.Run(labels[..|labels| - 1]);
      var l := labels[|labels| - 1];
      if ComposedRenderer.Enabled(s, l) {
        StepKeepsTogether(s, l);
      }
    }
  }

  lemma {:induction false} InitiallyTogether()
    ensures Together(ComposedRenderer.Initial())
  {
    hide Inv, HP.Good, H.Observe;
    HP.AlwaysGood([]);
    InitiallyInv();
  }

  /** Main result: driven by the host, the firewall never mistreats an inner renderer.  In every
      run the primary's disposal has settled before the fallback is mounted, the primary is not
      rendered again in a lifetime after a failure, at most one inner operation is outstanding,
      every render that succeeds reached exactly one inner renderer successfully and a failed one
      reached none, and a new lifetime or a settled disposal finds every mounted renderer disposed. */
  lemma {:induction false} FirewallIsSafe(labels: seq<ComposedRenderer.Label>)
    ensures Watched(ComposedRenderer.Run(labels).firewall.trace).legal
  {
    AlwaysTogether(labels);
  }
}
