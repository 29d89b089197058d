/** A candidate's first render, from the controller's call to what its host made of it. */
module BindingFirstRender {
  import opened Common
  import opened BindingHosts
  import opened BindingHostsProof
  import C = RuntimeBinding
  import CP = RuntimeBindingProof
  import H = RendererHost
  import HP = RendererHostProof

  // ---- One host ---------------------------------------------------------------------------------

  /** A host that is mounted once, and refuses or accepts each render call once. */
  ghost predicate OneFate(h: H.State) {
    && h.mounts == 1
    && (0 in h.outcomes && h.outcomes[0] ==> h.phase.Mounted? || h.phase.Disposed?)
    && (forall j: H.Job :: j in h.waiters ==> j < h.calls)
    && (forall j: H.Job :: H.Accepted(j) in h.trace || H.Rejected(j) in h.trace ==> j < h.calls && j !in h.waiters)
    && (forall j: H.Job :: H.Accepted(j) in h.trace ==> H.Rejected(j) !in h.trace)
    && (forall j: H.Job :: H.Dropped(j) in h.trace ==> h.phase.Disposed?)
  }

  /** What a host never takes back. */
  ghost predicate Remembers(was: H.State, now: H.State) {
    && (0 in was.outcomes && was.outcomes[0] ==> 0 in now.outcomes && now.outcomes[0])
    && (forall j: H.Job :: H.Accepted(j) in was.trace ==> H.Accepted(j) in now.trace)
  }

  lemma {:induction false} HostKeepsFate(h: H.State, l: H.Label)
    requires HP.Phases(h) && OneFate(h) && H.Enabled(h, l) && !l.Mount?
    ensures OneFate(H.Step(h, l)) && Remembers(h, H.Step(h, l))
  {
    match l
    case MountSettle(ok) =>
    case Render =>
    case WaiterResume(job) =>
    case JobStart =>
    case JobSettle(ok) =>
    case Dispose =>
    case DisposalResume =>
    case DisposeSettle =>
  }

  lemma FreshFate()
    ensures OneFate(Fresh())
  {
  }

  lemma PhasesOf(h: H.State)
    requires HP.Good(h)
    ensures HP.Phases(h)
  {
  }

  lemma {:induction false} FollowKeepsFate(h: H.State, was: C.HostStatus, now: C.HostStatus, rendered: bool)
    requires Linked(h, was) && OneFate(h)
    requires now == was || (was.Open? && now.Disposing?) || (was.Disposing? && now.Settled? && h.disposal.Invoked?)
    ensures OneFate(Follow(h, was, now, rendered)) && Remembers(h, Follow(h, was, now, rendered))
  {
    hide HP.Good, OneFate, Remembers, HP.Phases, H.CallDispose, H.DisposeSettles, H.CallRender;
    PhasesOf(h);
    StaysRemembered(h);
    if was.Open? && now.Disposing? {
      HostKeepsFate(h, H.Dispose);
    } else if was.Disposing? && now.Settled? {
      HostKeepsFate(h, H.DisposeSettle);
    } else if rendered {
      HostKeepsFate(h, H.Render);
    }
  }

  lemma StaysRemembered(h: H.State)
    ensures Remembers(h, h)
  {
  }

  /** An open host whose mount succeeded accepts the render call made now. */
  lemma OpenHostAccepts(h: H.State)
    requires Linked(h, C.Open) && OneFate(h) && 0 in h.outcomes && h.outcomes[0]
    ensures H.Accepted(h.calls) in Follow(h, C.Open, C.Open, true).trace
  {
    hide H.Observed, H.JobsOf;
  }

  // ---- The rebinds --------------------------------------------------------------------------------

  /** How one rebind got where it is in one step. */
  predicate Advances(was: C.State, now: C.State, l: C.Label, g: C.Binding)
    requires g in now.rebinds
  {
    || (g in was.rebinds && now.rebinds[g] == was.rebinds[g])
    || now.rebinds[g].AwaitRetirement? || now.rebinds[g].AwaitMount?
    || (now.rebinds[g].AwaitInitial? && l == C.OnMove(C.MountDone(g, true)))
    || (&& now.rebinds[g].AwaitFirstRender? && FirstRenderOf(was, l) == Some(g)
        && g in was.rebinds && was.rebinds[g].AwaitInitial? && C.IsCurrentBinding(was, g)
        && now.hosts == was.hosts && now.trace == was.trace + [C.Delivered(g)])
  }

  lemma {:induction false} CommandAdvances(s: C.State, c: C.Command, g: C.Binding)
    requires C.CommandEnabled(s, c) && g in C.CommandStep(s, c).rebinds
    ensures Advances(s, C.CommandStep(s, c), C.OnCommand(c), g)
  {
    hide C.IsCurrentBinding, FirstRenderOf;
  }

  lemma DisposingKeepsRebinds(s: C.State, b: Option<C.Binding>)
    ensures C.DisposeHost(s, b).rebinds == s.rebinds
  {
  }

  lemma FailingKeepsRebinds(s: C.State, g: C.Binding)
    ensures C.RebindFails(s, g).rebinds == s.rebinds - {g}
  {
  }

  /** What the end of the initial presentation does to the rebinds. */
  lemma {:induction false} InitialMoves(s: C.State, b: C.Binding, provided: C.Provided)
    requires C.MoveEnabled(s, C.InitialDone(b, provided))
    ensures var t := C.InitialEnds(s, b, provided);
            || t.rebinds == s.rebinds - {b}
            || (&& t.rebinds == s.rebinds[b := C.AwaitFirstRender] && C.IsCurrentBinding(s, b)
                && t.hosts == s.hosts && t.trace == s.trace + [C.Delivered(b)])
  {
    hide C.DisposeHost, C.RebindFails, C.IsCurrentBinding;
    DisposingKeepsRebinds(s.(rebinds := s.rebinds - {b}), Some(b));
    FailingKeepsRebinds(s, b);
  }

  lemma {:induction false} InitialAdvances(s: C.State, m: C.Move, g: C.Binding)
    requires m.InitialDone? && C.MoveEnabled(s, m) && g in C.MoveStep(s, m).rebinds
    ensures Advances(s, C.MoveStep(s, m), C.OnMove(m), g)
  {
    hide C.InitialEnds, C.IsCurrentBinding;
    InitialMoves(s, m.binding, m.provided);
  }

  lemma {:induction false} MoveAdvances(s: C.State, m: C.Move, g: C.Binding)
    requires C.MoveEnabled(s, m) && g in C.MoveStep(s, m).rebinds
    ensures Advances(s, C.MoveStep(s, m), C.OnMove(m), g)
  {
    hide C.DisposeHost, C.RebindFails, C.IsCurrentBinding, FirstRenderOf;
    if m.InitialDone? {
      InitialAdvances(s, m, g);
    } else {
      match m
      case RetireStart => DisposingKeepsRebinds(s, s.retirements[s.retired]);
      case MountDone(b, _) =>
        DisposingKeepsRebinds(s.(rebinds := s.rebinds - {b}), Some(b));
        FailingKeepsRebinds(s, b);
      case FirstRenderDone(b, _) => FailingKeepsRebinds(s, b);
      case _ =>
    }
  }

  lemma {:induction false} NextAdvances(s: C.State, l: C.Label, g: C.Binding)
    requires g in C.Next(s, l).rebinds
    ensures Advances(s, C.Next(s, l), l, g)
  {
    hide Advances, C.CommandStep, C.MoveStep, C.CommandEnabled, C.MoveEnabled;
    Stays(s, l, g);
    match l
    case OnCommand(c) => if C.CommandEnabled(s, c) { CommandAdvances(s, c, g); }
    case OnMove(m) => if C.MoveEnabled(s, m) { MoveAdvances(s, m, g); }
  }

  lemma Stays(s: C.State, l: C.Label, g: C.Binding)
    ensures g in s.rebinds ==> Advances(s, s, l, g)
  {
  }

  // ---- The product ----------------------------------------------------------------------------------

  /** The host of a rebind that is past its mount did mount, and has accepted its first render. */
  ghost predicate OnTrack(rebind: C.Rebind, g: C.Binding, hosts: map<C.Binding, H.State>, first: map<C.Binding, H.Job>) {
    && (rebind.AwaitInitial? || rebind.AwaitFirstRender? ==>
          g in hosts && 0 in hosts[g].outcomes && hosts[g].outcomes[0])
    && (rebind.AwaitFirstRender? ==> g in first && H.Accepted(first[g]) in hosts[g].trace)
  }

  ghost predicate Started(s: State) {
    && (forall b :: b in s.hosts ==> OneFate(s.hosts[b]))
    && (forall g :: g in s.controller.rebinds ==> OnTrack(s.controller.rebinds[g], g, s.hosts, s.firstRender))
  }

  lemma {:induction false} HostMoveStarted(s: State, b: C.Binding, l: H.Label)
    requires Together(s) && Started(s) && HostEnabled(s, b, l)
    ensures Started(Step(s, HostMoves(b, l)))
  {
    hide CP.Good, HP.Good, HP.Phases, H.Step, H.Enabled, OneFate;
    PhasesOf(s.hosts[b]);
    HostKeepsFate(s.hosts[b], l);
  }

  /** Every host of the step's outcome is fresh or remembers what it was. */
  lemma {:induction false} HostsRemember(s: State, l: C.Label, b: C.Binding)
    requires Together(s) && Started(s) && ControllerEnabled(s, l) && b in Step(s, ControllerMoves(l)).hosts
    ensures OneFate(Step(s, ControllerMoves(l)).hosts[b])
    ensures b in s.hosts ==> Remembers(s.hosts[b], Step(s, ControllerMoves(l)).hosts[b])
  {
    hide CP.Good, Linked, Follow, C.CommandStep, C.MoveStep, Fresh, OneFate, Remembers, FirstRenderOf, RenderSettled;
    var next := C.Next(s.controller, l);
    ThreadsOf(s.controller);
    match l {
      case OnCommand(c) => CommandMovesStatuses(s.controller, c);
      case OnMove(m) => MoveMovesStatuses(s.controller, m);
    }
    FreshFate();
    if b in s.hosts {
      FollowKeepsFate(s.hosts[b], s.controller.hosts[b], next.hosts[b], next.trace == s.controller.trace + [C.Delivered(b)]);
    }
  }

  lemma {:induction false} HostsStay(s: State, l: C.Label, g: C.Binding)
    requires Together(s) && ControllerEnabled(s, l) && g in s.hosts
    ensures g in Step(s, ControllerMoves(l)).hosts
  {
    hide CP.Good, Linked, Follow, C.CommandStep, C.MoveStep, Fresh, FirstRenderOf, RenderSettled;
    ThreadsOf(s.controller);
    match l {
      case OnCommand(c) => CommandMovesStatuses(s.controller, c);
      case OnMove(m) => MoveMovesStatuses(s.controller, m);
    }
  }

  lemma CurrentIsOpen(s: C.State, g: C.Binding)
    requires CP.Good(s) && C.IsCurrentBinding(s, g)
    ensures g in s.hosts && s.hosts[g].Open?
  {
    hide C.Watched;
  }

  /** The step that makes the first render call. */
  lemma {:induction false} FirstCallAccepted(s: State, l: C.Label, g: C.Binding)
    requires Together(s) && Started(s) && ControllerEnabled(s, l) && FirstRenderOf(s.controller, l) == Some(g)
    requires g in s.controller.rebinds && s.controller.rebinds[g].AwaitInitial? && C.IsCurrentBinding(s.controller, g)
    requires var now := C.Next(s.controller, l);
             now.hosts == s.controller.hosts && now.trace == s.controller.trace + [C.Delivered(g)]
    ensures var t := Step(s, ControllerMoves(l));
            g in t.firstRender && g in t.hosts && H.Accepted(t.firstRender[g]) in t.hosts[g].trace
  {
    hide CP.Good, Linked, Follow, C.Next, OneFate, FirstRenderOf, ControllerEnabled, C.IsCurrentBinding;
    CurrentIsOpen(s.controller, g);
    assert OnTrack(s.controller.rebinds[g], g, s.hosts, s.firstRender);
    OpenHostAccepts(s.hosts[g]);
  }

  lemma {:induction false} RebindOnTrack(s: State, l: C.Label, g: C.Binding)
    requires Together(s) && Started(s) && ControllerEnabled(s, l) && g in C.Next(s.controller, l).rebinds
    ensures var t := Step(s, ControllerMoves(l)); OnTrack(t.controller.rebinds[g], g, t.hosts, t.firstRender)
  {
    hide CP.Good, C.Next, OneFate, FirstRenderOf, Hosts, Linked, RenderSettled;
    NextAdvances(s.controller, l, g);
    var now := C.Next(s.controller, l);
    if g in s.hosts {
      HostsStay(s, l, g);
      HostsRemember(s, l, g);
    }
    if now.rebinds[g].AwaitFirstRender? && !(g in s.controller.rebinds && now.rebinds[g] == s.controller.rebinds[g]) {
      assert OnTrack(s.controller.rebinds[g], g, s.hosts, s.firstRender);
      FirstCallAccepted(s, l, g);
    } else if g in s.controller.rebinds {
      assert OnTrack(s.controller.rebinds[g], g, s.hosts, s.firstRender);
      if s.controller.rebinds[g].AwaitFirstRender? {
        FirstCallIsOnce(s, l, g);
      }
    }
  }

  /** A candidate already waiting for its first render makes no other first call. */
  lemma FirstCallIsOnce(s: State, l: C.Label, g: C.Binding)
    requires ControllerEnabled(s, l) && g in s.controller.rebinds && s.controller.rebinds[g].AwaitFirstRender?
    ensures FirstRenderOf(s.controller, l) != Some(g)
  {
  }

  lemma {:induction false} AlwaysStarted(labels: seq<Label>)
    ensures Started(Run(labels))
  {
    hide Together, ControllerEnabled, HostEnabled, OneFate, OnTrack, CP.Good;
    if labels != [] {
      var s := Run(labels[..|labels| - 1]);
      AlwaysTogether(labels[..|labels| - 1]);
      AlwaysStarted(labels[..|labels| - 1]);
      match labels[|labels| - 1]
      case ControllerMoves(l) =>
        if ControllerEnabled(s, l) {
          ControllerMoveStarted(s, l);
        }
      case HostMoves(b, h) =>
        if HostEnabled(s, b, h) {
          HostMoveStarted(s, b, h);
        }
    }
  }

  lemma {:induction false} ControllerMoveStarted(s: State, l: C.Label)
    requires Together(s) && Started(s) && ControllerEnabled(s, l)
    ensures Started(Step(s, ControllerMoves(l)))
  {
    hide Together, ControllerEnabled, OneFate, OnTrack, Remembers;
    var t := Step(s, ControllerMoves(l));
    forall b | b in t.hosts ensures OneFate(t.hosts[b]) {
      HostsRemember(s, l, b);
    }
    forall g | g in t.controller.rebinds ensures OnTrack(t.controller.rebinds[g], g, t.hosts, t.firstRender) {
      RebindOnTrack(s, l, g);
    }
  }

  /** Main result: in every run the first render of a candidate was accepted by its host.  When the
      rebind learns its outcome, a success was delivered to and finished by the renderer, and a
      failure was the renderer's own unless the host has been disposed meanwhile. */
  lemma {:induction false} FirstRenderTells(labels: seq<Label>, g: C.Binding, ok: bool)
    requires ControllerEnabled(Run(labels), C.OnMove(C.FirstRenderDone(g, ok)))
    ensures var s := Run(labels);
            && g in s.hosts && g in s.firstRender
            && var tr, job := s.hosts[g].trace, s.firstRender[g];
               && H.Accepted(job) in tr
               && (ok ==> H.RenderDone(job, true) in tr)
               && (!ok && StatusOf(s.hosts[g]).Open? ==> H.RenderDone(job, false) in tr)
  {
    hide Run, HP.Good, CP.Good, H.Observed;
    AlwaysTogether(labels);
    AlwaysStarted(labels);
    var s := Run(labels);
    assert OnTrack(s.controller.rebinds[g], g, s.hosts, s.firstRender);
    if StatusOf(s.hosts[g]).Open? {
      OpenIsNotDisposed(s.hosts[g], s.controller.hosts[g]);
    }
  }

  lemma OpenIsNotDisposed(h: H.State, status: C.HostStatus)
    requires Linked(h, status) && StatusOf(h).Open?
    ensures !h.phase.Disposed?
  {
    hide H.Observed, H.JobsOf;
  }
}
