/** The binding controller driving one renderer host per binding.

    The controller's calls are the calls its hosts see: a candidate's mount starts a fresh host, the
    first dispose call disposes it, a delivery is a render call.  The controller waits for exactly
    what the host makes settle: a candidate's mount, its first render, and a disposal. */
module BindingHosts {
  import opened Common
  import C = RuntimeBinding
  import H = RendererHost

  /** `firstRender` is the host's number of the render call a candidate's rebind waits for. */
  datatype State = State(controller: C.State, hosts: map<C.Binding, H.State>, firstRender: map<C.Binding, H.Job>)

  datatype Label =
    | ControllerMoves(controller: C.Label)
    | HostMoves(binding: C.Binding, host: H.Label)

  function Initial(): State
  {
    State(C.Initial(), map[], map[])
  }

  /** A host that stands by itself moves on: what it awaits settles, and its queue advances. */
  predicate HostEnabled(s: State, b: C.Binding, l: H.Label) {
    && b in s.hosts && H.Enabled(s.hosts[b], l)
    && !l.Mount? && !l.Render? && !l.Dispose? && !l.DisposeSettle?
  }

  /** How the promise of a render call settled: delivered and done, or failed, refused or dropped. */
  predicate RenderSettled(trace: seq<H.Event>, job: H.Job, ok: bool) {
    if ok then H.RenderDone(job, true) in trace
    else H.RenderDone(job, false) in trace || H.Rejected(job) in trace || H.Dropped(job) in trace
  }

  predicate ControllerEnabled(s: State, l: C.Label) {
    match l
    case OnCommand(c) => C.CommandEnabled(s.controller, c)
    case OnMove(m) =>
      && C.MoveEnabled(s.controller, m)
      && (m.HostSettle? ==> m.binding in s.hosts && s.hosts[m.binding].disposal.Invoked?)
      && (m.MountDone? ==> m.binding in s.hosts && 0 in s.hosts[m.binding].outcomes && s.hosts[m.binding].outcomes[0] == m.ok)
      && (m.FirstRenderDone? ==> m.binding in s.hosts && m.binding in s.firstRender
                                 && RenderSettled(s.hosts[m.binding].trace, s.firstRender[m.binding], m.ok))
  }

  /** What one controller step means for a host that exists. */
  function Follow(h: H.State, was: C.HostStatus, now: C.HostStatus, rendered: bool): H.State
  {
    if was.Open? && now.Disposing? then H.CallDispose(h)
    else if was.Disposing? && now.Settled? then H.DisposeSettles(h)
    else if rendered then H.CallRender(h)
    else h
  }

  /** A fresh host, mounted at once. */
  function Fresh(): H.State
  {
    H.CallMount(H.Initial(), 0)
  }

  function Hosts(hosts: map<C.Binding, H.State>, was: C.State, now: C.State): map<C.Binding, H.State>
  {
    map b | b in now.hosts ::
      if b in hosts && b in was.hosts
      then Follow(hosts[b], was.hosts[b], now.hosts[b], now.trace == was.trace + [C.Delivered(b)])
      else Fresh()
  }

  /** The candidate whose first render call this step makes, if any. */
  function FirstRenderOf(was: C.State, l: C.Label): Option<C.Binding>
  {
    match l
    case OnMove(InitialDone(g, _)) =>
      var now := C.Next(was, l);
      if g in now.rebinds && now.rebinds[g].AwaitFirstRender? then Some(g) else None
    case _ => None
  }

  function FirstRenders(s: State, l: C.Label): map<C.Binding, H.Job>
  {
    var g := FirstRenderOf(s.controller, l);
    if g.Some? && g.value in s.hosts then s.firstRender[g.value := s.hosts[g.value].calls] else s.firstRender
  }

  function Step(s: State, l: Label): State
  {
    match l
    case ControllerMoves(c) =>
      if ControllerEnabled(s, c)
      then State(C.Next(s.controller, c), Hosts(s.hosts, s.controller, C.Next(s.controller, c)), FirstRenders(s, c))
      else s
    case HostMoves(b, h) =>
      if HostEnabled(s, b, h) then s.(hosts := s.hosts[b := H.Step(s.hosts[b], h)]) else s
  }

  function Run(labels: seq<Label>): State
  {
    if labels == [] then Initial() else Step(Run(labels[..|labels| - 1]), labels[|labels| - 1])
  }

  /** What the controller's stand-in says about a host. */
  function StatusOf(h: H.State): C.HostStatus
  {
    if h.disposal.NotDisposing? then C.Open else if h.disposal.Settled? then C.Settled else C.Disposing
  }
}

module BindingHostsProof {
  import opened Common
  import opened BindingHosts
  import C = RuntimeBinding
  import CP = RuntimeBindingProof
  import CT = RuntimeBindingTheorems
  import H = RendererHost
  import HP = RendererHostProof

  /** The stand-in refines the host: the first dispose call, its settlement, and nothing else. */
  lemma {:induction false} HostRefinesStatus(h: H.State, l: H.Label)
    requires HP.Good(h) && H.Enabled(h, l)
    ensures var was, now := StatusOf(h), StatusOf(H.Step(h, l));
            now == if l.Dispose? && was.Open? then C.Disposing else if l.DisposeSettle? then C.Settled else was
  {
    hide H.Observed, H.JobsOf;
  }

  /** How the stand-ins of one controller step change. */
  ghost predicate StatusesMove(was: C.State, now: C.State, l: C.Label) {
    forall b :: b in now.hosts ==>
      if b !in was.hosts then now.hosts[b].Open?
      else || now.hosts[b] == was.hosts[b]
           || (was.hosts[b].Open? && now.hosts[b].Disposing?)
           || (was.hosts[b].Disposing? && now.hosts[b].Settled? && l == C.OnMove(C.HostSettle(b)))
  }

  lemma {:induction false} CommandMovesStatuses(s: C.State, c: C.Command)
    requires C.CommandEnabled(s, c)
    ensures StatusesMove(s, C.CommandStep(s, c), C.OnCommand(c)) && s.hosts.Keys <= C.CommandStep(s, c).hosts.Keys
  {
  }

  lemma {:induction false} DisposeMovesStatuses(s: C.State, b: Option<C.Binding>, l: C.Label)
    ensures StatusesMove(s, C.DisposeHost(s, b), l) && s.hosts.Keys <= C.DisposeHost(s, b).hosts.Keys
  {
  }

  /** Disposing looks at the hosts alone. */
  lemma DisposeOnlyHosts(s: C.State, t: C.State, b: Option<C.Binding>)
    requires s.hosts == t.hosts
    ensures C.DisposeHost(s, b).hosts == C.DisposeHost(t, b).hosts
  {
  }

  lemma {:induction false} FailMovesStatuses(s: C.State, g: C.Binding, l: C.Label)
    ensures StatusesMove(s, C.RebindFails(s, g), l) && s.hosts.Keys <= C.RebindFails(s, g).hosts.Keys
  {
    hide C.DisposeHost;
    DisposeMovesStatuses(s, Some(g), l);
    var held := s.activeBinding == Some(g) || s.pendingBinding == Some(g);
    DisposeOnlyHosts(s, s.(rebinds := s.rebinds - {g},
                           pendingBinding := if s.pendingBinding == Some(g) then None else s.pendingBinding,
                           activeBinding := if s.activeBinding == Some(g) then None else s.activeBinding,
                           trace := if held then s.trace + [C.Failed(g)] else s.trace), Some(g));
  }

  /** A candidate that is past its retirement: it fails, drops itself, or goes on. */
  lemma {:induction false} CandidateMovesStatuses(s: C.State, g: C.Binding, l: C.Label)
    ensures StatusesMove(s, C.RebindFails(s, g), l) && s.hosts.Keys <= C.RebindFails(s, g).hosts.Keys
    ensures var t := C.DisposeHost(s.(rebinds := s.rebinds - {g}), Some(g));
            StatusesMove(s, t, l) && s.hosts.Keys <= t.hosts.Keys
  {
    hide C.DisposeHost, C.RebindFails;
    FailMovesStatuses(s, g, l);
    DisposeMovesStatuses(s, Some(g), l);
    DisposeOnlyHosts(s, s.(rebinds := s.rebinds - {g}), Some(g));
  }

  lemma {:induction false} TailMovesStatuses(s: C.State, m: C.Move)
    requires C.MoveEnabled(s, m) && CP.Threads(s) && (m.RetireStart? || m.RetireEnd? || m.RetirementDone? || m.HostSettle?)
    ensures StatusesMove(s, C.MoveStep(s, m), C.OnMove(m)) && s.hosts.Keys <= C.MoveStep(s, m).hosts.Keys
  {
    hide C.DisposeHost;
    if m.RetireStart? {
      DisposeMovesStatuses(s, s.retirements[s.retired], C.OnMove(m));
    }
  }

  lemma {:induction false} MoveMovesStatuses(s: C.State, m: C.Move)
    requires C.MoveEnabled(s, m) && CP.Threads(s)
    ensures StatusesMove(s, C.MoveStep(s, m), C.OnMove(m)) && s.hosts.Keys <= C.MoveStep(s, m).hosts.Keys
  {
    hide C.DisposeHost, C.RebindFails, C.IsCurrentBinding, CP.Threads, C.RetireStarts, C.RebindMounts, C.HostSettles;
    match m
    case MountDone(g, _) => CandidateMovesStatuses(s, g, C.OnMove(m));
    case InitialDone(g, _) => CandidateMovesStatuses(s, g, C.OnMove(m));
    case FirstRenderDone(g, _) => CandidateMovesStatuses(s, g, C.OnMove(m));
    case _ => TailMovesStatuses(s, m);
  }

  ghost predicate Linked(h: H.State, status: C.HostStatus) {
    HP.Good(h) && StatusOf(h) == status
  }

  ghost predicate Together(s: State) {
    && CP.Good(s.controller)
    && s.hosts.Keys == s.controller.hosts.Keys
    && forall b :: b in s.hosts ==> Linked(s.hosts[b], s.controller.hosts[b])
  }

  lemma {:induction false} FreshIsLinked()
    ensures Linked(Fresh(), C.Open)
  {
    hide HP.Good, H.Step;
    HP.AlwaysGood([]);
    HP.StepKeepsGood(H.Initial(), H.Mount(0));
    FreshIsStep();
  }

  lemma FreshIsStep()
    ensures Fresh() == H.Step(H.Initial(), H.Mount(0)) && StatusOf(Fresh()) == C.Open
  {
  }

  lemma {:induction false} FollowStaysLinked(h: H.State, was: C.HostStatus, now: C.HostStatus, rendered: bool)
    requires Linked(h, was)
    requires now == was || (was.Open? && now.Disposing?) || (was.Disposing? && now.Settled? && h.disposal.Invoked?)
    ensures Linked(Follow(h, was, now, rendered), now)
  {
    hide HP.Good, H.CallDispose, H.CallRender, H.DisposeSettles;
    if was.Open? && now.Disposing? {
      HP.StepKeepsGood(h, H.Dispose);
      HostRefinesStatus(h, H.Dispose);
    } else if was.Disposing? && now.Settled? {
      HP.StepKeepsGood(h, H.DisposeSettle);
      HostRefinesStatus(h, H.DisposeSettle);
    } else if rendered {
      HP.StepKeepsGood(h, H.Render);
      HostRefinesStatus(h, H.Render);
    }
  }

  lemma {:induction false} ControllerKeeps(s: State, l: C.Label)
    requires Together(s) && ControllerEnabled(s, l)
    ensures Together(Step(s, ControllerMoves(l)))
  {
    hide CP.Good, Linked, Follow, C.CommandStep, C.MoveStep, Fresh;
    var next := C.Next(s.controller, l);
    ThreadsOf(s.controller);
    match l {
      case OnCommand(c) =>
        CP.CommandKeeps(s.controller, c);
        CommandMovesStatuses(s.controller, c);
      case OnMove(m) =>
        CP.MoveKeeps(s.controller, m);
        MoveMovesStatuses(s.controller, m);
    }
    FreshIsLinked();
    forall b | b in next.hosts && b in s.controller.hosts
      ensures Linked(Follow(s.hosts[b], s.controller.hosts[b], next.hosts[b], next.trace == s.controller.trace + [C.Delivered(b)]), next.hosts[b])
    {
      FollowStaysLinked(s.hosts[b], s.controller.hosts[b], next.hosts[b], next.trace == s.controller.trace + [C.Delivered(b)]);
    }
  }

  lemma ThreadsOf(s: C.State)
    requires CP.Good(s)
    ensures CP.Threads(s)
  {
  }

  lemma {:induction false} HostKeeps(s: State, b: C.Binding, l: H.Label)
    requires Together(s) && HostEnabled(s, b, l)
    ensures Together(Step(s, HostMoves(b, l)))
  {
    hide CP.Good, HP.Good, H.Step, StatusOf;
    HP.StepKeepsGood(s.hosts[b], l);
    HostRefinesStatus(s.hosts[b], l);
  }

  lemma {:induction false} AlwaysTogether(labels: seq<Label>)
    ensures Together(Run(labels))
  {
    hide Together, ControllerEnabled, HostEnabled;
    if labels == [] {
      InitiallyTogether();
    } else {
      var s := Run(labels[..|labels| - 1]);
      AlwaysTogether(labels[..|labels| - 1]);
      match labels[|labels| - 1]
      case ControllerMoves(c) =>
        if ControllerEnabled(s, c) {
          ControllerKeeps(s, c);
        }
      case HostMoves(b, h) =>
        if HostEnabled(s, b, h) {
          HostKeeps(s, b, h);
        }
    }
  }

  lemma InitiallyTogether()
    ensures Together(Initial())
  {
    hide CP.Good;
    CP.InitiallyGood();
  }

  lemma {:induction false} DisposeDoneSeen(trace: seq<H.Event>)
    requires H.Observed(trace).legal && H.Observed(trace).disposing
    ensures H.Observed(trace).busy == Some(H.Call.DisposeCall) || (H.Observed(trace).busy.None? && H.DisposeDone in trace)
  {
    var before, e := trace[..|trace| - 1], trace[|trace| - 1];
    assert trace == before + [e];
    if H.Observed(before).disposing {
      DisposeDoneSeen(before);
    }
  }

  /** A host whose disposal has settled disposed its renderer once, and that disposal returned. */
  lemma {:induction false} SettledHostIsDone(h: H.State)
    requires HP.Good(h) && h.disposal.Settled?
    ensures H.DisposeDone in h.trace && HP.Disposals(h.trace) == 1 && h.inFlight.None? && h.current.None? && h.queue == []
  {
    hide H.Observed, H.JobsOf, HP.InOrder;
    HP.DisposalsOf(h.trace);
    DisposeDoneSeen(h.trace);
  }

  /** Main result: whenever a candidate's mount is called, the renderer of every binding mounted
      before has returned from its one dispose call, with no mount, render or queue left, unless that
      binding was a candidate that failed; and the renderers of the bindings some rebind took over
      have without exception.  The candidate's own renderer has seen nothing yet. */
  lemma {:induction false} OldRenderersAreDone(labels: seq<Label>, g: C.Binding, b: C.Binding)
    requires var c := Run(labels).controller; C.MoveEnabled(c, C.RetirementDone(g, true)) && C.IsCurrentGeneration(c, g)
    requires b in Run(labels).hosts
    ensures var s := Run(labels);
            && g !in s.hosts
            && (b !in C.Watched(s.controller.trace).failed || Some(b) in s.controller.retirements ==>
                  && H.DisposeDone in s.hosts[b].trace && HP.Disposals(s.hosts[b].trace) == 1
                  && s.hosts[b].inFlight.None? && s.hosts[b].current.None? && s.hosts[b].queue == [])
  {
    hide C.Watched, HP.Good, Run;
    AlwaysTogether(labels);
    var s := Run(labels);
    OthersSettled(s.controller, g, b);
    if s.controller.hosts[b].Settled? {
      SettledHostIsDone(s.hosts[b]);
    }
  }

  lemma {:induction false} OthersSettled(c: C.State, g: C.Binding, b: C.Binding)
    requires CP.Good(c) && C.MoveEnabled(c, C.RetirementDone(g, true)) && C.IsCurrentGeneration(c, g) && b in c.hosts
    ensures g !in c.hosts
    ensures b !in C.Watched(c.trace).failed || Some(b) in c.retirements ==> c.hosts[b].Settled?
  {
    hide C.Watched, CP.InLine;
    CP.TailIsEmpty(c, g, b);
  }
}
