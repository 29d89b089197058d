/** The owner of the one active body binding (src/body/bodyRuntimeBinding.ts).

    Any number of refreshes, rebinds and renders may be under way; a step is the code between two
    suspension points of one of them.  A binding is named by the binding generation it was made
    for.  Its renderer host is reduced to what the controller relies on: the first dispose call
    starts a disposal that settles later, further calls share it. */
module RuntimeBinding {
  import opened Common

  type Binding = nat
  type Token = nat

  datatype HostStatus = Open | Disposing | Settled

  /** Where the rebind of a generation stands. */
  datatype Rebind =
    | AwaitRetirement(index: nat)
    | AwaitMount
    | AwaitInitial
    | AwaitFirstRender

  datatype Refresh = InitRegistry | InitLife | RefreshLoads

  datatype Event =
    | MountCalled(binding: Binding)
    | DisposeCalled(binding: Binding)
    | DisposeSettled(binding: Binding)
    | Failed(binding: Binding)
    | Delivered(binding: Binding)
    | Installed(token: Token)

  datatype State = State(
    hostAttached: bool,
    activeBinding: Option<Binding>,
    pendingBinding: Option<Binding>,
    bindingGeneration: nat,
    refreshGeneration: nat,
    // the retirement tail: what each rebind took over, in order, and how far the tail has run
    retirements: seq<Option<Binding>>,
    retired: nat,
    retiring: bool,
    disposed: bool,
    // threads
    rebinds: map<Binding, Rebind>,
    refreshes: map<Token, Refresh>,
    renders: map<nat, Binding>,
    renderCalls: nat,
    hosts: map<Binding, HostStatus>,
    trace: seq<Event>)

  function Initial(): State
  {
    State(false, None, None, 0, 0, [], 0, false, false, map[], map[], map[], 0, map[], [])
  }

  // ---- Guards -------------------------------------------------------------------------------

  predicate IsCurrentRefresh(s: State, t: Token) {
    !s.disposed && s.refreshGeneration == t
  }

  predicate IsCurrentGeneration(s: State, b: Binding) {
    !s.disposed && s.bindingGeneration == b
  }

  predicate IsCurrentBinding(s: State, b: Binding) {
    IsCurrentGeneration(s, b) && (s.activeBinding == Some(b) || s.pendingBinding == Some(b))
  }

  function Held(s: State): Option<Binding>
  {
    if s.activeBinding.Some? then s.activeBinding else s.pendingBinding
  }

  // ---- Hosts --------------------------------------------------------------------------------

  /** `host.dispose()` or `host.disposeAndWait()`: only the first call starts a disposal. */
  function DisposeHost(s: State, b: Option<Binding>): State
  {
    var first := b.Some? && b.value in s.hosts && s.hosts[b.value].Open?;
    s.(hosts := if first then s.hosts[b.value := Disposing] else s.hosts,
       trace := if first then s.trace + [DisposeCalled(b.value)] else s.trace)
  }

  function HostSettles(s: State, b: Binding): State
  {
    s.(hosts := s.hosts[b := Settled], trace := s.trace + [DisposeSettled(b)])
  }

  // ---- Rebind -------------------------------------------------------------------------------

  function StartRebind(s: State): State
  {
    var g := s.bindingGeneration + 1;
    s.(bindingGeneration := g, activeBinding := None, pendingBinding := None,
       retirements := s.retirements + [Held(s)],
       rebinds := s.rebinds[g := AwaitRetirement(|s.retirements|)])
  }

  /** The next link of the retirement tail starts. */
  function RetireStarts(s: State): State
    requires s.retired < |s.retirements|
  {
    var previous := s.retirements[s.retired];
    DisposeHost(s, previous).(retiring := previous.Some?,
                              retired := if previous.None? then s.retired + 1 else s.retired)
  }

  function RetireEnds(s: State): State
  {
    s.(retiring := false, retired := s.retired + 1)
  }

  /** After retirement: `created` is whether the presentation could be made. */
  function RebindMounts(s: State, g: Binding, created: bool): State
  {
    var goes := IsCurrentGeneration(s, g) && s.hostAttached && created;
    s.(rebinds := if goes then s.rebinds[g := AwaitMount] else s.rebinds - {g},
       pendingBinding := if goes then Some(g) else s.pendingBinding,
       hosts := if goes then s.hosts[g := Open] else s.hosts,
       trace := if goes then s.trace + [MountCalled(g)] else s.trace)
  }

  /** The `catch` of a rebind: the candidate is dropped, and disposed outside the retirement tail.
      A candidate that was still held is one whose own start failed. */
  function RebindFails(s: State, g: Binding): State
  {
    var held := s.activeBinding == Some(g) || s.pendingBinding == Some(g);
    DisposeHost(
      s.(rebinds := s.rebinds - {g},
         pendingBinding := if s.pendingBinding == Some(g) then None else s.pendingBinding,
         activeBinding := if s.activeBinding == Some(g) then None else s.activeBinding,
         trace := if held then s.trace + [Failed(g)] else s.trace),
      Some(g))
  }

  function MountEnds(s: State, g: Binding, ok: bool): State
  {
    if !ok then RebindFails(s, g)
    else if !IsCurrentBinding(s, g) then DisposeHost(s.(rebinds := s.rebinds - {g}), Some(g))
    else s.(rebinds := s.rebinds[g := AwaitInitial], pendingBinding := None, activeBinding := Some(g))
  }

  datatype Provided = Throws | Stale | Applied

  function InitialEnds(s: State, g: Binding, provided: Provided): State
  {
    if provided.Throws? then RebindFails(s, g)
    else if !IsCurrentBinding(s, g) then DisposeHost(s.(rebinds := s.rebinds - {g}), Some(g))
    else if provided.Stale? then s.(rebinds := s.rebinds - {g})
    else s.(rebinds := s.rebinds[g := AwaitFirstRender], trace := s.trace + [Delivered(g)])
  }

  function FirstRenderEnds(s: State, g: Binding, ok: bool): State
  {
    if ok then s.(rebinds := s.rebinds - {g}) else RebindFails(s, g)
  }

  // ---- Render -------------------------------------------------------------------------------

  function CallRender(s: State): State
  {
    if s.activeBinding.None? || s.disposed then s
    else s.(renders := s.renders[s.renderCalls := s.activeBinding.value], renderCalls := s.renderCalls + 1)
  }

  function RenderResumes(s: State, call: nat, applied: bool): State
    requires call in s.renders
  {
    var b := s.renders[call];
    s.(renders := s.renders - {call},
       trace := if IsCurrentBinding(s, b) && applied then s.trace + [Delivered(b)] else s.trace)
  }

  // ---- Refresh ------------------------------------------------------------------------------

  function StartInitialize(s: State, attached: bool): State
  {
    var t := s.refreshGeneration + 1;
    s.(hostAttached := attached, refreshGeneration := t, refreshes := s.refreshes[t := InitRegistry])
  }

  function StartRefresh(s: State): State
  {
    var t := s.refreshGeneration + 1;
    if s.disposed || !s.hostAttached then s
    else s.(refreshGeneration := t, refreshes := s.refreshes[t := RefreshLoads])
  }

  function InitRegistryLoads(s: State, t: Token): State
  {
    if IsCurrentRefresh(s, t) then s.(refreshes := s.refreshes[t := InitLife], trace := s.trace + [Installed(t)])
    else s.(refreshes := s.refreshes - {t})
  }

  function InitLifeLoads(s: State, t: Token, ok: bool): State
  {
    var rest := s.(refreshes := s.refreshes - {t});
    if ok && IsCurrentRefresh(s, t) then StartRebind(rest) else rest
  }

  datatype Life = Unreadable | Absent | Present

  function RefreshLoaded(s: State, t: Token, life: Life): State
  {
    var rest := s.(refreshes := s.refreshes - {t});
    if life.Unreadable? || !IsCurrentRefresh(s, t) then rest
    else
      var installed := rest.(trace := s.trace + [Installed(t)]);
      if life.Absent? then installed else StartRebind(installed)
  }

  // ---- Dispose ------------------------------------------------------------------------------

  function CallDispose(s: State): State
  {
    if s.disposed then s
    else
      DisposeHost(
        s.(disposed := true, refreshGeneration := s.refreshGeneration + 1, bindingGeneration := s.bindingGeneration + 1,
           activeBinding := None, pendingBinding := None, hostAttached := false),
        Held(s))
  }

  // ---- Runs ---------------------------------------------------------------------------------

  /** Calls from outside, and what a refresh awaits. */
  datatype Command =
    | Attach(attached: bool)
    | Initialize(attached: bool)
    | Refresh
    | InitRegistryDone(token: Token)
    | InitLifeDone(token: Token, ok: bool)
    | RefreshDone(token: Token, life: Life)
    | Render
    | RenderDone(call: nat, applied: bool)
    | Dispose

  /** What a rebind awaits, the retirement tail, and the hosts. */
  datatype Move =
    | RetireStart
    | RetireEnd
    | RetirementDone(binding: Binding, created: bool)
    | MountDone(binding: Binding, ok: bool)
    | InitialDone(binding: Binding, provided: Provided)
    | FirstRenderDone(binding: Binding, ok: bool)
    | HostSettle(binding: Binding)

  datatype Label = OnCommand(command: Command) | OnMove(move: Move)

  predicate CommandEnabled(s: State, c: Command) {
    match c
    case InitRegistryDone(t) => t in s.refreshes && s.refreshes[t].InitRegistry?
    case InitLifeDone(t, _) => t in s.refreshes && s.refreshes[t].InitLife?
    case RefreshDone(t, _) => t in s.refreshes && s.refreshes[t].RefreshLoads?
    case RenderDone(call, _) => call in s.renders
    case _ => true
  }

  function CommandStep(s: State, c: Command): State
    requires CommandEnabled(s, c)
  {
    match c
    case Attach(attached) => s.(hostAttached := attached)
    case Initialize(attached) => StartInitialize(s, attached)
    case Refresh => StartRefresh(s)
    case InitRegistryDone(t) => InitRegistryLoads(s, t)
    case InitLifeDone(t, ok) => InitLifeLoads(s, t, ok)
    case RefreshDone(t, life) => RefreshLoaded(s, t, life)
    case Render => CallRender(s)
    case RenderDone(call, applied) => RenderResumes(s, call, applied)
    case Dispose => CallDispose(s)
  }

  predicate MoveEnabled(s: State, m: Move) {
    match m
    case RetireStart => !s.retiring && s.retired < |s.retirements|
    case RetireEnd =>
      && s.retiring && s.retired < |s.retirements| && s.retirements[s.retired].Some?
      && s.retirements[s.retired].value in s.hosts && s.hosts[s.retirements[s.retired].value].Settled?
    case RetirementDone(g, _) => g in s.rebinds && s.rebinds[g].AwaitRetirement? && s.rebinds[g].index < s.retired
    case MountDone(g, _) => g in s.rebinds && s.rebinds[g].AwaitMount?
    case InitialDone(g, _) => g in s.rebinds && s.rebinds[g].AwaitInitial?
    case FirstRenderDone(g, _) => g in s.rebinds && s.rebinds[g].AwaitFirstRender?
    case HostSettle(b) => b in s.hosts && s.hosts[b].Disposing?
  }

  function MoveStep(s: State, m: Move): State
    requires MoveEnabled(s, m)
  {
    match m
    case RetireStart => RetireStarts(s)
    case RetireEnd => RetireEnds(s)
    case RetirementDone(g, created) => RebindMounts(s, g, created)
    case MountDone(g, ok) => MountEnds(s, g, ok)
    case InitialDone(g, provided) => InitialEnds(s, g, provided)
    case FirstRenderDone(g, ok) => FirstRenderEnds(s, g, ok)
    case HostSettle(b) => HostSettles(s, b)
  }

  function Next(s: State, l: Label): State
  {
    match l
    case OnCommand(c) => if CommandEnabled(s, c) then CommandStep(s, c) else s
    case OnMove(m) => if MoveEnabled(s, m) then MoveStep(s, m) else s
  }

  function Run(labels: seq<Label>): State
  {
    if labels == [] then Initial() else Next(Run(labels[..|labels| - 1]), labels[|labels| - 1])
  }

  // ---- What the outside may rely on ------------------------------------------------------------

  /** `legal` is false once a promise of the controller was broken. */
  datatype Watch = Watch(
    legal: bool, mounted: set<Binding>, closed: set<Binding>, settled: set<Binding>, failed: set<Binding>,
    latest: Option<Binding>, lastToken: Token)

  /** Every binding mounted before has finished its disposal, except candidates whose own start failed. */
  predicate Excluded(w: Watch) {
    w.mounted <= w.settled + w.failed
  }

  function Observe(w: Watch, e: Event): Watch
  {
    match e
    case MountCalled(b) =>
      w.(legal := w.legal && Excluded(w) && b !in w.mounted, mounted := w.mounted + {b}, latest := Some(b))
    case DisposeCalled(b) => w.(legal := w.legal && b in w.mounted && b !in w.closed, closed := w.closed + {b})
    case DisposeSettled(b) => w.(legal := w.legal && b in w.closed && b !in w.settled, settled := w.settled + {b})
    case Failed(b) => w.(legal := w.legal && b in w.mounted, failed := w.failed + {b})
    case Delivered(b) =>
      w.(legal := w.legal && w.latest == Some(b) && b in w.mounted && b !in w.closed && b !in w.failed)
    case Installed(t) => w.(legal := w.legal && w.lastToken < t, lastToken := t)
  }

  function Watched(trace: seq<Event>): Watch
  {
    if trace == [] then Watch(true, {}, {}, {}, {}, None, 0)
    else Observe(Watched(trace[..|trace| - 1]), trace[|trace| - 1])
  }
}
