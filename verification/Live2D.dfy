/** The Live2D adapter's ownership of engines (src/body/live2dRenderer.ts).

    A step is the code between two suspension points.  Engines are numbered in the order the
    factory returns them; the factory may throw, and every engine operation may fail. */
module Live2D {
  import opened Common

  type Element = nat
  type Engine = nat

  datatype Phase = Unmounted | Mounting | Mounted | Disposed

  /** What a thread inside `disposeEngine` waits for: nothing, the disposal it started, or the
      disposal another thread started. */
  datatype Wait = Nothing | Own(engine: Engine) | Other(engine: Engine)

  datatype MountThread =
    | NoMount
    | AwaitEngine(generation: nat, host: Element, back: Option<bool>)
    | AwaitAbort(generation: nat, wait: Wait)
    | AwaitFail(generation: nat, wait: Wait)

  datatype DisposeThread = NoDispose | AwaitMount(generation: nat) | AwaitRelease(wait: Wait) | DisposeOver

  /** `Started`: the factory returned an engine and its mount was called.  `Dropped`: its dispose
      was called and threw at once. */
  datatype Event =
    | Started(engine: Engine)
    | MountReturned(engine: Engine, ok: bool)
    | RenderCalled(engine: Engine)
    | DisposeCalled(engine: Engine)
    | DisposeReturned(engine: Engine)
    | Dropped(engine: Engine)

  datatype State = State(
    phase: Phase,
    host: Option<Element>,
    pendingMount: Option<nat>,
    pendingMountHost: Option<Element>,
    engine: Option<Engine>,
    engineDisposal: Option<Engine>,
    inFlight: set<Engine>,
    lifecycleGeneration: nat,
    mount: MountThread,
    dispose: DisposeThread,
    nextEngine: nat,
    trace: seq<Event>)

  function Initial(): State
  {
    State(Unmounted, None, None, None, None, None, {}, 0, NoMount, NoDispose, 0, [])
  }

  // ---- disposeEngine ------------------------------------------------------------------------

  function WaitFor(s: State, throws: bool): Wait
  {
    if s.engineDisposal.Some? then Other(s.engineDisposal.value)
    else if s.engine.None? || throws then Nothing
    else Own(s.engine.value)
  }

  /** `disposeEngine` up to its await; `throws` when the engine's dispose throws at once. */
  function DisposeEngine(s: State, throws: bool): State
  {
    var acts := s.engineDisposal.None? && s.engine.Some?;
    s.(engine := if acts then None else s.engine,
       engineDisposal := if acts && !throws then s.engine else s.engineDisposal,
       inFlight := if acts && !throws then s.inFlight + {s.engine.value} else s.inFlight,
       trace := if !acts then s.trace
                else s.trace + [if throws then Dropped(s.engine.value) else DisposeCalled(s.engine.value)])
  }

  predicate Ready(s: State, w: Wait) {
    w.Nothing? || w.engine !in s.inFlight
  }

  /** The rest of `disposeEngine`: the thread that started a disposal forgets it. */
  function Released(s: State, w: Wait): State
  {
    s.(engineDisposal := if w.Own? && s.engineDisposal == Some(w.engine) then None else s.engineDisposal)
  }

  // ---- Mount ----------------------------------------------------------------------------------

  predicate IsCurrentMount(s: State, generation: nat) {
    s.phase.Mounting? && s.lifecycleGeneration == generation
  }

  /** `made`: whether the factory returns an engine. */
  function CallMount(s: State, host: Element, made: bool): State
  {
    if !s.phase.Unmounted? then s
    else
      var generation := s.lifecycleGeneration + 1;
      s.(phase := Mounting, lifecycleGeneration := generation,
         pendingMount := Some(generation), pendingMountHost := Some(host),
         engine := if made then Some(s.nextEngine) else s.engine,
         nextEngine := if made then s.nextEngine + 1 else s.nextEngine,
         mount := if made then AwaitEngine(generation, host, None) else AwaitFail(generation, Nothing),
         trace := if made then s.trace + [Started(s.nextEngine)] else s.trace)
  }

  function EngineReturns(s: State, ok: bool): State
    requires s.mount.AwaitEngine? && s.engine.Some?
  {
    s.(mount := AwaitEngine(s.mount.generation, s.mount.host, Some(ok)),
       trace := s.trace + [MountReturned(s.engine.value, ok)])
  }

  predicate MountReady(s: State) {
    match s.mount
    case NoMount => false
    case AwaitEngine(_, _, back) => back.Some?
    case AwaitAbort(_, w) => Ready(s, w)
    case AwaitFail(_, w) => Ready(s, w)
  }

  function ContinueMount(s: State, throws: bool): State
    requires MountReady(s)
  {
    match s.mount
    case AwaitEngine(g, h, back) =>
      if back.value && IsCurrentMount(s, g) then s.(host := Some(h), phase := Mounted, mount := NoMount)
      else DisposeEngine(s, throws).(
             mount := if back.value then AwaitAbort(g, WaitFor(s, throws)) else AwaitFail(g, WaitFor(s, throws)))
    case AwaitAbort(g, w) => Released(s, w).(mount := NoMount)
    case AwaitFail(g, w) =>
      Released(s, w).(mount := NoMount,
                      phase := if IsCurrentMount(s, g) then Unmounted else s.phase,
                      host := if IsCurrentMount(s, g) then None else s.host)
    case NoMount => s
  }

  /** The `finally` of `mount`: forgets the pending mount unless another one took its place. */
  function MountFinally(s: State, generation: nat): State
  {
    var mine := s.pendingMount == Some(generation);
    s.(pendingMount := if mine then None else s.pendingMount,
       pendingMountHost := if mine then None else s.pendingMountHost)
  }

  // ---- Render and dispose -----------------------------------------------------------------------

  /** The moment a render call passes `requireMountedEngine`. */
  function RenderNow(s: State): State
  {
    s.(trace := if s.phase.Mounted? && s.engine.Some? then s.trace + [RenderCalled(s.engine.value)] else s.trace)
  }

  function CallDispose(s: State, throws: bool): State
  {
    if s.phase.Disposed? then s
    else
      var t := if s.pendingMount.Some? then s else DisposeEngine(s, throws);
      t.(phase := Disposed, lifecycleGeneration := s.lifecycleGeneration + 1, host := None,
         pendingMount := None, pendingMountHost := None,
         dispose := if s.pendingMount.Some? then AwaitMount(s.pendingMount.value) else AwaitRelease(WaitFor(s, throws)))
  }

  predicate DisposeReady(s: State) {
    match s.dispose
    case NoDispose => false
    case AwaitMount(g) => s.mount.NoMount? || s.mount.generation != g
    case AwaitRelease(w) => Ready(s, w)
    case DisposeOver => false
  }

  function ContinueDispose(s: State, throws: bool): State
    requires DisposeReady(s)
  {
    match s.dispose
    case AwaitMount(_) => DisposeEngine(s, throws).(dispose := AwaitRelease(WaitFor(s, throws)))
    case AwaitRelease(w) => Released(s, w).(dispose := DisposeOver)
    case _ => s
  }

  function DisposalReturns(s: State, e: Engine): State
  {
    s.(inFlight := s.inFlight - {e}, trace := s.trace + [DisposeReturned(e)])
  }

  // ---- Runs -------------------------------------------------------------------------------------

  datatype Label =
    | Mount(host: Element, made: bool)
    | EngineReturn(ok: bool)
    | MountContinue(throws: bool)
    | Finally(generation: nat)
    | Render
    | Dispose(throws: bool)
    | DisposeContinue(throws: bool)
    | DisposalReturn(engine: Engine)

  /** `Finally` runs once its mount is over. */
  predicate Enabled(s: State, l: Label) {
    match l
    case Mount(_, _) => true
    case EngineReturn(_) => s.mount.AwaitEngine? && s.mount.back.None? && s.engine.Some?
    case MountContinue(_) => MountReady(s)
    case Finally(g) => s.mount.NoMount? || s.mount.generation != g
    case Render => true
    case Dispose(_) => true
    case DisposeContinue(_) => DisposeReady(s)
    case DisposalReturn(e) => e in s.inFlight
  }

  function Step(s: State, l: Label): State
    requires Enabled(s, l)
  {
    match l
    case Mount(host, made) => CallMount(s, host, made)
    case EngineReturn(ok) => EngineReturns(s, ok)
    case MountContinue(throws) => ContinueMount(s, throws)
    case Finally(g) => MountFinally(s, g)
    case Render => RenderNow(s)
    case Dispose(throws) => CallDispose(s, throws)
    case DisposeContinue(throws) => ContinueDispose(s, throws)
    case DisposalReturn(e) => DisposalReturns(s, e)
  }

  function Run(labels: seq<Label>): State
  {
    if labels == [] then Initial()
    else
      var s := Run(labels[..|labels| - 1]);
      var l := labels[|labels| - 1];
      if Enabled(s, l) then Step(s, l) else s
  }

  // ---- What engines may rely on -------------------------------------------------------------------

  /** The engines so far: at most one is live, the others are retired.  `legal` is false once an
      engine was not treated as promised. */
  datatype Fleet = Fleet(
    legal: bool, live: Option<Engine>, mounting: bool, ready: bool, disposing: bool, retired: set<Engine>)

  function Observe(f: Fleet, e: Event): Fleet
  {
    var mine := f.live == Some(e.engine);
    match e
    case Started(n) => Fleet(f.legal && f.live.None? && n !in f.retired, Some(n), true, false, false, f.retired)
    case MountReturned(n, ok) => f.(legal := f.legal && mine && f.mounting && !f.disposing, mounting := false, ready := ok)
    case RenderCalled(n) => f.(legal := f.legal && mine && f.ready && !f.disposing)
    case DisposeCalled(n) => f.(legal := f.legal && mine && !f.mounting && !f.disposing, disposing := true)
    case DisposeReturned(n) =>
      Fleet(f.legal && mine && f.disposing, None, false, false, false, f.retired + {n})
    case Dropped(n) =>
      Fleet(f.legal && mine && !f.mounting && !f.disposing, None, false, false, false, f.retired + {n})
  }

  function Observed(trace: seq<Event>): Fleet
  {
    if trace == [] then Fleet(true, None, false, false, false, {})
    else Observe(Observed(trace[..|trace| - 1]), trace[|trace| - 1])
  }

  function Disposals(trace: seq<Event>, n: Engine): nat
  {
    if trace == [] then 0
    else
      var e := trace[|trace| - 1];
      Disposals(trace[..|trace| - 1], n) + if e == DisposeCalled(n) || e == Dropped(n) then 1 else 0
  }

  predicate Made(trace: seq<Event>, n: Engine) {
    Started(n) in trace
  }
}

module Live2DProof {
  import opened Common
  import opened Live2D

  lemma Extends(trace: seq<Event>, e: Event)
    ensures Observed(trace + [e]) == Observe(Observed(trace), e)
  {
    assert (trace + [e])[..|trace|] == trace;
  }

  /** The engine field is the live engine, and nothing else is. */
  predicate Holding(s: State, f: Fleet, mounting: bool) {
    && s.engine.Some? && f.live == s.engine && !f.disposing && f.mounting == mounting
    && s.engineDisposal.None? && s.inFlight == {}
  }

  predicate Empty(s: State, f: Fleet) {
    s.engine.None? && f.live.None? && s.engineDisposal.None? && s.inFlight == {}
  }

  /** A thread stands in `disposeEngine` with wait `w`. */
  predicate Releasing(s: State, f: Fleet, w: Wait) {
    match w
    case Nothing => Empty(s, f)
    case Own(e) =>
      && s.engine.None? && s.engineDisposal == Some(e)
      && (s.inFlight == {e} || s.inFlight == {})
      && (e in s.inFlight ==> f.live == Some(e) && f.disposing)
      && (e !in s.inFlight ==> f.live.None?)
    case Other(_) => false
  }

  predicate MountPlace(s: State, f: Fleet) {
    match s.mount
    case NoMount => true
    case AwaitEngine(g, _, back) => Holding(s, f, back.None?) && (back.Some? ==> f.ready == back.value)
    case AwaitAbort(_, w) => s.phase.Disposed? && Releasing(s, f, w)
    case AwaitFail(_, w) => Releasing(s, f, w)
  }

  predicate RestPlace(s: State, f: Fleet) {
    match s.phase
    case Unmounted => Empty(s, f)
    case Mounting => false
    case Mounted => Holding(s, f, false) && f.ready
    case Disposed =>
      match s.dispose
      case NoDispose => false
      case AwaitMount(_) => Empty(s, f) || Holding(s, f, false)
      case AwaitRelease(w) => Releasing(s, f, w)
      case DisposeOver => Empty(s, f)
  }

  predicate Places(s: State, f: Fleet) {
    && MountPlace(s, f)
    && (s.mount.NoMount? ==> RestPlace(s, f))
    && (!s.mount.NoMount? ==>
          || (s.phase.Mounting? && s.pendingMount == Some(s.mount.generation) && s.lifecycleGeneration == s.mount.generation)
          || (s.phase.Disposed? && s.dispose == AwaitMount(s.mount.generation)))
    && (s.phase.Disposed? <==> !s.dispose.NoDispose?)
  }

  predicate Good(s: State) {
    var f := Observed(s.trace);
    && f.legal && Places(s, f)
    && (forall n :: n in f.retired ==> n < s.nextEngine)
    && (f.live.Some? ==> f.live.value < s.nextEngine && f.live.value !in f.retired)
  }

  lemma {:induction false} CallKeeps(s: State, l: Label)
    requires Good(s) && Enabled(s, l) && (l.Mount? || l.Render? || l.Finally?)
    ensures Good(Step(s, l))
  {
    hide Observed;
    Extends(s.trace, Started(s.nextEngine));
    if s.engine.Some? {
      Extends(s.trace, RenderCalled(s.engine.value));
    }
  }

  lemma {:induction false} ReturnKeeps(s: State, l: Label)
    requires Good(s) && Enabled(s, l) && (l.EngineReturn? || l.DisposalReturn?)
    ensures Good(Step(s, l))
  {
    hide Observed;
    match l
    case EngineReturn(ok) => Extends(s.trace, MountReturned(s.engine.value, ok));
    case DisposalReturn(e) => Extends(s.trace, DisposeReturned(e));
  }

  lemma {:induction false} MountContinueKeeps(s: State, throws: bool)
    requires Good(s) && MountReady(s)
    ensures Good(ContinueMount(s, throws))
  {
    hide Observed;
    if s.engine.Some? {
      Extends(s.trace, if throws then Dropped(s.engine.value) else DisposeCalled(s.engine.value));
    }
  }

  lemma {:induction false} DisposeKeeps(s: State, throws: bool)
    requires Good(s)
    ensures Good(CallDispose(s, throws))
  {
    hide Observed;
    if s.engine.Some? {
      Extends(s.trace, if throws then Dropped(s.engine.value) else DisposeCalled(s.engine.value));
    }
  }

  lemma {:induction false} DisposeContinueKeeps(s: State, throws: bool)
    requires Good(s) && DisposeReady(s)
    ensures Good(ContinueDispose(s, throws))
  {
    hide Observed;
    if s.engine.Some? {
      Extends(s.trace, if throws then Dropped(s.engine.value) else DisposeCalled(s.engine.value));
    }
  }

  lemma {:induction false} StepKeepsGood(s: State, l: Label)
    requires Good(s) && Enabled(s, l)
    ensures Good(Step(s, l))
  {
    hide Good;
    match l
    case Mount(_, _) => CallKeeps(s, l);
    case EngineReturn(_) => ReturnKeeps(s, l);
    case MountContinue(throws) => MountContinueKeeps(s, throws);
    case Finally(_) => CallKeeps(s, l);
    case Render => CallKeeps(s, l);
    case Dispose(throws) => DisposeKeeps(s, throws);
    case DisposeContinue(throws) => DisposeContinueKeeps(s, throws);
    case DisposalReturn(_) => ReturnKeeps(s, l);
  }

  lemma {:induction false} AlwaysGood(labels: seq<Label>)
    ensures Good(Run(labels))
  {
    if labels != [] {
      AlwaysGood(labels[..|labels| - 1]);
      var s := Run(labels[..|labels| - 1]);
      if Enabled(s, labels[|labels| - 1]) {
        StepKeepsGood(s, labels[|labels| - 1]);
      }
    }
  }

  // ---- Main results -----------------------------------------------------------------------------

  lemma {:induction false} FleetCounts(trace: seq<Event>, n: Engine)
    requires Observed(trace).legal
    ensures var f := Observed(trace);
            && Disposals(trace, n) == (if n in f.retired || (f.live == Some(n) && f.disposing) then 1 else 0)
            && (Made(trace, n) <==> n in f.retired || f.live == Some(n))
            && (f.live.Some? ==> f.live.value !in f.retired)
  {
    hide Made;
    NothingMade(n);
    if trace != [] {
      var before, e := trace[..|trace| - 1], trace[|trace| - 1];
      FleetCounts(before, n);
      FleetCounts(before, e.engine);
      MadeBefore(trace, n);
    }
  }

  lemma NothingMade(n: Engine)
    ensures !Made([], n)
  {
  }

  lemma MadeBefore(trace: seq<Event>, n: Engine)
    requires trace != []
    ensures Made(trace, n) <==> Made(trace[..|trace| - 1], n) || trace[|trace| - 1] == Started(n)
  {
    assert trace == trace[..|trace| - 1] + [trace[|trace| - 1]];
  }

  /** Main result: across failed mounts, retries and disposal at any moment, no engine is disposed
      twice or before the factory returned it; and when the renderer is back to unmounted, or its
      disposal has settled, every engine the factory returned was disposed exactly once and its
      disposal has returned. */
  lemma {:induction false} EveryEngineIsReleasedOnce(labels: seq<Label>, n: Engine)
    ensures var s := Run(labels);
            && Disposals(s.trace, n) <= (if Made(s.trace, n) then 1 else 0)
            && (s.phase.Unmounted? || s.dispose.DisposeOver? ==>
                  && Disposals(s.trace, n) == (if Made(s.trace, n) then 1 else 0)
                  && s.engine.None? && s.inFlight == {})
  {
    hide Observed;
    AlwaysGood(labels);
    FleetCounts(Run(labels).trace, n);
  }

  /** Main result: engines never overlap.  While an engine is held, it is the only one that has
      not been retired, and it is the one the renderer draws with when mounted. */
  lemma {:induction false} EnginesDoNotOverlap(labels: seq<Label>, m: Engine, n: Engine)
    ensures var s := Run(labels);
            && (Made(s.trace, m) && Made(s.trace, n) && Disposals(s.trace, m) == 0 && Disposals(s.trace, n) == 0 ==> m == n)
            && (s.phase.Mounted? ==> s.engine.Some? && Made(s.trace, s.engine.value) && Disposals(s.trace, s.engine.value) == 0)
  {
    hide Observed;
    AlwaysGood(labels);
    var s := Run(labels);
    FleetCounts(s.trace, m);
    FleetCounts(s.trace, n);
    if s.engine.Some? {
      FleetCounts(s.trace, s.engine.value);
    }
  }

  lemma {:induction false} RetiringAfter(trace: seq<Event>, k: nat)
    requires Observed(trace).legal && k < |trace| && (trace[k].DisposeCalled? || trace[k].Dropped?)
    ensures var f := Observed(trace);
            trace[k].engine in f.retired || (f.live == Some(trace[k].engine) && f.disposing && !f.mounting)
  {
    if k < |trace| - 1 {
      RetiringAfter(trace[..|trace| - 1], k);
    }
  }

  /** Once an engine's disposal was called, nothing but the return of that disposal happens to it. */
  lemma {:induction false} NothingAfterDisposal(trace: seq<Event>, k: nat, i: nat)
    requires Observed(trace).legal && k < i < |trace| && (trace[k].DisposeCalled? || trace[k].Dropped?)
    requires trace[i].engine == trace[k].engine
    ensures trace[i].DisposeReturned?
  {
    var before := trace[..|trace| - 1];
    if i < |before| {
      NothingAfterDisposal(before, k, i);
    } else {
      RetiringAfter(before, k);
      FleetCounts(before, trace[k].engine);
    }
  }

  /** The disposed phase is absorbing. */
  lemma {:induction false} DisposedIsAbsorbing(labels: seq<Label>, more: seq<Label>)
    requires Run(labels).phase.Disposed?
    ensures Run(labels + more).phase.Disposed?
    decreases |more|
  {
    if more == [] {
      assert labels + more == labels;
    } else {
      DisposedIsAbsorbing(labels, more[..|more| - 1]);
      assert (labels + more)[..|labels + more| - 1] == labels + more[..|more| - 1];
    }
  }

  function Remaining(w: Wait): nat
  {
    if w.Own? then 2 else 1
  }

  /** How much a mount and a disposal still have to wait for. */
  function Outstanding(s: State): nat
  {
    (match s.mount
     case NoMount => 0
     case AwaitEngine(_, _, back) => if back.None? then 5 else 4
     case AwaitAbort(_, w) => Remaining(w)
     case AwaitFail(_, w) => Remaining(w))
    + (match s.dispose
       case NoDispose => 8
       case AwaitMount(_) => 4
       case AwaitRelease(w) => Remaining(w)
       case DisposeOver => 0)
    + |s.inFlight|
  }

  function NextMove(s: State): Label
  {
    if s.mount.AwaitEngine? && s.mount.back.None? then EngineReturn(false)
    else if s.engineDisposal.Some? && s.engineDisposal.value in s.inFlight then DisposalReturn(s.engineDisposal.value)
    else if !s.mount.NoMount? then MountContinue(true)
    else DisposeContinue(true)
  }

  /** Main result: a started disposal is never stuck.  Some move is enabled, and it brings the
      disposal closer to its end. */
  lemma {:induction false} DisposalProgresses(labels: seq<Label>)
    ensures var s := Run(labels);
            s.phase.Disposed? && !s.dispose.DisposeOver? ==>
              Enabled(s, NextMove(s)) && Outstanding(Step(s, NextMove(s))) < Outstanding(s)
  {
    hide Observed, Run;
    AlwaysGood(labels);
  }
}
