/** Results over every interleaving of refreshes, rebinds, renders, retirement and disposal. */
module RuntimeBindingTheorems {
  import opened Common
  import opened RuntimeBinding
  import opened RuntimeBindingProof

  /** Main result: over every run, a candidate is mounted only when every binding mounted before it
      has finished its disposal (failed candidates excepted), deliveries go to the binding mounted
      last while its host is open, and registry snapshots are installed in token order. */
  lemma {:induction false} ControllerKeepsItsPromises(labels: seq<Label>)
    ensures Watched(Run(labels).trace).legal
  {
    AlwaysGood(labels);
  }

  /** Main result: the active and the pending binding are never both set, and the one that is set
      carries the current generation and an open host. */
  lemma {:induction false} OneCurrentBinding(labels: seq<Label>)
    ensures var s := Run(labels);
            && (s.activeBinding.None? || s.pendingBinding.None?)
            && (Held(s).Some? ==> Held(s).value == s.bindingGeneration && !s.disposed)
            && (Held(s).Some? ==> Held(s).value in s.hosts && s.hosts[Held(s).value].Open?)
  {
    hide Watched;
    AlwaysGood(labels);
  }

  /** Main result: when a candidate's mount is called, every binding that any rebind so far took
      over, failed or not, has finished `disposeAndWait`. */
  lemma {:induction false} TakenOverBindingsAreGone(labels: seq<Label>, g: Binding, i: nat)
    requires var s := Run(labels); MoveEnabled(s, RetirementDone(g, true)) && IsCurrentGeneration(s, g)
    requires i < |Run(labels).retirements| && Run(labels).retirements[i].Some?
    ensures var s := Run(labels); var b := s.retirements[i].value; b in s.hosts && s.hosts[b].Settled?
  {
    hide Watched, Accounted, InLine;
    AlwaysGood(labels);
  }

  // ---- Reading a legal trace by position --------------------------------------------------------

  lemma {:induction false} LegalPrefix(trace: seq<Event>, n: nat)
    requires Watched(trace).legal && n <= |trace|
    ensures Watched(trace[..n]).legal
  {
    if n < |trace| {
      LegalPrefix(trace[..|trace| - 1], n);
      assert trace[..|trace| - 1][..n] == trace[..n];
    } else {
      assert trace[..n] == trace;
    }
  }

  lemma {:induction false} WatchedSets(trace: seq<Event>, b: Binding)
    ensures var w := Watched(trace);
            && (b in w.mounted <==> MountCalled(b) in trace)
            && (b in w.settled <==> DisposeSettled(b) in trace)
            && (b in w.closed <==> DisposeCalled(b) in trace)
            && (b in w.failed <==> Failed(b) in trace)
  {
    if trace != [] {
      var before, e := trace[..|trace| - 1], trace[|trace| - 1];
      WatchedSets(before, b);
      assert trace == before + [e];
    }
  }

  /** A binding mounted before another one either finished its disposal first or had failed. */
  lemma EarlierBindingIsGone(trace: seq<Event>, k: nat, i: nat)
    requires Watched(trace).legal && k < i < |trace| && trace[k].MountCalled? && trace[i].MountCalled?
    ensures var b := trace[k].binding; DisposeSettled(b) in trace[..i] || Failed(b) in trace[..i]
  {
    LegalPrefix(trace, i + 1);
    assert trace[..i + 1][..i] == trace[..i];
    var b := trace[k].binding;
    assert trace[..i][k] == MountCalled(b);
    WatchedSets(trace[..i], b);
  }

  /** A delivery goes to a binding that was mounted, not disposed and not failed, and no other
      binding was mounted since. */
  lemma DeliveryIsCurrent(trace: seq<Event>, i: nat)
    requires Watched(trace).legal && i < |trace| && trace[i].Delivered?
    ensures var b := trace[i].binding; var before := trace[..i];
            && MountCalled(b) in before && DisposeCalled(b) !in before && Failed(b) !in before
            && forall k, j :: 0 <= k < j < i && before[k] == MountCalled(b) ==> !before[j].MountCalled?
  {
    LegalPrefix(trace, i + 1);
    assert trace[..i + 1][..i] == trace[..i];
    var b, before := trace[i].binding, trace[..i];
    WatchedSets(before, b);
    LegalPrefix(trace, i);
    forall k, j | 0 <= k < j < i && before[k] == MountCalled(b) ensures !before[j].MountCalled? {
      LatestIsLast(before, k, j);
    }
  }

  /** No binding is mounted twice, so the latest mount is the last one. */
  lemma {:induction false} LatestIsLast(trace: seq<Event>, k: nat, j: nat)
    requires Watched(trace).legal && k < j < |trace|
    requires trace[k].MountCalled? && Watched(trace).latest == Some(trace[k].binding)
    ensures !trace[j].MountCalled?
  {
    var before := trace[..|trace| - 1];
    assert before[k] == trace[k];
    WatchedSets(before, trace[k].binding);
    if j < |before| {
      LatestIsLast(before, k, j);
    }
  }

  /** Registry snapshots are installed in the order their refreshes were started. */
  lemma {:induction false} InstallsInOrder(trace: seq<Event>, i: nat, j: nat)
    requires Watched(trace).legal && i < j < |trace| && trace[i].Installed? && trace[j].Installed?
    ensures trace[i].token < trace[j].token
  {
    LegalPrefix(trace, j + 1);
    assert trace[..j + 1][..j] == trace[..j];
    LegalPrefix(trace, j);
    LastToken(trace[..j], i);
  }

  lemma {:induction false} LastToken(trace: seq<Event>, i: nat)
    requires Watched(trace).legal && i < |trace| && trace[i].Installed?
    ensures trace[i].token <= Watched(trace).lastToken
  {
    if i < |trace| - 1 {
      LastToken(trace[..|trace| - 1], i);
    }
  }

  // ---- After disposal, and progress -------------------------------------------------------------

  predicate OnlyDisposes(s: State, t: State) {
    && t.disposed
    && (t.trace == s.trace
        || (|t.trace| == |s.trace| + 1 && t.trace[..|s.trace|] == s.trace
            && (t.trace[|s.trace|].DisposeCalled? || t.trace[|s.trace|].DisposeSettled?)))
  }

  lemma {:induction false} CommandIsSilent(s: State, c: Command)
    requires s.disposed && CommandEnabled(s, c)
    ensures OnlyDisposes(s, CommandStep(s, c))
  {
  }

  lemma {:induction false} MoveIsSilent(s: State, m: Move)
    requires s.disposed && s.activeBinding.None? && s.pendingBinding.None? && MoveEnabled(s, m)
    ensures OnlyDisposes(s, MoveStep(s, m))
  {
    match m
    case RetireStart =>
    case RetireEnd =>
    case RetirementDone(_, _) =>
    case MountDone(_, _) =>
    case InitialDone(_, _) =>
    case FirstRenderDone(_, _) =>
    case HostSettle(_) =>
  }

  lemma {:induction false} DisposedHoldsNothing(s: State)
    requires Good(s) && s.disposed
    ensures s.activeBinding.None? && s.pendingBinding.None?
  {
    hide Watched, Accounted, InLine;
  }

  /** Once disposed, the controller only finishes disposals: no step mounts, delivers, installs or
      fails a candidate, and it stays disposed. */
  lemma {:induction false} DisposedIsSilent(labels: seq<Label>, l: Label)
    requires Run(labels).disposed
    ensures OnlyDisposes(Run(labels), Next(Run(labels), l))
  {
    hide Good, CommandStep, MoveStep, OnlyDisposes;
    AlwaysGood(labels);
    var s := Run(labels);
    DisposedHoldsNothing(s);
    match l
    case OnCommand(c) =>
      if CommandEnabled(s, c) {
        CommandIsSilent(s, c);
      } else {
        StandingStill(s);
      }
    case OnMove(m) =>
      if MoveEnabled(s, m) {
        MoveIsSilent(s, m);
      } else {
        StandingStill(s);
      }
  }

  lemma StandingStill(s: State)
    requires s.disposed
    ensures OnlyDisposes(s, s)
  {
  }

  /** What the retirement tail waits for next. */
  function NextRetirement(s: State): Move
    requires s.retired < |s.retirements|
  {
    if !s.retiring then RetireStart
    else if s.retirements[s.retired].Some? && s.retirements[s.retired].value in s.hosts
            && s.hosts[s.retirements[s.retired].value].Disposing? then HostSettle(s.retirements[s.retired].value)
    else RetireEnd
  }

  function LinkRank(s: State): nat
  {
    if !s.retiring then 3
    else if NextLinkDisposing(s) then 2 else 1
  }

  predicate NextLinkDisposing(s: State) {
    && s.retired < |s.retirements| && s.retirements[s.retired].Some?
    && s.retirements[s.retired].value in s.hosts && s.hosts[s.retirements[s.retired].value].Disposing?
  }

  /** Main result: the retirement tail is never stuck.  While a link is left, its next move is
      enabled, and it finishes the link or brings it closer to its end. */
  lemma {:induction false} RetirementProgresses(labels: seq<Label>)
    requires Run(labels).retired < |Run(labels).retirements|
    ensures var s := Run(labels); var m := NextRetirement(s);
            MoveEnabled(s, m)
            && (MoveStep(s, m).retired > s.retired
                || (MoveStep(s, m).retired == s.retired && LinkRank(MoveStep(s, m)) < LinkRank(s)))
  {
    hide Watched, Run, Accounted, InLine;
    AlwaysGood(labels);
  }

  /** Main result: when a candidate's mount is called, exclusion holds without exception, that is
      every binding mounted before has finished its disposal, exactly when every failed candidate
      has. */
  lemma {:induction false} ExclusionExactly(labels: seq<Label>, g: Binding)
    requires var s := Run(labels); MoveEnabled(s, RetirementDone(g, true)) && IsCurrentGeneration(s, g)
    ensures var w := Watched(Run(labels).trace); w.mounted <= w.settled <==> w.failed <= w.settled
  {
    hide Watched, InLine;
    AlwaysGood(labels);
    var s := Run(labels);
    forall b: Binding ensures !InLine(s.retirements, s.retired, b) {
      TailIsEmpty(s, g, b);
    }
    TailIsEmpty(s, g, g);
  }

  // ---- The excepted case --------------------------------------------------------------------------

  /** The controller from any state on. */
  function From(s: State, labels: seq<Label>): State
    decreases |labels|
  {
    if labels == [] then s else From(Next(s, labels[0]), labels[1..])
  }

  lemma {:induction false} RunFrom(first: seq<Label>, second: seq<Label>)
    ensures Run(first + second) == From(Run(first), second)
    decreases |second|
  {
    if second == [] {
      assert first + second == first;
    } else {
      assert (first + [second[0]])[..|first|] == first;
      assert (first + [second[0]]) + second[1..] == first + second;
      RunFrom(first + [second[0]], second[1..]);
    }
  }

  /** A first rebind reaches its mount. */
  const STARTING: seq<Label> := [
    OnCommand(Initialize(true)), OnCommand(InitRegistryDone(1)), OnCommand(InitLifeDone(1, true))]
  /** Its candidate is mounted, and fails. */
  const FAILING: seq<Label> := [OnMove(RetireStart), OnMove(RetirementDone(1, true)), OnMove(MountDone(1, false))]
  /** A second rebind mounts its own. */
  const AGAIN: seq<Label> := [
    OnCommand(Refresh), OnCommand(RefreshDone(2, Present)), OnMove(RetireStart), OnMove(RetirementDone(2, true))]

  lemma {:induction false} StartingRuns() returns (s: State)
    ensures s == Run(STARTING)
    ensures s == State(true, None, None, 1, 1, [None], 0, false, false, map[1 := AwaitRetirement(0)], map[], map[], 0, map[], s.trace)
  {
    RunFrom([], STARTING);
    s := From(Initial(), STARTING);
    assert [] + STARTING == STARTING;
    var s2 := Next(Next(Initial(), STARTING[0]), STARTING[1]);
    assert s2.refreshes == map[1 := InitLife];
    assert s == Next(s2, STARTING[2]);
  }

  lemma {:induction false} FailingRuns(s: State) returns (t: State)
    requires s == State(true, None, None, 1, 1, [None], 0, false, false, map[1 := AwaitRetirement(0)], map[], map[], 0, map[], s.trace)
    ensures t == From(s, FAILING)
    ensures t == State(true, None, None, 1, 1, [None], 1, false, false, map[], map[], map[], 0, map[1 := Disposing], t.trace)
  {
    t := From(s, FAILING);
    var s2 := Next(Next(s, FAILING[0]), FAILING[1]);
    assert s2.rebinds == map[1 := AwaitMount] && s2.pendingBinding == Some(1);
    assert t == Next(s2, FAILING[2]);
    assert t.rebinds == map[];
  }

  lemma {:induction false} AgainRuns(s: State) returns (t: State)
    requires s == State(true, None, None, 1, 1, [None], 1, false, false, map[], map[], map[], 0, map[1 := Disposing], s.trace)
    ensures t == From(s, AGAIN)
    ensures t.hosts == map[1 := Disposing, 2 := Open] && t.pendingBinding == Some(2)
  {
    t := From(s, AGAIN);
    var s2 := Next(Next(s, AGAIN[0]), AGAIN[1]);
    assert s2.rebinds == map[2 := AwaitRetirement(1)] && s2.retirements == [None, None] && s2.bindingGeneration == 2;
    var s4 := Next(Next(s2, AGAIN[2]), AGAIN[3]);
    assert t == s4;
  }

  /** A counterexample to exclusion for failed candidates: the first candidate failed and is still
      being disposed when the second one is mounted. */
  lemma FailedCandidateMayOverlap()
    ensures var s := Run(STARTING + FAILING + AGAIN);
            s.hosts == map[1 := Disposing, 2 := Open] && s.pendingBinding == Some(2)
  {
    hide Run, From, Next;
    var s1 := StartingRuns();
    var s2 := FailingRuns(s1);
    var s3 := AgainRuns(s2);
    RunFrom(STARTING, FAILING);
    RunFrom(STARTING + FAILING, AGAIN);
  }
}
