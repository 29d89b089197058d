/** What a legal trace of the presentation firewall means, position by position, and what goes
    wrong without the renderer host's discipline. */
module FallbackTheorems {
  import opened Common
  import opened FallbackRenderer

  lemma {:induction false} LegalPrefix(trace: seq<Event>, n: nat)
    requires Watched(trace).legal && n <= |trace|
    ensures Watched(trace[..n]).legal
  {
    if n < |trace| {
      LegalPrefix(trace[..|trace| - 1], n);
      assert trace[..|trace| - 1][..n] == trace[..n];
    } else {
      assert trace[..n] == trace;
    }
  }

  /** No new lifetime starts at positions from `k` on, before `i`. */
  predicate SameLifetime(trace: seq<Event>, k: nat, i: nat)
    requires k <= i <= |trace|
  {
    forall j :: k <= j < i ==> !trace[j].Lifetime?
  }

  predicate PrimaryGone(trace: seq<Event>, j: nat) {
    && j < |trace| && trace[j].Returned? && trace[j].which.ThePrimary? && trace[j].kind.DisposeKind?
    && SameLifetime(trace, j, |trace|)
  }

  lemma {:induction false} ReleasedMeansGone(trace: seq<Event>) returns (j: nat)
    requires Watched(trace).legal && Watched(trace).primary.released.Done?
    ensures PrimaryGone(trace, j)
  {
    var before, e := trace[..|trace| - 1], trace[|trace| - 1];
    if e.Returned? && e.which.ThePrimary? && e.kind.DisposeKind? {
      j := |before|;
    } else {
      j := ReleasedMeansGone(before);
      assert trace[j] == before[j];
      assert forall k :: j <= k < |before| ==> trace[k] == before[k];
    }
  }

  /** The primary's disposal has settled, in this lifetime, before the fallback is mounted. */
  lemma PrimaryGoneBeforeFallback(trace: seq<Event>, i: nat)
    requires Watched(trace).legal && i < |trace| && trace[i] == Invoked(TheFallback, MountKind)
    ensures exists j :: PrimaryGone(trace[..i], j)
  {
    LegalPrefix(trace, i + 1);
    assert trace[..i + 1][..i] == trace[..i];
    LegalPrefix(trace, i);
    var j := ReleasedMeansGone(trace[..i]);
  }

  /** A failed primary is not rendered again before a new lifetime starts. */
  lemma NoPrimaryRenderAfterFailure(trace: seq<Event>, k: nat, i: nat)
    requires Watched(trace).legal && k < i < |trace| && SameLifetime(trace, k, i)
    requires trace[k] == Returned(ThePrimary, MountKind, false) || trace[k] == Returned(ThePrimary, RenderKind, false)
    ensures trace[i] != Invoked(ThePrimary, RenderKind)
  {
    LegalPrefix(trace, i + 1);
    LegalPrefix(trace, i);
    assert trace[..i + 1][..i] == trace[..i];
    GivenUpStays(trace[..i], k);
  }

  lemma {:induction false} GivenUpStays(trace: seq<Event>, k: nat)
    requires Watched(trace).legal && k < |trace| && SameLifetime(trace, k, |trace|)
    requires trace[k] == Returned(ThePrimary, MountKind, false) || trace[k] == Returned(ThePrimary, RenderKind, false)
    ensures var w := Watched(trace); w.primary.mounted && !w.primary.ready && w.busy != Some((ThePrimary, MountKind))
  {
    var before := trace[..|trace| - 1];
    MountedWhenUsed(before);
    if k < |before| {
      assert before[k] == trace[k];
      assert forall j :: k <= j < |before| ==> trace[j] == before[j];
      GivenUpStays(before, k);
    }
  }

  lemma {:induction false} MountedWhenUsed(trace: seq<Event>)
    requires Watched(trace).legal
    ensures var w := Watched(trace);
            && (w.primary.ready || !w.primary.released.NotReleased? ==> w.primary.mounted)
            && (w.fallback.ready || !w.fallback.released.NotReleased? ==> w.fallback.mounted)
            && (w.busy.Some? ==> UsageOf(w, w.busy.value.0).mounted)
  {
    if trace != [] {
      MountedWhenUsed(trace[..|trace| - 1]);
    }
  }

  /** Calls of one operation of one renderer since the current lifetime began. */
  function Calls(trace: seq<Event>, which: Which, kind: Kind): nat
  {
    if trace == [] || trace[|trace| - 1].Lifetime? then 0
    else Calls(trace[..|trace| - 1], which, kind) + if trace[|trace| - 1] == Invoked(which, kind) then 1 else 0
  }

  lemma {:induction false} CallsAreWatched(trace: seq<Event>, which: Which)
    requires Watched(trace).legal
    ensures var u := UsageOf(Watched(trace), which);
            && (Calls(trace, which, MountKind) > 0 <==> u.mounted)
            && Calls(trace, which, DisposeKind) == if u.released.NotReleased? then 0 else 1
  {
    if trace != [] {
      CallsAreWatched(trace[..|trace| - 1], which);
      MountedWhenUsed(trace[..|trace| - 1]);
    }
  }

  /** When a lifetime is over, each renderer whose mount was called in it was disposed exactly
      once, and one that was never mounted was not disposed. */
  lemma LifetimeIsCleanedUp(trace: seq<Event>, i: nat, which: Which)
    requires Watched(trace).legal && i < |trace| && (trace[i].Lifetime? || trace[i].DisposeEnded?)
    ensures var life := trace[..i];
            Calls(life, which, DisposeKind) == if Calls(life, which, MountKind) > 0 then 1 else 0
  {
    LegalPrefix(trace, i + 1);
    LegalPrefix(trace, i);
    assert trace[..i + 1][..i] == trace[..i];
    CallsAreWatched(trace[..i], which);
    MountedWhenUsed(trace[..i]);
  }

  predicate PrimaryFailed(trace: seq<Event>, k: nat) {
    && k < |trace| && (trace[k] == Returned(ThePrimary, MountKind, false) || trace[k] == Returned(ThePrimary, RenderKind, false))
    && SameLifetime(trace, k, |trace|)
  }

  lemma {:induction false} NotReadyMeansFailed(trace: seq<Event>) returns (k: nat)
    requires var w := Watched(trace);
             w.legal && w.primary.mounted && !w.primary.ready && w.busy != Some((ThePrimary, MountKind))
    ensures PrimaryFailed(trace, k)
  {
    var before, e := trace[..|trace| - 1], trace[|trace| - 1];
    if e == Returned(ThePrimary, MountKind, false) || e == Returned(ThePrimary, RenderKind, false) {
      k := |before|;
    } else {
      k := NotReadyMeansFailed(before);
      assert trace[k] == before[k];
      assert forall j :: k <= j < |before| ==> trace[j] == before[j];
    }
  }

  /** The fallback is mounted only in a lifetime in which the primary's mount or a render of it failed. */
  lemma FallbackOnlyAfterFailure(trace: seq<Event>, i: nat)
    requires Watched(trace).legal && i < |trace| && trace[i] == Invoked(TheFallback, MountKind)
    ensures exists k :: PrimaryFailed(trace[..i], k)
  {
    LegalPrefix(trace, i + 1);
    assert trace[..i + 1][..i] == trace[..i];
    LegalPrefix(trace, i);
    var k := NotReadyMeansFailed(trace[..i]);
  }

  // ---- Without the discipline -------------------------------------------------------------------

  /** The firewall on its own, its entry points called at any time. */
  function After(s: State, labels: seq<Label>): State
    decreases |labels|
  {
    if labels == [] then s else After(if Enabled(s, labels[0]) then Step(s, labels[0]) else s, labels[1..])
  }

  lemma MountLeavesDisposed(s: State)
    requires s.mode.Disposed? && s.mount.At? && s.mount.op.Back?
    ensures !ResumeMount(s).mode.Disposed? <==> s.mount.pc.DropPrimary?
  {
  }

  lemma RenderStaysDisposed(s: State)
    requires s.mode.Disposed? && s.render.At? && s.render.op.Back?
    ensures ResumeRender(s).mode.Disposed?
  {
  }

  /** A step takes the firewall out of its disposed mode exactly when it is the continuation of a
      mount that was disposing the failed primary. */
  lemma LeavesDisposedExactly(s: State, l: Label)
    requires s.mode.Disposed? && Enabled(s, l)
    ensures !Step(s, l).mode.Disposed? <==> l == Resumes(TheMount) && s.mount.pc.DropPrimary?
  {
    hide ResumeMount, ResumeRender;
    if l == Resumes(TheMount) {
      MountLeavesDisposed(s);
    } else if l == Resumes(TheRender) {
      RenderStaysDisposed(s);
    }
  }

  lemma {:induction false} AfterBoth(s: State, first: seq<Label>, second: seq<Label>)
    ensures After(s, first + second) == After(After(s, first), second)
    decreases |first|
  {
    if first == [] {
      assert first + second == second;
    } else {
      assert (first + second)[1..] == first[1..] + second;
      AfterBoth(if Enabled(s, first[0]) then Step(s, first[0]) else s, first[1..], second);
    }
  }

  /** A mount whose primary is being mounted. */
  const MOUNTING: seq<Label> := [Mount(0), Resumes(TheMount), Resumes(TheMount), Resumes(TheMount)]
  /** The primary fails, and is being disposed. */
  const FAILING: seq<Label> := [Settles(TheMount, false), Resumes(TheMount)]
  /** Dispose lands now; then the mount continues into the fallback. */
  const UNDOING: seq<Label> := [Dispose, Settles(TheMount, true), Resumes(TheMount)]
  /** Both threads run to their ends. */
  const ENDING: seq<Label> := [
    Settles(TheMount, true), Resumes(TheMount), Resumes(TheMount),
    Resumes(TheDispose), Resumes(TheDispose), Settles(TheDispose, true), Resumes(TheDispose)]

  lemma {:induction false} MountingRuns() returns (s: State)
    ensures s == After(Initial(), MOUNTING)
    ensures s == State(Mounting, Some(0), true, None, true, false, false, {}, At(MountPrimary, Waiting), Idle, Idle, s.trace)
  {
    s := After(Initial(), MOUNTING);
    var s1 := Step(Initial(), Mount(0));
    var s2 := Step(s1, Resumes(TheMount));
    var s3 := Step(s2, Resumes(TheMount));
    assert s == Step(s3, Resumes(TheMount));
  }

  lemma {:induction false} FailingRuns(s: State) returns (t: State)
    requires s == State(Mounting, Some(0), true, None, true, false, false, {}, At(MountPrimary, Waiting), Idle, Idle, s.trace)
    ensures t == After(s, FAILING)
    ensures t == State(Mounting, Some(0), true, None, false, false, false, {ThePrimary}, At(DropPrimary, Waiting), Idle, Idle, t.trace)
  {
    t := After(s, FAILING);
    assert t == Step(Step(s, Settles(TheMount, false)), Resumes(TheMount));
  }

  lemma {:induction false} UndoingRuns(s: State) returns (t: State)
    requires s == State(Mounting, Some(0), true, None, false, false, false, {ThePrimary}, At(DropPrimary, Waiting), Idle, Idle, s.trace)
    ensures t == After(s, UNDOING)
    ensures t == State(Fallback, None, true, None, false, true, false, {ThePrimary}, At(MountFallback, Waiting), Idle,
                       At(DisposeAwait, Back(true)), t.trace)
  {
    t := After(s, UNDOING);
    assert t == Step(Step(Step(s, Dispose), Settles(TheMount, true)), Resumes(TheMount));
  }

  lemma {:induction false} MountEnds(s: State) returns (t: State)
    requires s == State(Fallback, None, true, None, false, true, false, {ThePrimary}, At(MountFallback, Waiting), Idle,
                        At(DisposeAwait, Back(true)), s.trace)
    ensures t == Step(Step(Step(s, Settles(TheMount, true)), Resumes(TheMount)), Resumes(TheMount))
    ensures t == State(Fallback, None, true, Some(true), false, true, true, {ThePrimary}, Finished(true), Idle,
                       At(DisposeAwait, Back(true)), t.trace)
  {
    t := Step(Step(Step(s, Settles(TheMount, true)), Resumes(TheMount)), Resumes(TheMount));
  }

  lemma {:induction false} EndingRuns(s: State) returns (t: State)
    requires s == State(Fallback, None, true, None, false, true, false, {ThePrimary}, At(MountFallback, Waiting), Idle,
                        At(DisposeAwait, Back(true)), s.trace)
    ensures t == After(s, ENDING)
    ensures t.mode.Fallback? && t.mount == Finished(true) && t.dispose == Finished(true)
  {
    t := After(s, ENDING);
    var s3 := MountEnds(s);
    var s5 := Step(Step(s3, Resumes(TheDispose)), Resumes(TheDispose));
    assert s5.dispose == At(DisposeFallback, Waiting);
    assert t == Step(Step(s5, Settles(TheDispose, true)), Resumes(TheDispose));
  }

  /** A counterexample: called on its own, the firewall can settle its disposal and yet stand in
      fallback mode, because dispose landed in the await before the mode was overwritten. */
  lemma StandaloneDisposeCanBeUndone()
    ensures var s := After(Initial(), MOUNTING + FAILING + UNDOING + ENDING);
            s.dispose == Finished(true) && s.mode.Fallback?
  {
    hide After, Step, Initial;
    var s1 := MountingRuns();
    var s2 := FailingRuns(s1);
    var s3 := UndoingRuns(s2);
    var s4 := EndingRuns(s3);
    AfterBoth(Initial(), MOUNTING, FAILING);
    AfterBoth(Initial(), MOUNTING + FAILING, UNDOING);
    AfterBoth(Initial(), MOUNTING + FAILING + UNDOING, ENDING);
  }
}
