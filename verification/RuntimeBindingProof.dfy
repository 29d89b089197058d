/** What every interleaving of refreshes, rebinds, renders and disposal keeps. */
module RuntimeBindingProof {
  import opened Common
  import opened RuntimeBinding

  lemma Extends(trace: seq<Event>, e: Event)
    ensures Watched(trace + [e]) == Observe(Watched(trace), e)
  {
    assert (trace + [e])[..|trace|] == trace;
  }

  /** At most one binding is held, it is the current one, and its host is open. */
  predicate HoldsCurrent(s: State) {
    && (s.activeBinding.None? || s.pendingBinding.None?)
    && (Held(s).Some? ==>
          && Held(s).value == s.bindingGeneration && !s.disposed
          && Held(s).value in s.hosts && s.hosts[Held(s).value].Open?)
  }

  predicate Threads(s: State) {
    && (forall b :: b in s.hosts ==> b <= s.bindingGeneration)
    && (forall g :: g in s.rebinds ==>
          && g <= s.bindingGeneration
          && (s.rebinds[g].AwaitRetirement? <==> g !in s.hosts)
          && (s.rebinds[g].AwaitRetirement? ==> s.rebinds[g].index < |s.retirements|)
          && (s.rebinds[g].AwaitRetirement? && IsCurrentGeneration(s, g) ==>
                s.rebinds[g].index == |s.retirements| - 1 && Held(s).None?))
  }

  /** What each link of the retirement tail took over is disposed once the link is done. */
  predicate TailOk(s: State) {
    && (forall i :: 0 <= i < |s.retirements| && s.retirements[i].Some? ==>
          s.retirements[i].value in s.hosts && s.retirements[i].value < s.bindingGeneration)
    && s.retired <= |s.retirements|
    && (s.retiring ==> s.retired < |s.retirements| && s.retirements[s.retired].Some?
                       && !s.hosts[s.retirements[s.retired].value].Open?)
    && (forall i :: 0 <= i < s.retired && s.retirements[i].Some? ==> s.hosts[s.retirements[i].value].Settled?)
  }

  /** A binding still in line in the retirement tail. */
  predicate InLine(retirements: seq<Option<Binding>>, retired: nat, b: Binding) {
    exists i :: retired <= i < |retirements| && retirements[i] == Some(b)
  }

  /** Every binding that has not finished its disposal is held, in line, failed, or the
      controller itself is disposed. */
  predicate Accounted(s: State, failed: set<Binding>) {
    forall b :: b in s.hosts ==>
      s.hosts[b].Settled? || b in failed || Held(s) == Some(b) || s.disposed || InLine(s.retirements, s.retired, b)
  }

  ghost predicate Seen(s: State, w: Watch) {
    && w.legal
    && (forall b :: b in w.mounted <==> b in s.hosts)
    && (forall b :: b in w.closed <==> b in s.hosts && !s.hosts[b].Open?)
    && (forall b :: b in w.settled <==> b in s.hosts && s.hosts[b].Settled?)
    && (forall b :: b in w.failed ==> b in s.hosts && Held(s) != Some(b))
    && (Held(s).Some? ==> w.latest == Held(s))
  }

  predicate Tokens(s: State, lastToken: Token) {
    && lastToken <= s.refreshGeneration
    && (forall t :: t in s.refreshes ==>
          t <= s.refreshGeneration && (t == s.refreshGeneration && !s.refreshes[t].InitLife? ==> lastToken < t))
  }

  ghost predicate Good(s: State) {
    var w := Watched(s.trace);
    HoldsCurrent(s) && Threads(s) && TailOk(s) && Accounted(s, w.failed) && Seen(s, w) && Tokens(s, w.lastToken)
  }

  // ---- Moves ----------------------------------------------------------------------------------

  lemma LineMoves(retirements: seq<Option<Binding>>, retired: nat, b: Binding)
    requires retired < |retirements| && InLine(retirements, retired, b)
    ensures retirements[retired] == Some(b) || InLine(retirements, retired + 1, b)
  {
  }

  lemma LineGrows(retirements: seq<Option<Binding>>, retired: nat, last: Option<Binding>, b: Binding)
    requires retired <= |retirements|
    ensures InLine(retirements, retired, b) || last == Some(b) ==> InLine(retirements + [last], retired, b)
  {
    if InLine(retirements, retired, b) {
      var i :| retired <= i < |retirements| && retirements[i] == Some(b);
      assert (retirements + [last])[i] == Some(b);
    } else if last == Some(b) {
      assert (retirements + [last])[|retirements|] == Some(b);
    }
  }

  /** A first dispose call of a host nobody holds. */
  lemma {:induction false} DisposeHostKeeps(s: State, b: Option<Binding>)
    requires Good(s) && (b.Some? ==> b.value in s.hosts && Held(s) != b)
    ensures Good(DisposeHost(s, b))
    ensures b.Some? ==> b.value in DisposeHost(s, b).hosts && !DisposeHost(s, b).hosts[b.value].Open?
  {
    hide Watched, InLine;
    if b.Some? {
      Extends(s.trace, DisposeCalled(b.value));
    }
  }

  lemma {:induction false} LinkStartsKeeps(s: State)
    requires Good(s) && !s.retiring && s.retired < |s.retirements| && s.retirements[s.retired].Some?
    requires s.retirements[s.retired].value in s.hosts && !s.hosts[s.retirements[s.retired].value].Open?
    ensures Good(s.(retiring := true))
  {
    hide Watched, InLine;
  }

  lemma {:induction false} LinkSkipsKeeps(s: State)
    requires Good(s) && !s.retiring && s.retired < |s.retirements| && s.retirements[s.retired].None?
    ensures Good(s.(retired := s.retired + 1))
  {
    hide Watched, InLine;
    forall b: Binding | InLine(s.retirements, s.retired, b) ensures InLine(s.retirements, s.retired + 1, b) {
      LineMoves(s.retirements, s.retired, b);
    }
  }

  lemma {:induction false} InLineIsNotHeld(s: State)
    requires Good(s) && s.retired < |s.retirements| && s.retirements[s.retired].Some?
    ensures s.retirements[s.retired].value in s.hosts && Held(s) != s.retirements[s.retired]
  {
    hide Watched, InLine;
  }

  lemma {:induction false} RetireStartsKeeps(s: State)
    requires Good(s) && MoveEnabled(s, RetireStart)
    ensures Good(RetireStarts(s))
  {
    hide Good;
    var previous := s.retirements[s.retired];
    if previous.Some? {
      InLineIsNotHeld(s);
      DisposeHostKeeps(s, previous);
      LinkStartsKeeps(DisposeHost(s, previous));
    } else {
      LinkSkipsKeeps(s);
    }
  }

  lemma {:induction false} RetireEndsKeeps(s: State)
    requires Good(s) && MoveEnabled(s, RetireEnd)
    ensures Good(RetireEnds(s))
  {
    hide Watched, InLine;
    forall b: Binding | InLine(s.retirements, s.retired, b)
      ensures s.retirements[s.retired] == Some(b) || InLine(s.retirements, s.retired + 1, b)
    {
      LineMoves(s.retirements, s.retired, b);
    }
  }

  /** Exclusion: when a current rebind is through the retirement tail, nobody is in line any more. */
  lemma {:induction false} TailIsEmpty(s: State, g: Binding, b: Binding)
    requires Good(s) && g in s.rebinds && s.rebinds[g].AwaitRetirement? && s.rebinds[g].index < s.retired
    requires IsCurrentGeneration(s, g)
    ensures !InLine(s.retirements, s.retired, b) && Held(s).None?
  {
    hide Watched;
  }

  lemma {:induction false} MountKeeps(s: State, g: Binding)
    requires Good(s) && g in s.rebinds && s.rebinds[g].AwaitRetirement? && s.rebinds[g].index < s.retired
    requires IsCurrentGeneration(s, g)
    ensures Good(s.(rebinds := s.rebinds[g := AwaitMount], pendingBinding := Some(g), hosts := s.hosts[g := Open],
                    trace := s.trace + [MountCalled(g)]))
  {
    hide Watched, InLine;
    Extends(s.trace, MountCalled(g));
    forall b: Binding ensures !InLine(s.retirements, s.retired, b) {
      TailIsEmpty(s, g, b);
    }
    TailIsEmpty(s, g, g);
  }

  /** The failed candidate is let go. */
  lemma {:induction false} FailKeeps(s: State, g: Binding)
    requires Good(s) && Held(s) == Some(g)
    ensures Good(s.(activeBinding := None, pendingBinding := None, trace := s.trace + [Failed(g)]))
  {
    hide Watched, InLine;
    Extends(s.trace, Failed(g));
  }

  lemma {:induction false} CandidateHeld(s: State, g: Binding)
    requires Good(s) && g in s.rebinds && !s.rebinds[g].AwaitRetirement?
    ensures g in s.hosts && (s.activeBinding == Some(g) || s.pendingBinding == Some(g) <==> Held(s) == Some(g))
    ensures Held(s) == Some(g) ==> s.activeBinding.None? || s.pendingBinding.None?
    ensures IsCurrentBinding(s, g) <==> Held(s) == Some(g)
  {
    hide Watched, InLine;
  }

  lemma {:induction false} RebindFailsKeeps(s: State, g: Binding)
    requires Good(s) && g in s.rebinds && !s.rebinds[g].AwaitRetirement?
    ensures Good(RebindFails(s, g))
  {
    hide Good;
    CandidateHeld(s, g);
    FinishKeeps(s, g);
    var t := s.(rebinds := s.rebinds - {g});
    if Held(s) == Some(g) {
      FailKeeps(t, g);
      DisposeHostKeeps(t.(activeBinding := None, pendingBinding := None, trace := s.trace + [Failed(g)]), Some(g));
    } else {
      DisposeHostKeeps(t, Some(g));
    }
  }

  /** A superseded candidate disposes of itself. */
  lemma {:induction false} DropKeeps(s: State, g: Binding)
    requires Good(s) && g in s.rebinds && !s.rebinds[g].AwaitRetirement? && !IsCurrentBinding(s, g)
    ensures Good(DisposeHost(s.(rebinds := s.rebinds - {g}), Some(g)))
  {
    hide Good, IsCurrentBinding;
    CandidateHeld(s, g);
    FinishKeeps(s, g);
    DisposeHostKeeps(s.(rebinds := s.rebinds - {g}), Some(g));
  }

  lemma {:induction false} PublishKeeps(s: State, g: Binding)
    requires Good(s) && g in s.rebinds && !s.rebinds[g].AwaitRetirement? && IsCurrentBinding(s, g)
    ensures Good(s.(rebinds := s.rebinds[g := AwaitInitial], pendingBinding := None, activeBinding := Some(g)))
  {
    hide Watched, InLine;
  }

  lemma {:induction false} FinishKeeps(s: State, g: Binding)
    requires Good(s) && g in s.rebinds
    ensures Good(s.(rebinds := s.rebinds - {g}))
  {
    hide Watched, InLine;
  }

  lemma {:induction false} DeliverKeeps(s: State, g: Binding)
    requires Good(s) && IsCurrentBinding(s, g)
    ensures Good(s.(trace := s.trace + [Delivered(g)]))
  {
    hide Watched, InLine;
    Extends(s.trace, Delivered(g));
  }

  lemma {:induction false} FirstRenderKeeps(s: State, g: Binding)
    requires Good(s) && g in s.rebinds && !s.rebinds[g].AwaitRetirement?
    ensures Good(s.(rebinds := s.rebinds[g := AwaitFirstRender]))
  {
    hide Watched, InLine;
  }

  lemma {:induction false} HostSettlesKeeps(s: State, b: Binding)
    requires Good(s) && MoveEnabled(s, HostSettle(b))
    ensures Good(HostSettles(s, b))
  {
    hide Watched;
    Extends(s.trace, DisposeSettled(b));
  }

  lemma {:induction false} StartRebindKeeps(s: State)
    requires Good(s) && !s.disposed
    ensures Good(StartRebind(s))
  {
    hide Watched, InLine;
    forall b: Binding ensures InLine(s.retirements, s.retired, b) || Held(s) == Some(b) ==>
                       InLine(s.retirements + [Held(s)], s.retired, b)
    {
      LineGrows(s.retirements, s.retired, Held(s), b);
    }
  }

  lemma {:induction false} MoveKeeps(s: State, m: Move)
    requires Good(s) && MoveEnabled(s, m)
    ensures Good(MoveStep(s, m))
  {
    hide Good, RebindFails, DisposeHost;
    match m
    case RetireStart => RetireStartsKeeps(s);
    case RetireEnd => RetireEndsKeeps(s);
    case RetirementDone(g, created) =>
      if IsCurrentGeneration(s, g) && s.hostAttached && created {
        MountKeeps(s, g);
      } else {
        FinishKeeps(s, g);
      }
    case MountDone(g, ok) =>
      if !ok {
        RebindFailsKeeps(s, g);
      } else if !IsCurrentBinding(s, g) {
        DropKeeps(s, g);
      } else {
        PublishKeeps(s, g);
      }
    case InitialDone(g, provided) =>
      if provided.Throws? {
        RebindFailsKeeps(s, g);
      } else if !IsCurrentBinding(s, g) {
        DropKeeps(s, g);
      } else if provided.Stale? {
        FinishKeeps(s, g);
      } else {
        FirstRenderKeeps(s, g);
        DeliverKeeps(s.(rebinds := s.rebinds[g := AwaitFirstRender]), g);
      }
    case FirstRenderDone(g, ok) =>
      if ok {
        FinishKeeps(s, g);
      } else {
        RebindFailsKeeps(s, g);
      }
    case HostSettle(b) => HostSettlesKeeps(s, b);
  }

  // ---- Commands -------------------------------------------------------------------------------

  lemma {:induction false} RefreshStartsKeeps(s: State, attached: bool, refresh: Refresh)
    requires Good(s)
    ensures var t := s.refreshGeneration + 1;
            Good(s.(hostAttached := attached, refreshGeneration := t, refreshes := s.refreshes[t := refresh]))
  {
    hide Watched, InLine;
  }

  /** A registry snapshot is installed, and the refresh that loaded it goes on to something else. */
  lemma {:induction false} InstalledKeeps(s: State, t: Token, rest: map<Token, Refresh>)
    requires Good(s) && t in s.refreshes && !s.refreshes[t].InitLife? && IsCurrentRefresh(s, t)
    requires forall u :: u in rest ==> u <= s.refreshGeneration && (u == s.refreshGeneration ==> rest[u].InitLife?)
    ensures Good(s.(refreshes := rest, trace := s.trace + [Installed(t)]))
  {
    hide Watched, InLine;
    Extends(s.trace, Installed(t));
  }

  lemma {:induction false} InstallKeeps(s: State, t: Token)
    requires Good(s) && t in s.refreshes && !s.refreshes[t].InitLife? && IsCurrentRefresh(s, t)
    ensures Good(s.(refreshes := s.refreshes[t := InitLife], trace := s.trace + [Installed(t)]))
    ensures Good(s.(refreshes := s.refreshes - {t}, trace := s.trace + [Installed(t)]))
  {
    hide Good;
    OldTokens(s);
    InstalledKeeps(s, t, s.refreshes[t := InitLife]);
    InstalledKeeps(s, t, s.refreshes - {t});
  }

  lemma OldTokens(s: State)
    requires Good(s)
    ensures forall u :: u in s.refreshes ==> u <= s.refreshGeneration
  {
  }

  lemma {:induction false} ForgetRefreshKeeps(s: State, t: Token)
    requires Good(s)
    ensures Good(s.(refreshes := s.refreshes - {t}))
  {
    hide Watched, InLine;
  }

  lemma {:induction false} RenderKeeps(s: State, c: Command)
    requires Good(s) && (c.Render? || c.Attach?)
    ensures Good(CommandStep(s, c))
  {
    hide Watched, InLine;
  }

  lemma {:induction false} RenderDoneKeeps(s: State, call: nat, applied: bool)
    requires Good(s) && call in s.renders
    ensures Good(RenderResumes(s, call, applied))
  {
    hide Good;
    var rest := s.(renders := s.renders - {call});
    ForgetRenderKeeps(s, call);
    if IsCurrentBinding(s, s.renders[call]) && applied {
      DeliverKeeps(rest, s.renders[call]);
    }
  }

  lemma {:induction false} ForgetRenderKeeps(s: State, call: nat)
    requires Good(s)
    ensures Good(s.(renders := s.renders - {call}))
  {
    hide Watched, InLine;
  }

  lemma {:induction false} CallDisposeKeeps(s: State)
    requires Good(s)
    ensures Good(CallDispose(s))
  {
    hide Watched, InLine;
    if Held(s).Some? {
      Extends(s.trace, DisposeCalled(Held(s).value));
    }
  }

  lemma {:induction false} CommandKeeps(s: State, c: Command)
    requires Good(s) && CommandEnabled(s, c)
    ensures Good(CommandStep(s, c))
  {
    hide Good, StartRebind, CallDispose;
    match c
    case Attach(_) => RenderKeeps(s, c);
    case Render => RenderKeeps(s, c);
    case RenderDone(call, applied) => RenderDoneKeeps(s, call, applied);
    case Initialize(attached) => RefreshStartsKeeps(s, attached, InitRegistry);
    case Refresh => RefreshStartsKeeps(s, s.hostAttached, RefreshLoads);
    case InitRegistryDone(t) =>
      ForgetRefreshKeeps(s, t);
      if IsCurrentRefresh(s, t) {
        InstallKeeps(s, t);
      }
    case InitLifeDone(t, ok) =>
      ForgetRefreshKeeps(s, t);
      if ok && IsCurrentRefresh(s, t) {
        StartRebindKeeps(s.(refreshes := s.refreshes - {t}));
      }
    case RefreshDone(t, life) =>
      ForgetRefreshKeeps(s, t);
      if !life.Unreadable? && IsCurrentRefresh(s, t) {
        InstallKeeps(s, t);
        if life.Present? {
          StartRebindKeeps(s.(refreshes := s.refreshes - {t}, trace := s.trace + [Installed(t)]));
        }
      }
    case Dispose => CallDisposeKeeps(s);
  }

  lemma {:induction false} AlwaysGood(labels: seq<Label>)
    ensures Good(Run(labels))
  {
    hide Good;
    if labels == [] {
      InitiallyGood();
    } else {
      AlwaysGood(labels[..|labels| - 1]);
      var s := Run(labels[..|labels| - 1]);
      match labels[|labels| - 1]
      case OnCommand(c) =>
        if CommandEnabled(s, c) {
          CommandKeeps(s, c);
        }
      case OnMove(m) =>
        if MoveEnabled(s, m) {
          MoveKeeps(s, m);
        }
    }
  }

  lemma InitiallyGood()
    ensures Good(Initial())
  {
  }
}
