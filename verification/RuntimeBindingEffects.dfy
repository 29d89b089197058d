/** What each stretch of the binding controller's code does, spelled out, and exactly when a render is
    delivered, a refresh installed, and a candidate mounted. */
module RuntimeBindingEffects {
  import opened Common
  import opened RuntimeBinding
  import opened RuntimeBindingProof

  function HeldNow(s: State): Option<Binding>
  {
    match s.activeBinding case Some(b) => Some(b) case None => s.pendingBinding
  }

  /** The binding the controller holds under its present generation. */
  predicate IsHeld(s: State, b: Binding) {
    !s.disposed && s.bindingGeneration == b && (s.activeBinding == Some(b) || s.pendingBinding == Some(b))
  }

  predicate OpenHost(s: State, b: Binding) {
    b in s.hosts && s.hosts[b] == Open
  }

  /** The first dispose call of an open host starts its disposal; any other call changes nothing. */
  function LetGo(s: State, b: Binding): State
  {
    if OpenHost(s, b) then s.(hosts := s.hosts[b := Disposing], trace := s.trace + [DisposeCalled(b)]) else s
  }

  lemma LettingGo(s: State, b: Binding)
    ensures DisposeHost(s, Some(b)) == LetGo(s, b) && DisposeHost(s, None) == s
  {
  }

  /** The generation grows, the held binding joins the retirement tail, and a rebind waits behind it. */
  function Rebinding(s: State): State
  {
    s.(bindingGeneration := s.bindingGeneration + 1, activeBinding := None, pendingBinding := None,
       retirements := s.retirements + [HeldNow(s)],
       rebinds := s.rebinds[s.bindingGeneration + 1 := AwaitRetirement(|s.retirements|)])
  }

  // ---- Commands ------------------------------------------------------------------------------------

  lemma {:induction false} CommandEffect(s: State, c: Command)
    ensures var t := Next(s, OnCommand(c));
            match c
            case Attach(attached) => t == s.(hostAttached := attached)
            case Initialize(attached) =>
              t == s.(hostAttached := attached, refreshGeneration := s.refreshGeneration + 1,
                      refreshes := s.refreshes[s.refreshGeneration + 1 := InitRegistry])
            case Refresh =>
              t == if s.disposed || !s.hostAttached then s
                   else s.(refreshGeneration := s.refreshGeneration + 1, refreshes := s.refreshes[s.refreshGeneration + 1 := RefreshLoads])
            case Render =>
              t == if s.disposed || s.activeBinding == None then s
                   else s.(renders := s.renders[s.renderCalls := s.activeBinding.value], renderCalls := s.renderCalls + 1)
            case Dispose =>
              var over := s.(disposed := true, refreshGeneration := s.refreshGeneration + 1, bindingGeneration := s.bindingGeneration + 1,
                             activeBinding := None, pendingBinding := None, hostAttached := false);
              if s.disposed then t == s
              else match HeldNow(s) { case Some(b) => t == LetGo(over, b) case None => t == over }
            case _ => true
  {
    hide DisposeHost, LetGo;
    if HeldNow(s).Some? {
      LettingGo(s.(disposed := true, refreshGeneration := s.refreshGeneration + 1, bindingGeneration := s.bindingGeneration + 1,
                   activeBinding := None, pendingBinding := None, hostAttached := false), HeldNow(s).value);
    } else {
      LettingGo(s.(disposed := true, refreshGeneration := s.refreshGeneration + 1, bindingGeneration := s.bindingGeneration + 1,
                   activeBinding := None, pendingBinding := None, hostAttached := false), 0);
    }
  }

  /** Only the newest refresh of a controller that lives installs what it loaded, and rebinds. */
  lemma {:induction false} RefreshEffect(s: State, c: Command)
    requires c.InitRegistryDone? || c.InitLifeDone? || c.RefreshDone?
    ensures var t := Next(s, OnCommand(c));
            var newest := !s.disposed && s.refreshGeneration == c.token;
            var over := s.(refreshes := s.refreshes - {c.token});
            var installed := over.(trace := s.trace + [Installed(c.token)]);
            match c
            case InitRegistryDone(token) =>
              if !(token in s.refreshes && s.refreshes[token] == InitRegistry) then t == s
              else if newest then t == s.(refreshes := s.refreshes[token := InitLife], trace := s.trace + [Installed(token)])
              else t == over
            case InitLifeDone(token, ok) =>
              if !(token in s.refreshes && s.refreshes[token] == InitLife) then t == s
              else if ok && newest then t == Rebinding(over) else t == over
            case RefreshDone(token, life) =>
              if !(token in s.refreshes && s.refreshes[token] == RefreshLoads) then t == s
              else if life == Unreadable || !newest then t == over
              else if life == Absent then t == installed
              else t == Rebinding(installed)
            case _ => true
  {
  }

  /** Main result: a render is delivered exactly when the provider's result applies and the binding it
      was called on is still the one held; either way the call is over. */
  lemma {:induction false} RenderEffect(s: State, call: nat, applied: bool)
    ensures var t := Next(s, OnCommand(RenderDone(call, applied)));
            if call !in s.renders then t == s
            else
              var b := s.renders[call];
              t == s.(renders := s.renders - {call}, trace := if applied && IsHeld(s, b) then s.trace + [Delivered(b)] else s.trace)
  {
  }

  // ---- Moves ---------------------------------------------------------------------------------------

  lemma {:induction false} TailEffect(s: State, m: Move)
    requires m.RetireStart? || m.RetireEnd? || m.HostSettle?
    ensures var t := Next(s, OnMove(m));
            match m
            case RetireStart =>
              if s.retiring || s.retired >= |s.retirements| then t == s
              else (match s.retirements[s.retired]
                    case None => t == s.(retired := s.retired + 1)
                    case Some(b) => t == LetGo(s, b).(retiring := true))
            case RetireEnd =>
              t == if s.retiring && s.retired < |s.retirements| && s.retirements[s.retired].Some?
                      && s.retirements[s.retired].value in s.hosts && s.hosts[s.retirements[s.retired].value] == Settled
                   then s.(retiring := false, retired := s.retired + 1) else s
            case HostSettle(b) =>
              t == if b in s.hosts && s.hosts[b] == Disposing then s.(hosts := s.hosts[b := Settled], trace := s.trace + [DisposeSettled(b)]) else s
            case _ => true
  {
  }

  /** A candidate is mounted exactly when the rebind has waited for its retirement, its generation is the
      present one, an element is attached, and the presentation could be made. */
  lemma {:induction false} CandidateEffect(s: State, g: Binding, created: bool)
    ensures var t := Next(s, OnMove(RetirementDone(g, created)));
            t == if !(g in s.rebinds && s.rebinds[g].AwaitRetirement? && s.rebinds[g].index < s.retired) then s
                 else if !s.disposed && s.bindingGeneration == g && s.hostAttached && created
                 then s.(rebinds := s.rebinds[g := AwaitMount], pendingBinding := Some(g), hosts := s.hosts[g := Open],
                         trace := s.trace + [MountCalled(g)])
                 else s.(rebinds := s.rebinds - {g})
  {
  }

  /** A candidate that failed is forgotten, and disposed; if it was still held, that is on record. */
  function Abandoned(s: State, g: Binding): State
  {
    var held := s.activeBinding == Some(g) || s.pendingBinding == Some(g);
    LetGo(s.(rebinds := s.rebinds - {g},
             pendingBinding := if s.pendingBinding == Some(g) then None else s.pendingBinding,
             activeBinding := if s.activeBinding == Some(g) then None else s.activeBinding,
             trace := if held then s.trace + [Failed(g)] else s.trace), g)
  }

  lemma Abandoning(s: State, g: Binding)
    ensures RebindFails(s, g) == Abandoned(s, g)
    ensures DisposeHost(s.(rebinds := s.rebinds - {g}), Some(g)) == LetGo(s.(rebinds := s.rebinds - {g}), g)
  {
  }

  /** A mounted candidate is published while it is held, its first snapshot is delivered while it is still
      held, and a failure at any of the three awaits abandons it. */
  lemma {:induction false} StartEffect(s: State, m: Move)
    requires m.MountDone? || m.InitialDone? || m.FirstRenderDone?
    ensures var t, g := Next(s, OnMove(m)), m.binding;
            var gone := s.(rebinds := s.rebinds - {g});
            match m
            case MountDone(_, ok) =>
              if !(g in s.rebinds && s.rebinds[g] == AwaitMount) then t == s
              else if !ok then t == Abandoned(s, g)
              else if !IsHeld(s, g) then t == LetGo(gone, g)
              else t == s.(rebinds := s.rebinds[g := AwaitInitial], pendingBinding := None, activeBinding := Some(g))
            case InitialDone(_, provided) =>
              if !(g in s.rebinds && s.rebinds[g] == AwaitInitial) then t == s
              else if provided == Throws then t == Abandoned(s, g)
              else if !IsHeld(s, g) then t == LetGo(gone, g)
              else if provided == Stale then t == gone
              else t == s.(rebinds := s.rebinds[g := AwaitFirstRender], trace := s.trace + [Delivered(g)])
            case FirstRenderDone(_, ok) =>
              if !(g in s.rebinds && s.rebinds[g] == AwaitFirstRender) then t == s
              else if ok then t == gone
              else t == Abandoned(s, g)
            case _ => true
  {
    hide DisposeHost, RebindFails, LetGo, Abandoned;
    Abandoning(s, m.binding);
  }
}
