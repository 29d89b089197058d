/** `BodyRuntimeBindingController` as an object (src/body/bodyRuntimeBinding.ts): one method per
    stretch of code between two suspension points, each specified by the step function of the same
    moment. */
module RuntimeBindingObject {
  import opened Common
  import opened RuntimeBinding
  import opened RuntimeBindingProof

  class BodyRuntimeBindingController {
    var hostAttached: bool
    var activeBinding: Option<Binding>
    var pendingBinding: Option<Binding>
    var bindingGeneration: nat
    var refreshGeneration: nat
    var retirements: seq<Option<Binding>>
    var retired: nat
    var retiring: bool
    var disposed: bool
    var rebinds: map<Binding, Rebind>
    var refreshes: map<Token, Refresh>
    var renders: map<nat, Binding>
    var renderCalls: nat
    var hosts: map<Binding, HostStatus>
    var trace: seq<Event>

    function Model(): State
      reads this
    {
      State(hostAttached, activeBinding, pendingBinding, bindingGeneration, refreshGeneration, retirements, retired,
            retiring, disposed, rebinds, refreshes, renders, renderCalls, hosts, trace)
    }

    ghost predicate Valid()
      reads this
    {
      Good(Model())
    }

    constructor ()
      ensures Valid() && Model() == Initial()
      ensures !disposed && !hostAttached && activeBinding == None && pendingBinding == None
      ensures bindingGeneration == 0 && refreshGeneration == 0 && retirements == [] && hosts == map[] && trace == []
    {
      hostAttached, activeBinding, pendingBinding, bindingGeneration, refreshGeneration := false, None, None, 0, 0;
      retirements, retired, retiring, disposed := [], 0, false, false;
      rebinds, refreshes, renders, renderCalls, hosts, trace := map[], map[], map[], 0, map[], [];
      new;
      hide Good;
      InitiallyGood();
    }

    /** The first dispose call of a host starts its disposal. */
    method DisposeHostOf(b: Option<Binding>)
      modifies this`hosts, this`trace
      ensures Model() == DisposeHost(old(Model()), b)
    {
      if b.Some? && b.value in hosts && hosts[b.value].Open? {
        hosts, trace := hosts[b.value := Disposing], trace + [DisposeCalled(b.value)];
      }
    }

    method HostSettled(b: Binding)
      modifies this`hosts, this`trace
      ensures Model() == HostSettles(old(Model()), b)
    {
      hosts, trace := hosts[b := Settled], trace + [DisposeSettled(b)];
    }

    // ---- Rebind -------------------------------------------------------------------------------

    method Rebind()
      modifies this`bindingGeneration, this`activeBinding, this`pendingBinding, this`retirements, this`rebinds
      ensures Model() == StartRebind(old(Model()))
    {
      bindingGeneration := bindingGeneration + 1;
      var previous := if activeBinding.Some? then activeBinding else pendingBinding;
      activeBinding, pendingBinding := None, None;
      rebinds := rebinds[bindingGeneration := AwaitRetirement(|retirements|)];
      retirements := retirements + [previous];
    }

    method StartRetirement()
      requires retired < |retirements|
      modifies this`retiring, this`retired, this`hosts, this`trace
      ensures Model() == RetireStarts(old(Model()))
    {
      var previous := retirements[retired];
      if previous.None? {
        retired, retiring := retired + 1, false;
      } else {
        retiring := true;
      }
      DisposeHostOf(previous);
    }

    method EndRetirement()
      modifies this`retiring, this`retired
      ensures Model() == RetireEnds(old(Model()))
    {
      retiring, retired := false, retired + 1;
    }

    method MountCandidate(g: Binding, created: bool)
      modifies this`rebinds, this`pendingBinding, this`hosts, this`trace
      ensures Model() == RebindMounts(old(Model()), g, created)
    {
      if disposed || bindingGeneration != g || !hostAttached || !created {
        rebinds := rebinds - {g};
        return;
      }
      pendingBinding, hosts := Some(g), hosts[g := Open];
      rebinds, trace := rebinds[g := AwaitMount], trace + [MountCalled(g)];
    }

    method FailCandidate(g: Binding)
      modifies this`rebinds, this`pendingBinding, this`activeBinding, this`hosts, this`trace
      ensures Model() == RebindFails(old(Model()), g)
    {
      rebinds := rebinds - {g};
      if activeBinding == Some(g) || pendingBinding == Some(g) {
        trace := trace + [Failed(g)];
      }
      if pendingBinding == Some(g) {
        pendingBinding := None;
      }
      if activeBinding == Some(g) {
        activeBinding := None;
      }
      DisposeHostOf(Some(g));
    }

    method DropCandidate(g: Binding)
      modifies this`rebinds, this`hosts, this`trace
      ensures Model() == DisposeHost(old(Model()).(rebinds := old(rebinds) - {g}), Some(g))
    {
      rebinds := rebinds - {g};
      DisposeHostOf(Some(g));
    }

    method Current(g: Binding) returns (current: bool)
      ensures current == IsCurrentBinding(Model(), g)
    {
      return !disposed && bindingGeneration == g && (activeBinding == Some(g) || pendingBinding == Some(g));
    }

    method MountEnded(g: Binding, ok: bool)
      modifies this`rebinds, this`pendingBinding, this`activeBinding, this`hosts, this`trace
      ensures Model() == MountEnds(old(Model()), g, ok)
    {
      hide IsCurrentBinding, DisposeHost, RebindFails;
      if !ok {
        FailCandidate(g);
        return;
      }
      var current := Current(g);
      if current {
        pendingBinding, activeBinding := None, Some(g);
        rebinds := rebinds[g := AwaitInitial];
      } else {
        DropCandidate(g);
      }
    }

    method InitialEnded(g: Binding, provided: Provided)
      modifies this`rebinds, this`pendingBinding, this`activeBinding, this`hosts, this`trace
      ensures Model() == InitialEnds(old(Model()), g, provided)
    {
      hide IsCurrentBinding, DisposeHost, RebindFails;
      if provided.Throws? {
        FailCandidate(g);
        return;
      }
      var current := Current(g);
      if !current {
        DropCandidate(g);
      } else if provided.Stale? {
        rebinds := rebinds - {g};
      } else {
        rebinds, trace := rebinds[g := AwaitFirstRender], trace + [Delivered(g)];
      }
    }

    method FirstRenderEnded(g: Binding, ok: bool)
      modifies this`rebinds, this`pendingBinding, this`activeBinding, this`hosts, this`trace
      ensures Model() == FirstRenderEnds(old(Model()), g, ok)
    {
      if ok {
        rebinds := rebinds - {g};
      } else {
        FailCandidate(g);
      }
    }

    // ---- Render, refresh, dispose ---------------------------------------------------------------

    method Render()
      modifies this`renders, this`renderCalls
      ensures Model() == CallRender(old(Model()))
    {
      if activeBinding.Some? && !disposed {
        renders, renderCalls := renders[renderCalls := activeBinding.value], renderCalls + 1;
      }
    }

    method RenderResumed(call: nat, applied: bool)
      requires call in renders
      modifies this`renders, this`trace
      ensures Model() == RenderResumes(old(Model()), call, applied)
    {
      hide IsCurrentBinding;
      var b := renders[call];
      var current := Current(b);
      renders := renders - {call};
      if current && applied {
        trace := trace + [Delivered(b)];
      }
    }

    method Initialize(attached: bool)
      modifies this`hostAttached, this`refreshGeneration, this`refreshes
      ensures Model() == StartInitialize(old(Model()), attached)
    {
      hostAttached, refreshGeneration := attached, refreshGeneration + 1;
      refreshes := refreshes[refreshGeneration := InitRegistry];
    }

    method Refresh()
      modifies this`refreshGeneration, this`refreshes
      ensures Model() == StartRefresh(old(Model()))
    {
      if disposed || !hostAttached {
        return;
      }
      refreshGeneration := refreshGeneration + 1;
      refreshes := refreshes[refreshGeneration := RefreshLoads];
    }

    method RegistryLoaded(t: Token)
      modifies this`refreshes, this`trace
      ensures Model() == InitRegistryLoads(old(Model()), t)
    {
      if disposed || refreshGeneration != t {
        refreshes := refreshes - {t};
      } else {
        refreshes, trace := refreshes[t := InitLife], trace + [Installed(t)];
      }
    }

    method LifeLoaded(t: Token, ok: bool)
      modifies this`refreshes, this`bindingGeneration, this`activeBinding, this`pendingBinding, this`retirements,
               this`rebinds
      ensures Model() == InitLifeLoads(old(Model()), t, ok)
    {
      refreshes := refreshes - {t};
      if ok && !disposed && refreshGeneration == t {
        Rebind();
      }
    }

    method RefreshEnded(t: Token, life: Life)
      modifies this`refreshes, this`bindingGeneration, this`activeBinding, this`pendingBinding, this`retirements,
               this`rebinds, this`trace
      ensures Model() == RefreshLoaded(old(Model()), t, life)
    {
      refreshes := refreshes - {t};
      if life.Unreadable? || disposed || refreshGeneration != t {
        return;
      }
      trace := trace + [Installed(t)];
      if life.Present? {
        Rebind();
      }
    }

    /** Lets go of the binding. */
    method TakeHeld() returns (binding: Option<Binding>)
      modifies this`activeBinding, this`pendingBinding
      ensures binding == Held(old(Model())) && activeBinding.None? && pendingBinding.None?
    {
      binding := if activeBinding.Some? then activeBinding else pendingBinding;
      activeBinding, pendingBinding := None, None;
    }

    method Dispose()
      modifies this`disposed, this`refreshGeneration, this`bindingGeneration, this`activeBinding, this`pendingBinding,
               this`hostAttached, this`hosts, this`trace
      ensures var n := CallDispose(old(Model()));
              disposed == n.disposed && refreshGeneration == n.refreshGeneration && bindingGeneration == n.bindingGeneration
              && activeBinding == n.activeBinding && pendingBinding == n.pendingBinding && hostAttached == n.hostAttached
              && hosts == n.hosts && trace == n.trace
    {
      hide Held;
      if disposed {
        return;
      }
      var binding := TakeHeld();
      DisposeHostOf(binding);
      disposed, refreshGeneration, bindingGeneration := true, refreshGeneration + 1, bindingGeneration + 1;
      hostAttached := false;
    }

    /** The whole state after disposal. */
    method RunDispose()
      modifies this
      ensures Model() == CallDispose(old(Model()))
    {
      Dispose();
    }

    // ---- Any moment of the event loop -----------------------------------------------------------

    method AdvanceCommand(c: Command)
      requires Valid() && CommandEnabled(Model(), c)
      modifies this
      ensures Model() == CommandStep(old(Model()), c) && Valid()
    {
      hide Good, StartInitialize, StartRefresh, InitRegistryLoads, InitLifeLoads, RefreshLoaded;
      hide CallRender, RenderResumes, CallDispose;
      CommandKeeps(Model(), c);
      match c
      case Attach(attached) => hostAttached := attached;
      case Initialize(attached) => Initialize(attached);
      case Refresh => Refresh();
      case InitRegistryDone(t) => RegistryLoaded(t);
      case InitLifeDone(t, ok) => LifeLoaded(t, ok);
      case RefreshDone(t, life) => RefreshEnded(t, life);
      case Render => Render();
      case RenderDone(call, applied) => RenderResumed(call, applied);
      case Dispose => RunDispose();
    }

    method AdvanceMove(m: Move)
      requires Valid() && MoveEnabled(Model(), m)
      modifies this
      ensures Model() == MoveStep(old(Model()), m) && Valid()
    {
      hide Good, RetireStarts, RetireEnds, RebindMounts, MountEnds, InitialEnds, FirstRenderEnds, HostSettles;
      MoveKeeps(Model(), m);
      match m
      case RetireStart => StartRetirement();
      case RetireEnd => EndRetirement();
      case RetirementDone(g, created) => MountCandidate(g, created);
      case MountDone(g, ok) => MountEnded(g, ok);
      case InitialDone(g, provided) => InitialEnded(g, provided);
      case FirstRenderDone(g, ok) => FirstRenderEnded(g, ok);
      case HostSettle(b) => HostSettled(b);
    }
  }
}
