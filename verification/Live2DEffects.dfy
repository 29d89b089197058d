/** What each stretch of the Live2D adapter's code does, spelled out, and that a render of a mounted
    adapter reaches its engine. */
module Live2DEffects {
  import opened Common
  import opened Live2D
  import opened Live2DProof

  lemma {:induction false} MayStepExactly(s: State, l: Label)
    ensures Enabled(s, l) <==>
              match l
              case EngineReturn(_) => s.mount.AwaitEngine? && s.mount.back == None && s.engine.Some?
              case MountContinue(_) =>
                (match s.mount
                 case NoMount => false
                 case AwaitEngine(_, _, back) => back.Some?
                 case AwaitAbort(_, w) => Over(s, w)
                 case AwaitFail(_, w) => Over(s, w))
              case Finally(g) => s.mount == NoMount || s.mount.generation != g
              case DisposeContinue(_) =>
                (match s.dispose
                 case AwaitMount(g) => s.mount == NoMount || s.mount.generation != g
                 case AwaitRelease(w) => Over(s, w)
                 case _ => false)
              case DisposalReturn(e) => e in s.inFlight
              case _ => true
  {
  }

  /** The disposal a thread waits for has settled. */
  predicate Over(s: State, w: Wait) {
    match w case Nothing => true case Own(e) => e !in s.inFlight case Other(e) => e !in s.inFlight
  }

  /** The engine is given up: its dispose is called, and throws at once or is under way.  A disposal under
      way is shared. */
  function GivenUp(s: State, throws: bool): State
  {
    if s.engineDisposal.Some? || s.engine == None then s
    else
      var e := s.engine.value;
      if throws then s.(engine := None, trace := s.trace + [Dropped(e)])
      else s.(engine := None, engineDisposal := Some(e), inFlight := s.inFlight + {e}, trace := s.trace + [DisposeCalled(e)])
  }

  function WaitNow(s: State, throws: bool): Wait
  {
    match s.engineDisposal
    case Some(e) => Other(e)
    case None => if s.engine == None || throws then Nothing else Own(s.engine.value)
  }

  /** The thread that started a disposal forgets it when it goes on. */
  function Forgotten(s: State, w: Wait): State
  {
    if w.Own? && s.engineDisposal == Some(w.engine) then s.(engineDisposal := None) else s
  }

  lemma GivingUp(s: State, throws: bool, w: Wait)
    ensures DisposeEngine(s, throws) == GivenUp(s, throws) && WaitFor(s, throws) == WaitNow(s, throws)
    ensures Released(s, w) == Forgotten(s, w)
  {
  }

  lemma {:induction false} MountEffect(s: State, host: Element, made: bool)
    ensures var t := Step(s, Mount(host, made));
            var g := s.lifecycleGeneration + 1;
            var begun := s.(phase := Mounting, lifecycleGeneration := g, pendingMount := Some(g), pendingMountHost := Some(host));
            t == if s.phase != Unmounted then s
                 else if made then begun.(engine := Some(s.nextEngine), nextEngine := s.nextEngine + 1, mount := AwaitEngine(g, host, None),
                                          trace := s.trace + [Started(s.nextEngine)])
                 else begun.(mount := AwaitFail(g, Nothing))
  {
  }

  lemma {:induction false} ReturnEffect(s: State, l: Label)
    requires Enabled(s, l) && (l.EngineReturn? || l.DisposalReturn? || l.Finally?)
    ensures var t := Step(s, l);
            match l
            case EngineReturn(ok) =>
              t == s.(mount := AwaitEngine(s.mount.generation, s.mount.host, Some(ok)), trace := s.trace + [MountReturned(s.engine.value, ok)])
            case DisposalReturn(e) => t == s.(inFlight := s.inFlight - {e}, trace := s.trace + [DisposeReturned(e)])
            case Finally(g) => t == if s.pendingMount == Some(g) then s.(pendingMount := None, pendingMountHost := None) else s
            case _ => true
  {
  }

  /** The mount is still the present one. */
  predicate Present(s: State, g: nat) {
    s.phase == Mounting && s.lifecycleGeneration == g
  }

  /** An engine that mounted is published while its mount is the present one; any other is given up, and a
      present mount that failed leaves the adapter unmounted. */
  lemma {:induction false} MountGoesOn(s: State, throws: bool)
    requires MountReady(s)
    ensures var t := Step(s, MountContinue(throws));
            match s.mount
            case AwaitEngine(g, h, back) =>
              if back == Some(true) && Present(s, g) then t == s.(host := Some(h), phase := Mounted, mount := NoMount)
              else if back == Some(true) then t == GivenUp(s, throws).(mount := AwaitAbort(g, WaitNow(s, throws)))
              else t == GivenUp(s, throws).(mount := AwaitFail(g, WaitNow(s, throws)))
            case AwaitAbort(_, w) => t == Forgotten(s, w).(mount := NoMount)
            case AwaitFail(g, w) =>
              t == if Present(s, g) then Forgotten(s, w).(mount := NoMount, phase := Unmounted, host := None)
                   else Forgotten(s, w).(mount := NoMount)
            case NoMount => true
  {
    hide DisposeEngine, WaitFor, Released, GivenUp, WaitNow, Forgotten;
    match s.mount
    case AwaitEngine(_, _, _) => GivingUp(s, throws, Nothing);
    case AwaitAbort(_, w) => GivingUp(s, throws, w);
    case AwaitFail(_, w) => GivingUp(s, throws, w); ForgettingKeeps(s, w);
    case NoMount =>
  }

  lemma ForgettingKeeps(s: State, w: Wait)
    ensures var t := Forgotten(s, w); t.phase == s.phase && t.host == s.host
  {
  }

  lemma {:induction false} DisposeEffect(s: State, throws: bool)
    ensures var t := Step(s, Dispose(throws));
            var u := if s.pendingMount.Some? then s else GivenUp(s, throws);
            if s.phase == Disposed then t == s
            else t == u.(phase := Disposed, lifecycleGeneration := s.lifecycleGeneration + 1, host := None, pendingMount := None,
                         pendingMountHost := None,
                         dispose := match s.pendingMount case Some(g) => AwaitMount(g) case None => AwaitRelease(WaitNow(s, throws)))
  {
    hide DisposeEngine, WaitFor, GivenUp, WaitNow;
    GivingUp(s, throws, Nothing);
  }

  lemma {:induction false} DisposeGoesOn(s: State, throws: bool)
    requires DisposeReady(s)
    ensures var t := Step(s, DisposeContinue(throws));
            match s.dispose
            case AwaitMount(_) => t == GivenUp(s, throws).(dispose := AwaitRelease(WaitNow(s, throws)))
            case AwaitRelease(w) => t == Forgotten(s, w).(dispose := DisposeOver)
            case _ => true
  {
    hide DisposeEngine, WaitFor, Released, GivenUp, WaitNow, Forgotten;
    match s.dispose
    case AwaitMount(_) => GivingUp(s, throws, Nothing);
    case AwaitRelease(w) => GivingUp(s, throws, w);
    case _ =>
  }

  /** Main result: in every run a render call reaches the one live engine exactly when the adapter is
      mounted, and does nothing else. */
  lemma {:induction false} RenderReachesEngine(labels: seq<Label>)
    ensures var s, t := Run(labels), Step(Run(labels), Render);
            if s.phase == Mounted then
              s.engine.Some? && Observed(s.trace).live == s.engine && t == s.(trace := s.trace + [RenderCalled(s.engine.value)])
            else t == s
  {
    hide Run, Observed;
    AlwaysGood(labels);
  }
}
