/** Cancellation, turn end and retirement are fences over whole runs. */
module HostFence {
  import opened Common
  import opened HostTypes
  import opened HostSteps
  import opened HostGeneration
  import opened HostGenerationProof
  import opened HostEvolution
  import opened HostEvolutionProof
  import opened HostChain

  /** The event exercises or grants authority on behalf of the turn. */
  predicate Empowers(e: Event, turnId: Id) {
    match e
    case ScopeAllowed(t, _, _) => t == turnId
    case CredentialReleased(t) => t == turnId
    case Admitted(p, _, _) => p.hostTurnId == turnId
    case Replied(p, decision, _, _, _) => decision.Confirm? && p.hostTurnId == turnId
    case GrantIssued(g, _) => g.hostTurnId == turnId
    case GrantRevalidated(g, _) => g.hostTurnId == turnId
    case TurnBegun(t) => t == turnId
    case _ => false
  }

  function ClosedTurn(e: Event): Option<Id>
  {
    match e
    case CancelBegun(t) => Some(t)
    case TurnEnded(t, _) => Some(t)
    case ForcedTerminal(t) => Some(t)
    case _ => None
  }

  /** `f` comes after `e`: a closed turn stays powerless, and a cancelled one ends only as such. */
  predicate Respects(e: Event, f: Event) {
    && (ClosedTurn(e).Some? ==> !Empowers(f, ClosedTurn(e).value))
    && (e.CancelBegun? && f.TurnEnded? && f.turnId == e.turnId ==> f.phase.Cancelled? || f.phase.TimedOut?)
    && (e.CancelBegun? && f.CancelBegun? ==> e.turnId != f.turnId)
  }

  predicate TurnIsClosed(e: Event, a: Authority, used: set<Id>, c: Command) {
    && (ClosedTurn(e).Some? ==> ClosedTurn(e).value in used && !ActiveFor(a, ClosedTurn(e).value))
    && (e.CancelBegun? ==> c != StartSending(e.turnId))
  }

  ghost predicate Fenced(s: State) {
    && (forall i, j :: 0 <= i < j < |s.trace| ==> Respects(s.trace[i], s.trace[j]))
    && (forall i :: 0 <= i < |s.trace| ==> TurnIsClosed(s.trace[i], s.authority, s.usedIds, s.command))
    && (s.authority.Cancelling? ==> CancelBegun(s.authority.turn.turnId) in s.trace)
  }

  lemma ClosedTurnStaysClosed(s: State, t: State, e: Event)
    requires Evolves(s, t) && TurnIsClosed(e, s.authority, s.usedIds, s.command)
    ensures TurnIsClosed(e, t.authority, t.usedIds, t.command)
  {
    if Emits(s, t) {
      assert t.trace == s.trace + [t.trace[|s.trace|]];
    }
  }

  lemma NewEventRespects(s: State, t: State, e: Event, f: Event)
    requires Evolves(s, t) && t.trace == s.trace + [f] && TurnIsClosed(e, s.authority, s.usedIds, s.command)
    requires s.authority.Cancelling? && f.TurnEnded? ==> s.command != StartSending(s.authority.turn.turnId)
    ensures Respects(e, f)
  {
    assert t.trace[|s.trace|] == f;
    assert Sound(s, f, t);
  }

  lemma NewEventCloses(s: State, t: State, f: Event)
    requires Generation(s) && Evolves(s, t) && t.trace == s.trace + [f]
    ensures TurnIsClosed(f, t.authority, t.usedIds, t.command)
  {
    assert t.trace[|s.trace|] == f;
    assert Sound(s, f, t);
  }

  lemma FencedStep(s: State, t: State)
    requires Generation(s) && Evolves(s, t) && Fenced(s)
    ensures Fenced(t)
  {
    hide Evolves, Generation, Sound, Respects, TurnIsClosed;
    assert Grows(s.trace, t.trace) by { TraceGrows(s, t); }
    forall i | 0 <= i < |t.trace| ensures TurnIsClosed(t.trace[i], t.authority, t.usedIds, t.command) {
      if i < |s.trace| {
        assert t.trace[i] == s.trace[i];
        ClosedTurnStaysClosed(s, t, s.trace[i]);
      } else {
        assert t.trace == s.trace + [t.trace[i]];
        NewEventCloses(s, t, t.trace[i]);
      }
    }
    forall i, j | 0 <= i < j < |t.trace| ensures Respects(t.trace[i], t.trace[j]) {
      assert t.trace[i] == s.trace[i];
      if j < |s.trace| {
        assert t.trace[j] == s.trace[j];
      } else {
        assert t.trace == s.trace + [t.trace[j]];
        CancellingIsNotStarting(s);
        NewEventRespects(s, t, s.trace[i], t.trace[j]);
      }
    }
    CancellingWasBegun(s, t);
  }

  lemma TraceGrows(s: State, t: State)
    requires Evolves(s, t)
    ensures Grows(s.trace, t.trace)
  {
  }

  lemma CancellingIsNotStarting(s: State)
    requires Fenced(s)
    ensures s.authority.Cancelling? ==> s.command != StartSending(s.authority.turn.turnId)
  {
    if s.authority.Cancelling? {
      var i :| 0 <= i < |s.trace| && s.trace[i] == CancelBegun(s.authority.turn.turnId);
      assert TurnIsClosed(s.trace[i], s.authority, s.usedIds, s.command);
    }
  }

  lemma CancellingWasBegun(s: State, t: State)
    requires Evolves(s, t) && Fenced(s)
    ensures t.authority.Cancelling? ==> CancelBegun(t.authority.turn.turnId) in t.trace
  {
    if Emits(s, t) {
      assert t.trace == s.trace + [t.trace[|s.trace|]];
    }
  }

  lemma {:induction false} FencedHolds(config: Config, labels: seq<Label>)
    ensures Fenced(Reach(config, labels))
    decreases |labels|
  {
    if labels != [] {
      var before := Reach(config, labels[..|labels|-1]);
      GenerationHolds(config, labels[..|labels|-1]);
      FencedHolds(config, labels[..|labels|-1]);
      StepEvolves(before, labels[|labels|-1]);
      FencedStep(before, Next(before, labels[|labels|-1]));
    }
  }

  /** Main result: after a turn's cancellation begins (or the turn ends), no later step of any run
      empowers it again, and a cancelled turn ends only as Cancelled or TimedOut, or by retirement. */
  lemma CancellationIsAFence(config: Config, labels: seq<Label>, i: nat, j: nat, turnId: Id)
    requires i < j < |Reach(config, labels).trace|
    requires ClosedTurn(Reach(config, labels).trace[i]) == Some(turnId)
    ensures var tr := Reach(config, labels).trace;
            && !Empowers(tr[j], turnId)
            && (tr[i].CancelBegun? && tr[j].TurnEnded? && tr[j].turnId == turnId ==>
                  tr[j].phase.Cancelled? || tr[j].phase.TimedOut?)
  {
    FencedHolds(config, labels);
    assert Respects(Reach(config, labels).trace[i], Reach(config, labels).trace[j]);
  }

  // ---- Late frames ------------------------------------------------------------------------------

  /** A completion frame of this session changes nothing at all, text and error included, exactly
      when it is not about the active turn. */
  lemma {:induction false} LateCompletionIsInert(s: State, turnId: Id, text: string)
    ensures TurnCompletedFrame(s, s.config.sessionId, turnId, text) == s <==> !ActiveFor(s.authority, turnId)
  {
    var t := TurnCompletedFrame(s, s.config.sessionId, turnId, text);
    if ActiveFor(s.authority, turnId) {
      assert t.authority.Idle?;
    }
  }

  /** A failure frame is inert exactly when it is neither about the active turn nor an
      acknowledgement of the cancelling one. */
  lemma {:induction false} LateFailureIsInert(s: State, turnId: Id, phase: Phase, code: string)
    requires phase.Failed? || phase.Cancelled? || phase.TimedOut?
    ensures (TurnFailedFrame(s, s.config.sessionId, turnId, phase, code) == s) <==>
            !ActiveFor(s.authority, turnId) && !(TurnIs(s.authority, turnId) && !phase.Failed?)
  {
    var t := TurnFailedFrame(s, s.config.sessionId, turnId, phase, code);
    if AcceptsPhase(s.authority, turnId, phase) {
      assert t.authority.Idle?;
    }
  }

  /** Main result: after a turn's cancellation began, a Completed or Failed frame for it changes
      nothing in any reachable state: no authority, ledger, text or error. */
  lemma {:induction false} LateFramesAreInert(config: Config, labels: seq<Label>, turnId: Id, text: string, code: string)
    requires CancelBegun(turnId) in Reach(config, labels).trace
    ensures var s := Reach(config, labels);
            && TurnCompletedFrame(s, s.config.sessionId, turnId, text) == s
            && TurnFailedFrame(s, s.config.sessionId, turnId, Failed, code) == s
  {
    hide Reach, TurnCompletedFrame, TurnFailedFrame;
    var s := Reach(config, labels);
    FencedHolds(config, labels);
    var i :| 0 <= i < |s.trace| && s.trace[i] == CancelBegun(turnId);
    assert TurnIsClosed(s.trace[i], s.authority, s.usedIds, s.command);
    LateCompletionIsInert(s, turnId, text);
    LateFailureIsInert(s, turnId, Failed, code);
  }

  // ---- Retirement ---------------------------------------------------------------------------------

  /** No turn can act: the session is closed and its authority left Active for good. */
  predicate Retired(s: State) {
    s.closed && !s.authority.Active?
  }

  predicate Powerless(e: Event) {
    !(|| e.TurnBegun? || e.ScopeAllowed? || e.CredentialReleased? || e.Admitted?
      || e.GrantIssued? || e.GrantRevalidated? || (e.Replied? && e.decision.Confirm?))
  }

  lemma RetiredStep(s: State, t: State)
    requires Evolves(s, t) && Retired(s)
    ensures Retired(t)
    ensures t.pending.Keys <= s.pending.Keys
    ensures t.approvals.Keys <= s.approvals.Keys
    ensures t.grants.Keys <= s.grants.Keys
    ensures |s.trace| <= |t.trace| && t.trace[..|s.trace|] == s.trace
    ensures forall k :: |s.trace| <= k < |t.trace| ==> Powerless(t.trace[k])
  {
    if Emits(s, t) {
      assert t.trace == s.trace + [t.trace[|s.trace|]];
    }
  }

  /** Whatever any thread does later, a retired session only loses evidence and never empowers. */
  lemma {:induction false} RetirementIsFinal(s: State, more: seq<Label>)
    requires Generation(s) && Retired(s)
    ensures var t := After(s, more);
            && Generation(t) && Retired(t)
            && t.pending.Keys <= s.pending.Keys
            && t.approvals.Keys <= s.approvals.Keys
            && t.grants.Keys <= s.grants.Keys
            && |s.trace| <= |t.trace| && t.trace[..|s.trace|] == s.trace
            && forall k :: |s.trace| <= k < |t.trace| ==> Powerless(t.trace[k])
    decreases |more|
  {
    if more != [] {
      var n := |more| - 1;
      var u := After(s, more[..n]);
      RetirementIsFinal(s, more[..n]);
      GenerationStep(u, more[n]);
      StepEvolves(u, more[n]);
      RetiredStep(u, Next(u, more[n]));
      var t := Next(u, more[n]);
      forall k | |s.trace| <= k < |t.trace| ensures Powerless(t.trace[k]) {
        if k < |u.trace| { assert t.trace[k] == t.trace[..|u.trace|][k]; }
      }
    }
  }

  /** The pieces in the order of the source. */
  function RetireLabels(who: Caller): seq<Label>
  {
    [OnRetire(who, Close), OnRetire(who, Drain), OnRetire(who, DropApprovals), OnRetire(who, DropGrants),
     OnRetire(who, StopTimer), OnRetire(who, Force)]
  }

  /** Retirement without interference. */
  function RetireAll(s: State, who: Caller): State
  {
    RetireStep(RetireStep(RetireStep(RetireStep(RetireStep(RetireStep(s, who, Close), who, Drain),
      who, DropApprovals), who, DropGrants), who, StopTimer), who, Force)
  }

  /** The caller may begin to retire the session now. */
  predicate Retires(s: State, who: Caller) {
    MayRetire(s, who) && Done(s, who) == 0
  }

  lemma PieceIsNext(s: State, who: Caller, r: Retirement)
    requires RetireEnabled(s, who, r)
    ensures var t := RetireStep(s, who, r);
            && Next(s, OnRetire(who, r)) == t && t.closed && MayRetire(t, who) && Done(t, who) == Place(r) + 1
  {
  }

  lemma {:induction false} RetireAllRuns(s: State, who: Caller)
    requires Retires(s, who)
    ensures After(s, RetireLabels(who)) == RetireAll(s, who)
  {
    hide Next, RetireStep, After;
    var s1 := RetireStep(s, who, Close);
    PieceIsNext(s, who, Close);
    var s2 := RetireStep(s1, who, Drain);
    PieceIsNext(s1, who, Drain);
    var s3 := RetireStep(s2, who, DropApprovals);
    PieceIsNext(s2, who, DropApprovals);
    var s4 := RetireStep(s3, who, DropGrants);
    PieceIsNext(s3, who, DropGrants);
    var s5 := RetireStep(s4, who, StopTimer);
    PieceIsNext(s4, who, StopTimer);
    PieceIsNext(s5, who, Force);
    AfterSix(s, RetireLabels(who));
  }

  lemma AfterSix(s: State, l: seq<Label>)
    requires |l| == 6
    ensures After(s, l) == Next(Next(Next(Next(Next(Next(s, l[0]), l[1]), l[2]), l[3]), l[4]), l[5])
  {
    hide Next;
    assert l[..5][..4] == l[..4] && l[..4][..3] == l[..3] && l[..3][..2] == l[..2] && l[..2][..1] == l[..1] && l[..1][..0] == [];
    assert After(s, l[..1]) == Next(s, l[0]);
    assert After(s, l[..2]) == Next(After(s, l[..1]), l[1]);
    assert After(s, l[..3]) == Next(After(s, l[..2]), l[2]);
    assert After(s, l[..4]) == Next(After(s, l[..3]), l[3]);
    assert After(s, l[..5]) == Next(After(s, l[..4]), l[4]);
  }

  lemma {:induction false} RetireAllKeeps(s: State, who: Caller)
    requires Generation(s)
    ensures Generation(RetireAll(s, who))
  {
    hide Generation, RetireStep;
    var s1 := RetireStep(s, who, Close);
    RetireKeeps(s, who, Close);
    var s2 := RetireStep(s1, who, Drain);
    RetireKeeps(s1, who, Drain);
    var s3 := RetireStep(s2, who, DropApprovals);
    RetireKeeps(s2, who, DropApprovals);
    var s4 := RetireStep(s3, who, DropGrants);
    RetireKeeps(s3, who, DropGrants);
    var s5 := RetireStep(s4, who, StopTimer);
    RetireKeeps(s4, who, StopTimer);
    RetireKeeps(s5, who, Force);
  }

  /** What the block does to each field. */
  function RetiredState(s: State, who: Caller): State
  {
    s.(closed := true, pending := map[], owed := s.owed + Owing(s.pending, s.pending.Keys, Deny, true),
       approvals := map[], grants := map[], timer := None, timerStopped := true,
       authority := ForcedAuthority(s.authority), trace := ForcedTrace(s.authority, s.trace),
       stopDone := if who.ByStop? then s.stopDone + PIECES else s.stopDone,
       readerDone := if who.ByReader? then s.readerDone + PIECES else s.readerDone)
  }

  lemma RetireAllIs(s: State, who: Caller)
    ensures RetireAll(s, who) == RetiredState(s, who)
  {
    hide Owing;
    assert Without(s.pending, s.pending.Keys) == map[];
  }

  /** Main result: once either caller has run `retire` as one block, the three ledgers stay empty and
      no turn is ever active, in every later interleaving. */
  lemma {:induction false} RetiredForever(config: Config, labels: seq<Label>, who: Caller, more: seq<Label>)
    requires Retires(Reach(config, labels), who)
    ensures var t := After(After(Reach(config, labels), RetireLabels(who)), more);
            && !t.authority.Active?
            && t.pending == map[] && t.approvals == map[] && t.grants == map[]
  {
    hide RetireAll;
    var s := Reach(config, labels);
    GenerationHolds(config, labels);
    RetireAllRuns(s, who);
    RetireAllKeeps(s, who);
    RetireAllIs(s, who);
    RetirementIsFinal(RetireAll(s, who), more);
  }

  /** Without that atomicity the approvals may not end up empty: once the reader's loop has ended, a
      decider that already took its action can store one between their clearing and the final
      transition.  The approval is unusable, since the session is retired. */
  lemma InterleavedRetirementMayLeaveApproval(s: State, confirmationId: Id)
    requires s.closed && !s.reading && s.readerDone == Place(DropApprovals)
    requires s.command.Deciding? && s.command.decision.Confirm? && s.command.cleared
    requires ActiveFor(s.authority, s.command.pending.hostTurnId)
    requires ValidBinding(s.config, s.command.pending.binding) && s.authorization.enabled
    requires s.now < s.command.pending.expiresAt && Fresh(s, confirmationId)
    ensures var cleared := RetireStep(s, ByReader, DropApprovals);
            var decided := DecidePending(cleared, confirmationId, s.now, true, true);
            var t := RetireStep(RetireStep(RetireStep(decided, ByReader, DropGrants), ByReader, StopTimer), ByReader, Force);
            && RetireEnabled(s, ByReader, DropApprovals)
            && ActEnabled(cleared, DecideAct(confirmationId, s.now, true, true))
            && t.authority.Terminal? && Retired(t) && t.readerDone == PIECES
            && ApprovalKey(s.command.pending.hostTurnId, s.command.pending.binding) in t.approvals
  {
    hide ValidBinding, ApprovalKey;
  }
}
