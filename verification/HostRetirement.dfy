/** Retirement under interference.  `retire` runs twice at most: by the coordinator, after it gave
    the session up and can run no command any more, and by the reader thread, after its loop has
    ended.  What each leaves in the ledgers, whatever other threads do between its pieces. */
module HostRetirement {
  import opened Common
  import opened HostTypes
  import opened HostSteps
  import opened HostGeneration
  import opened HostGenerationProof
  import opened HostEvolution
  import opened HostEvolutionProof
  import opened HostFence
  import opened HostLedgers
  import opened HostProgress

  // ---- Who can still act ----------------------------------------------------------------------------

  /** What the two callers have behind them: no command, respectively no request under way. */
  predicate Callers(s: State) {
    && (s.stopped ==> s.command.NoCommand?)
    && (!s.reading ==> s.waiting.None? && s.scheduling.None?)
    && (s.waiting.Some? ==> s.scheduling.None?)
    && (s.stopDone > 0 ==> s.stopped)
    && (s.readerDone > 0 ==> !s.reading)
    && (s.closed <==> s.stopDone > 0 || s.readerDone > 0)
    && s.stopDone <= PIECES && s.readerDone <= PIECES
  }

  /** What a step that is no piece of `retire` leaves alone. */
  predicate KeepsCallers(s: State, t: State) {
    && t.closed == s.closed && t.stopDone == s.stopDone && t.readerDone == s.readerDone
    && (s.stopped ==> t.stopped) && (t.reading ==> s.reading)
  }

  lemma {:induction false} FrameKeepsCallers(s: State, f: Frame)
    requires Callers(s) && FrameEnabled(s, f)
    ensures Callers(FrameStep(s, f)) && KeepsCallers(s, FrameStep(s, f))
  {
    hide EvaluateVerdict, ArrivalVerdict, CredentialArrives, RevalidateVerdict, IssueDecision, Live, ApprovalKey;
    hide OfTurn, Without, Owing, ApprovalsNotOf, GrantsNotOf, AcceptsPhase;
  }

  lemma {:induction false} ActKeepsCallers(s: State, a: Act)
    requires Callers(s) && ActEnabled(s, a)
    ensures Callers(ActStep(s, a)) && KeepsCallers(s, ActStep(s, a))
  {
    hide DecideOutcome, ApprovalKey, OfTurn, Without, Owing, ApprovalsNotOf, GrantsNotOf;
  }

  lemma {:induction false} TickKeepsCallers(s: State, t: Tick)
    requires Callers(s) && TickEnabled(s, t)
    ensures Callers(TickStep(s, t)) && KeepsCallers(s, TickStep(s, t))
  {
    hide AdmissionVerdict, CredentialVerdict, Without, Owing, Matching, Expired;
  }

  lemma {:induction false} ChangeKeepsCallers(s: State, c: Change)
    requires Callers(s) && ChangeEnabled(s, c)
    ensures Callers(ChangeStep(s, c)) && KeepsCallers(s, ChangeStep(s, c))
  {
  }

  lemma {:induction false} RetireKeepsCallers(s: State, who: Caller, r: Retirement)
    requires Callers(s) && RetireEnabled(s, who, r)
    ensures Callers(RetireStep(s, who, r))
  {
    hide Without, Owing;
  }

  lemma {:induction false} CallersStep(s: State, l: Label)
    requires Callers(s)
    ensures Callers(Next(s, l))
    ensures !l.OnRetire? ==> KeepsCallers(s, Next(s, l))
  {
    hide FrameStep, ActStep, TickStep, RetireStep, ChangeStep, FrameEnabled, ActEnabled, TickEnabled, RetireEnabled, ChangeEnabled;
    hide Callers;
    match l
    case OnFrame(f) => if FrameEnabled(s, f) { FrameKeepsCallers(s, f); }
    case OnAct(a) => if ActEnabled(s, a) { ActKeepsCallers(s, a); }
    case OnTick(t) => if TickEnabled(s, t) { TickKeepsCallers(s, t); }
    case OnRetire(who, r) => if RetireEnabled(s, who, r) { RetireKeepsCallers(s, who, r); }
    case OnChange(c) => if ChangeEnabled(s, c) { ChangeKeepsCallers(s, c); }
  }

  /** In every reachable state the coordinator that retires runs no command, and the reader that
      retires has no request under way; the session is closed exactly when one of them has begun. */
  lemma {:induction false} CallersHold(config: Config, labels: seq<Label>)
    ensures Callers(Reach(config, labels))
    decreases |labels|
  {
    hide Next, Callers;
    if labels == [] {
      InitialCallers(config);
    } else {
      CallersHold(config, labels[..|labels| - 1]);
      CallersStep(Reach(config, labels[..|labels| - 1]), labels[|labels| - 1]);
    }
  }

  lemma InitialCallers(config: Config)
    ensures Callers(Initial(config)) && Emptied(Initial(config))
  {
  }

  // ---- What stays empty -----------------------------------------------------------------------------

  /** The ledgers no thread can fill any more. */
  predicate Emptied(s: State) {
    && (s.stopDone > Place(DropApprovals) ==> s.approvals == map[])
    && (s.stopDone > Place(DropGrants) || s.readerDone > Place(DropGrants) ==> s.grants == map[])
    && (s.readerDone > Place(Drain) ==> s.pending == map[])
    && (s.stopDone > Place(Force) || s.readerDone > Place(Force) ==> !s.authority.Active?)
  }

  /** Only a decider stores an approval, and the coordinator that retires has none. */
  lemma NothingStored(s: State, l: Label, k: string)
    requires Callers(s) && s.stopDone > 0
    ensures StoredKey(s, l) != Some(k)
  {
    hide DecideOutcome, ApprovalKey;
  }

  /** Only the live reader mints, on an approval. */
  lemma NothingMinted(s: State, l: Label, g: Id)
    requires !s.reading || s.approvals == map[]
    ensures MintedId(s, l) != Some(g)
  {
    hide IssueDecision, ApprovalKey;
  }

  /** Only the live reader admits. */
  lemma NothingAdmitted(s: State, l: Label, id: Id)
    requires !s.reading
    ensures AdmittedId(s, l) != Some(id)
  {
    hide AdmissionVerdict;
  }

  lemma {:induction false} LedgersStayEmpty(s: State, l: Label)
    requires Callers(s) && Emptied(s)
    ensures s.stopDone > Place(DropApprovals) ==> Next(s, l).approvals == map[]
    ensures s.stopDone > Place(DropGrants) || s.readerDone > Place(DropGrants) ==> Next(s, l).grants == map[]
    ensures s.readerDone > Place(Drain) ==> Next(s, l).pending == map[]
  {
    hide Next, StoredKey, MintedId, AdmittedId, ClearsApproval, ClearsGrant, ClearsSlot;
    forall k | s.stopDone > Place(DropApprovals) ensures k !in Next(s, l).approvals {
      NothingStored(s, l, k);
      StepFollows(s, l, k, "", "");
    }
    forall g | s.stopDone > Place(DropGrants) || s.readerDone > Place(DropGrants) ensures g !in Next(s, l).grants {
      NothingMinted(s, l, g);
      StepFollows(s, l, "", g, "");
    }
    forall id | s.readerDone > Place(Drain) ensures id !in Next(s, l).pending {
      NothingAdmitted(s, l, id);
      StepFollows(s, l, "", "", id);
    }
  }

  /** A turn begins in an open session only. */
  lemma ClosedBeginsNothing(s: State, t: State)
    requires Evolves(s, t) && s.closed && !s.authority.Active?
    ensures !t.authority.Active?
  {
  }

  /** A piece of `retire` just performed has its effect. */
  lemma {:induction false} PieceEmpties(s: State, who: Caller, r: Retirement)
    requires RetireEnabled(s, who, r)
    ensures var t := RetireStep(s, who, r);
            && (r.Drain? ==> t.pending == map[]) && (r.DropApprovals? ==> t.approvals == map[])
            && (r.DropGrants? ==> t.grants == map[]) && (r.Force? ==> !t.authority.Active?)
            && t.stopDone == (if who.ByStop? then Place(r) + 1 else s.stopDone)
            && t.readerDone == (if who.ByReader? then Place(r) + 1 else s.readerDone)
  {
  }

  lemma {:induction false} EmptiedStep(s: State, l: Label)
    requires Generation(s) && Callers(s) && Emptied(s)
    ensures Emptied(Next(s, l))
  {
    hide Generation, Evolves, FrameStep, ActStep, TickStep, RetireStep, ChangeStep, FrameEnabled, ActEnabled, TickEnabled, ChangeEnabled;
    LedgersStayEmpty(s, l);
    if !s.authority.Active? && s.closed {
      StepEvolves(s, l);
      ClosedBeginsNothing(s, Next(s, l));
    }
    if l.OnRetire? && RetireEnabled(s, l.caller, l.retirement) {
      PieceEmpties(s, l.caller, l.retirement);
    } else if !l.OnRetire? {
      CallersStep(s, l);
    }
  }

  lemma {:induction false} EmptiedHolds(config: Config, labels: seq<Label>)
    ensures Emptied(Reach(config, labels))
    decreases |labels|
  {
    hide Next, Emptied, Callers, Generation;
    if labels == [] {
      InitialCallers(config);
    } else {
      GenerationHolds(config, labels[..|labels| - 1]);
      CallersHold(config, labels[..|labels| - 1]);
      EmptiedHolds(config, labels[..|labels| - 1]);
      EmptiedStep(Reach(config, labels[..|labels| - 1]), labels[|labels| - 1]);
    }
  }

  /** Main result: in every run, once either caller has finished `retire` the session is retired and
      its grants are empty; the coordinator's `retire` also leaves no approval, the reader's no pending
      action, and `stop`, which waits for the reader thread to end, hence nothing at all. */
  lemma {:induction false} RetirementEmpties(config: Config, labels: seq<Label>)
    ensures var s := Reach(config, labels);
            && (s.stopDone == PIECES || s.readerDone == PIECES ==> Retired(s) && s.grants == map[])
            && (s.stopDone == PIECES ==> s.approvals == map[])
            && (s.readerDone == PIECES ==> s.pending == map[])
  {
    CallersHold(config, labels);
    EmptiedHolds(config, labels);
  }

  /** Main result: once `stop` has returned, its own `retire` and the reader's having finished,
      nothing is left, and nothing ever comes back. */
  lemma {:induction false} StopLeavesNothing(config: Config, labels: seq<Label>, more: seq<Label>)
    requires Reach(config, labels).stopDone == PIECES && Reach(config, labels).readerDone == PIECES
    ensures var t := After(Reach(config, labels), more);
            && t.pending == map[] && t.approvals == map[] && t.grants == map[] && !t.authority.Active?
            && |Reach(config, labels).trace| <= |t.trace|
            && t.trace[..|Reach(config, labels).trace|] == Reach(config, labels).trace
            && forall k :: |Reach(config, labels).trace| <= k < |t.trace| ==> Powerless(t.trace[k])
  {
    hide After, Generation, Powerless;
    GenerationHolds(config, labels);
    RetirementEmpties(config, labels);
    RetirementIsFinal(Reach(config, labels), more);
  }

  // ---- The two ledgers left open ----------------------------------------------------------------------

  /** The moment a caller performed a piece it has behind it. */
  lemma {:induction false} PieceBehind(config: Config, labels: seq<Label>, who: Caller, r: Retirement) returns (i: nat)
    requires Done(Reach(config, labels), who) > Place(r)
    ensures i < |labels| && labels[i] == OnRetire(who, r) && RetireEnabled(Reach(config, labels[..i]), who, r)
    decreases |labels|
  {
    hide Next, RetireEnabled, Done, Callers;
    if labels == [] {
      NothingDone(config, who);
    } else {
      var n := |labels| - 1;
      var before := Reach(config, labels[..n]);
      if Done(before, who) > Place(r) {
        i := PieceBehind(config, labels[..n], who, r);
        assert labels[..n][..i] == labels[..i];
      } else {
        CallersHold(config, labels[..n]);
        PieceIsThis(before, labels[n], who, r);
        i := n;
      }
    }
  }

  lemma NothingDone(config: Config, who: Caller)
    ensures Done(Initial(config), who) == 0
  {
  }

  /** Only its own pieces move a caller forward, one at a time. */
  lemma {:induction false} PieceIsThis(s: State, l: Label, who: Caller, r: Retirement)
    requires Callers(s) && Done(s, who) <= Place(r) < Done(Next(s, l), who)
    ensures l == OnRetire(who, r) && RetireEnabled(s, who, r)
  {
    hide FrameStep, ActStep, TickStep, ChangeStep, FrameEnabled, ActEnabled, TickEnabled, ChangeEnabled, Callers, RetireStep;
    CallersStep(s, l);
    if l.OnRetire? && RetireEnabled(s, l.caller, l.retirement) {
      PieceEmpties(s, l.caller, l.retirement);
      PlacesDiffer(l.retirement, r);
    }
  }

  lemma PlacesDiffer(a: Retirement, b: Retirement)
    ensures Place(a) == Place(b) ==> a == b
  {
  }

  /** The run up to a moment, that moment, and the rest. */
  lemma {:induction false} SplitRun(config: Config, labels: seq<Label>, i: nat)
    requires i < |labels|
    ensures After(Next(Reach(config, labels[..i]), labels[i]), labels[i + 1..]) == Reach(config, labels)
  {
    hide Next;
    AfterOne(Reach(config, labels[..i]), labels[i]);
    AfterBoth(Initial(config), labels[..i], [labels[i]]);
    AfterBoth(Initial(config), labels[..i] + [labels[i]], labels[i + 1..]);
    assert labels[..i] + [labels[i]] + labels[i + 1..] == labels;
  }

  ghost predicate NoApprovalLeft(s: State, labels: seq<Label>) {
    forall k :: !ApprovalLeft(s, labels, k)
  }

  ghost predicate NoActionLeft(s: State, labels: seq<Label>) {
    forall id :: !ActionLeft(s, labels, id)
  }

  /** Main result: exactly when the reader's `retire` ends without approvals.  In every run in which it
      has finished, let `cleared` be the state in which it had just cleared them: an approval is left
      exactly when a Confirm delivered since stored it and nothing cleared it again. */
  lemma {:induction false} ReaderLeavesApprovalsExactly(config: Config, labels: seq<Label>) returns (i: nat)
    requires Reach(config, labels).readerDone == PIECES
    ensures i < |labels| && labels[i] == OnRetire(ByReader, DropApprovals)
    ensures var cleared := Next(Reach(config, labels[..i]), labels[i]);
            && cleared.approvals == map[] && cleared.readerDone == Place(DropApprovals) + 1
            && (Reach(config, labels).approvals == map[] <==> NoApprovalLeft(cleared, labels[i + 1..]))
  {
    hide After, RetireStep, ApprovalLeft, GrantLeft, ActionLeft, Never;
    i := PieceBehind(config, labels, ByReader, DropApprovals);
    var cleared := Next(Reach(config, labels[..i]), labels[i]);
    PieceEmpties(Reach(config, labels[..i]), ByReader, DropApprovals);
    SplitRun(config, labels, i);
    var rest := labels[i + 1..];
    forall k ensures k in Reach(config, labels).approvals <==> ApprovalLeft(cleared, rest, k) {
      LedgersOfRun(cleared, rest, k, "", "");
    }
    assert Reach(config, labels).approvals == map[] <==> forall k :: k !in Reach(config, labels).approvals;
  }

  /** A confirmation stands between the test of `closed` and the insertion. */
  predicate Stands(s: State) {
    s.waiting.Some? && s.waiting.value.AtConfirmation?
  }

  /** Since the drain at `d`, nothing but the confirmation that stood there can wait or be stored. */
  predicate OnlyTheStanding(d: State, t: State) {
    && t.closed
    && (Stands(t) ==> t.waiting == d.waiting)
    && (forall id :: id in t.pending ==> Stands(d) && t.pending[id] == AdmittedPending(d.waiting.value, id))
  }

  /** No new action. */
  ghost predicate PartOf(small: map<Id, Pending>, big: map<Id, Pending>) {
    forall id :: id in small ==> id in big && small[id] == big[id]
  }

  lemma WithoutIsPart(pending: map<Id, Pending>, gone: set<Id>)
    ensures PartOf(Without(pending, gone), pending) && PartOf(pending, pending)
  {
  }

  lemma {:induction false} EndTurnAddsNothing(s: State, ends: bool, t: Id, phase: Phase)
    ensures var u := EndTurn(s, ends, t, phase); PartOf(u.pending, s.pending) && u.waiting == s.waiting && u.closed == s.closed
  {
    hide OfTurn, Without, Owing, PartOf, ApprovalsNotOf, GrantsNotOf;
    WithoutIsPart(s.pending, OfTurn(s.pending, t));
  }

  lemma {:induction false} FrameAddsNothing(s: State, f: Frame)
    requires s.closed && FrameEnabled(s, f)
    ensures var t := FrameStep(s, f); !Stands(t) && PartOf(t.pending, s.pending)
  {
    hide EvaluateVerdict, RevalidateVerdict, IssueDecision, Live, ApprovalKey, EffectiveExpiry, ValidBinding;
    hide EndTurn, PartOf;
    WithoutIsPart(s.pending, {});
    match f
    case TurnState(session, t, phase) =>
      EndTurnAddsNothing(s, session == s.config.sessionId && AcceptsPhase(s.authority, t, phase) && TerminalPhase(phase), t, phase);
    case TurnCompleted(session, t, _) =>
      EndTurnAddsNothing(s, session == s.config.sessionId && AcceptsPhase(s.authority, t, Completed) && TerminalPhase(Completed), t, Completed);
    case TurnFailed(session, t, phase, _) =>
      EndTurnAddsNothing(s, session == s.config.sessionId && FailurePhase(phase) && AcceptsPhase(s.authority, t, phase), t, phase);
    case _ =>
  }

  lemma {:induction false} ActAddsNothing(s: State, a: Act)
    requires ActEnabled(s, a)
    ensures var t := ActStep(s, a); t.waiting == s.waiting && PartOf(t.pending, s.pending)
  {
    hide DecideOutcome, ApprovalKey, EndTurn, OfTurn, Without, Owing, ApprovalsNotOf, GrantsNotOf, PartOf;
    WithoutIsPart(s.pending, {});
    match a
    case StartSentAct(sent) =>
      EndTurnAddsNothing(s, !sent && TurnIs(s.authority, s.command.turnId), s.command.turnId, Failed);
    case BeginCancellationAct =>
      if s.authority.Active? || s.authority.Cancelling? { WithoutIsPart(s.pending, OfTurn(s.pending, s.authority.turn.turnId)); }
    case CancelTakeAnyAct(id, _) => WithoutIsPart(s.pending, {id});
    case TakePendingAct(id, _) => WithoutIsPart(s.pending, {id});
    case _ =>
  }

  lemma {:induction false} TickAddsTheStanding(s: State, t: Tick)
    requires TickEnabled(s, t)
    ensures var u := TickStep(s, t);
            && (Stands(u) ==> u.waiting == s.waiting)
            && forall id :: id in u.pending ==>
                 || (id in s.pending && u.pending[id] == s.pending[id])
                 || (Stands(s) && u.pending[id] == AdmittedPending(s.waiting.value, id))
  {
    hide AdmissionVerdict, CredentialVerdict, Owing, Matching, Expired;
  }

  lemma {:induction false} RetireAddsNothing(s: State, who: Caller, r: Retirement)
    ensures var t := RetireStep(s, who, r);
            t.waiting == s.waiting && PartOf(t.pending, s.pending) && (s.closed ==> t.closed)
  {
    hide Owing, Without, PartOf;
    WithoutIsPart(s.pending, s.pending.Keys);
  }

  lemma {:induction false} ChangeAddsNothing(s: State, c: Change)
    ensures var t := ChangeStep(s, c); t.waiting == s.waiting && t.pending == s.pending && t.closed == s.closed
  {
  }

  lemma {:induction false} StandingStep(d: State, s: State, l: Label)
    requires Callers(s) && OnlyTheStanding(d, s)
    ensures OnlyTheStanding(d, Next(s, l))
  {
    hide Callers, OnlyTheStanding;
    CallersStep(s, l);
    match l
    case OnTick(t) => if TickEnabled(s, t) { StandingTick(d, s, t); }
    case _ => StandingOther(d, s, l);
  }

  lemma {:induction false} StandingTick(d: State, s: State, t: Tick)
    requires Callers(s) && OnlyTheStanding(d, s) && TickEnabled(s, t)
    ensures OnlyTheStanding(d, TickStep(s, t))
  {
    hide TickStep, TickEnabled, Callers;
    TickKeepsCallers(s, t);
    TickAddsTheStanding(s, t);
  }

  lemma LosingKeepsStanding(d: State, s: State, t: State)
    requires OnlyTheStanding(d, s) && t.closed && (Stands(t) ==> t.waiting == s.waiting) && PartOf(t.pending, s.pending)
    ensures OnlyTheStanding(d, t)
  {
  }

  lemma OnlyInClosed(d: State, s: State)
    requires OnlyTheStanding(d, s)
    ensures s.closed
  {
  }

  lemma {:induction false} StandingOther(d: State, s: State, l: Label)
    requires Callers(s) && OnlyTheStanding(d, s) && !l.OnTick?
    ensures OnlyTheStanding(d, Next(s, l))
  {
    hide FrameStep, ActStep, RetireStep, ChangeStep, FrameEnabled, ActEnabled, RetireEnabled, ChangeEnabled;
    hide Callers, OnlyTheStanding, PartOf, Stands;
    OnlyInClosed(d, s);
    CallersStep(s, l);
    WithoutIsPart(s.pending, {});
    match l {
      case OnFrame(f) => if FrameEnabled(s, f) { FrameAddsNothing(s, f); }
      case OnAct(a) => if ActEnabled(s, a) { ActAddsNothing(s, a); }
      case OnRetire(who, r) => if RetireEnabled(s, who, r) { RetireAddsNothing(s, who, r); }
      case OnChange(c) => ChangeAddsNothing(s, c);
    }
    LosingKeepsStanding(d, s, Next(s, l));
  }

  lemma {:induction false} StandingRun(d: State, more: seq<Label>)
    requires Callers(d) && d.closed && d.pending == map[]
    ensures OnlyTheStanding(d, After(d, more)) && Callers(After(d, more))
    decreases |more|
  {
    hide Next, Callers;
    if more != [] {
      var n := |more| - 1;
      StandingRun(d, more[..n]);
      StandingStep(d, After(d, more[..n]), more[n]);
      CallersStep(After(d, more[..n]), more[n]);
    }
  }

  lemma DrainCloses(s: State)
    requires s.closed
    ensures RetireStep(s, ByStop, Drain).closed
  {
  }

  /** Main result: exactly when the coordinator's `retire` ends with an empty slot.  In every run in
      which it has finished, let `drained` be the state in which it had just drained the slot: an
      action is left exactly when it was admitted since and nothing removed it again.  The only one
      that can be is the confirmation that stood between its test of `closed` and its insertion
      then; if none stood, the slot is empty. */
  lemma {:induction false} StopLeavesSlotExactly(config: Config, labels: seq<Label>) returns (i: nat)
    requires Reach(config, labels).stopDone == PIECES
    ensures i < |labels| && labels[i] == OnRetire(ByStop, Drain)
    ensures var drained, t := Next(Reach(config, labels[..i]), labels[i]), Reach(config, labels);
            && drained.pending == map[] && drained.stopDone == Place(Drain) + 1
            && (t.pending == map[] <==> NoActionLeft(drained, labels[i + 1..]))
            && (!Stands(drained) ==> t.pending == map[])
            && (forall id :: id in t.pending ==> t.pending[id] == AdmittedPending(drained.waiting.value, id))
  {
    hide After, RetireStep, ApprovalLeft, GrantLeft, ActionLeft, Never, Callers;
    i := PieceBehind(config, labels, ByStop, Drain);
    var drained := Next(Reach(config, labels[..i]), labels[i]);
    PieceEmpties(Reach(config, labels[..i]), ByStop, Drain);
    CallersHold(config, labels[..i]);
    CallersStep(Reach(config, labels[..i]), labels[i]);
    DrainCloses(Reach(config, labels[..i]));
    SplitRun(config, labels, i);
    StandingRun(drained, labels[i + 1..]);
    var rest := labels[i + 1..];
    forall id ensures id in Reach(config, labels).pending <==> ActionLeft(drained, rest, id) {
      LedgersOfRun(drained, rest, "", "", id);
    }
    assert Reach(config, labels).pending == map[] <==> forall id :: id !in Reach(config, labels).pending;
  }

  // ---- Runs that leave something --------------------------------------------------------------------

  /** The user has confirmed and the decider holds the action; then the sidecar's stream ends, the
      reader clears the approvals, the decider answers, and the reader finishes. */
  const ASKED: seq<Label> := StartLabels(PROVIDER, "turn") + AskLabels(STARTED, REQUEST, DRAW)
  const READER_BEGINS: seq<Label> := [OnChange(ReaderEnds), OnRetire(ByReader, Close), OnRetire(ByReader, Drain)]
  const DECIDER_ANSWERS: seq<Label> := [OnRetire(ByReader, DropApprovals), ConfirmLabel(STARTED, DRAW)]
  const READER_FINISHES: seq<Label> := [OnRetire(ByReader, DropGrants), OnRetire(ByReader, StopTimer), OnRetire(ByReader, Force)]
  const KEY := ApprovalKey("turn", CALL)

  lemma AfterThree(s: State, l: Label, m: Label, n: Label)
    ensures After(s, [l, m, n]) == Next(Next(Next(s, l), m), n)
  {
    AfterTwo(s, l, m);
    AfterOne(Next(Next(s, l), m), n);
    AfterBoth(s, [l, m], [n]);
    assert [l, m] + [n] == [l, m, n];
  }

  /** The session when the reader is about to clear the approvals. */
  predicate HeldByDecider(s: State) {
    && s.closed && !s.reading && s.readerDone == Place(DropApprovals)
    && s.command == Deciding(ActionOf(STARTED, REQUEST, "pending"), Confirm, true)
    && s.config == CONFIG && s.authorization == STARTED.authorization && s.now == 0
    && ActiveFor(s.authority, "turn") && s.usedIds == {"turn", "pending"}
  }

  lemma {:induction false} DeciderIsHolding()
    ensures HeldByDecider(After(Reach(CONFIG, ASKED), READER_BEGINS))
  {
    hide After, Next, StartLabels, AskLabels, ActionOf;
    StartSucceeds(CONFIG, PROVIDER, "turn");
    AsksAtStart();
    AskingSucceeds(STARTED, REQUEST, DRAW);
    AfterBoth(Initial(CONFIG), StartLabels(PROVIDER, "turn"), AskLabels(STARTED, REQUEST, DRAW));
    var s := Reach(CONFIG, ASKED);
    AfterThree(s, OnChange(ReaderEnds), OnRetire(ByReader, Close), OnRetire(ByReader, Drain));
    EndingOpensRetirement(s);
  }

  lemma {:induction false} EndingOpensRetirement(s: State)
    requires ReaderIsFree(s) && s.readerDone == 0
    ensures var t := Next(Next(Next(s, OnChange(ReaderEnds)), OnRetire(ByReader, Close)), OnRetire(ByReader, Drain));
            && t.closed && !t.reading && t.readerDone == Place(DropApprovals)
            && t.command == s.command && t.config == s.config && t.authorization == s.authorization && t.now == s.now
            && t.authority == s.authority && t.usedIds == s.usedIds
  {
    hide Next, RetireStep;
    EndsReading(s);
    var ended := s.(reading := false);
    PieceIsNext(ended, ByReader, Close);
    var closed := RetireStep(ended, ByReader, Close);
    PieceIsNext(closed, ByReader, Drain);
    PieceLeaves(ended, ByReader, Close);
    PieceLeaves(closed, ByReader, Drain);
  }

  lemma EndsReading(s: State)
    requires ReaderIsFree(s)
    ensures Next(s, OnChange(ReaderEnds)) == s.(reading := false)
  {
  }

  lemma PieceLeaves(s: State, who: Caller, r: Retirement)
    ensures var t := RetireStep(s, who, r);
            && t.command == s.command && t.config == s.config && t.authorization == s.authorization && t.now == s.now
            && t.usedIds == s.usedIds && t.reading == s.reading && t.waiting == s.waiting
            && (!r.Force? ==> t.authority == s.authority) && (!r.Drain? ==> t.pending == s.pending)
  {
  }

  /** A counterexample to empty approvals: in this run the reader's `retire` ends with one in the
      ledger, stored by a decider that answered between two of its pieces. */
  lemma {:induction false} ReaderMayLeaveApproval()
    ensures var t := Reach(CONFIG, ASKED + READER_BEGINS + DECIDER_ANSWERS + READER_FINISHES);
            t.readerDone == PIECES && Retired(t) && KEY in t.approvals
  {
    hide After, Next, HeldByDecider, RetireStep, DecidePending;
    var s := After(Reach(CONFIG, ASKED), READER_BEGINS);
    DeciderIsHolding();
    AfterBoth(Initial(CONFIG), ASKED, READER_BEGINS);
    AfterBoth(Initial(CONFIG), ASKED + READER_BEGINS, DECIDER_ANSWERS);
    AfterBoth(Initial(CONFIG), ASKED + READER_BEGINS + DECIDER_ANSWERS, READER_FINISHES);
    AnswerLands(s);
    AfterTwo(s, OnRetire(ByReader, DropApprovals), ConfirmLabel(STARTED, DRAW));
    var decided := After(s, DECIDER_ANSWERS);
    AfterThree(decided, OnRetire(ByReader, DropGrants), OnRetire(ByReader, StopTimer), OnRetire(ByReader, Force));
  }

  lemma {:induction false} AnswerLands(s: State)
    requires HeldByDecider(s)
    ensures var decided := Next(Next(s, OnRetire(ByReader, DropApprovals)), ConfirmLabel(STARTED, DRAW));
            var t := Next(Next(Next(decided, OnRetire(ByReader, DropGrants)), OnRetire(ByReader, StopTimer)), OnRetire(ByReader, Force));
            t.readerDone == PIECES && Retired(t) && KEY in t.approvals
  {
    hide Next, RetireStep, DecidePending, ApprovalKey, ValidBinding;
    AsksAtStart();
    assert EffectiveExpiry(0, 30_000) == Some(30_000);
    assert "confirmation" !in s.usedIds by { assert |"confirmation"| != |"turn"| && |"confirmation"| != |"pending"|; }
    InterleavedRetirementMayLeaveApproval(s, "confirmation");
    PieceIsNext(s, ByReader, DropApprovals);
    var cleared := RetireStep(s, ByReader, DropApprovals);
    DecisionIsNext(cleared, "confirmation");
    var decided := DecidePending(cleared, "confirmation", 0, true, true);
    PieceIsNext(decided, ByReader, DropGrants);
    var dropped := RetireStep(decided, ByReader, DropGrants);
    PieceIsNext(dropped, ByReader, StopTimer);
    PieceIsNext(RetireStep(dropped, ByReader, StopTimer), ByReader, Force);
  }

  lemma DecisionIsNext(s: State, id: Id)
    requires ActEnabled(s, DecideAct(id, 0, true, true))
    ensures var t := DecidePending(s, id, 0, true, true);
            && Next(s, OnAct(DecideAct(id, 0, true, true))) == t
            && t.closed == s.closed && t.reading == s.reading && t.readerDone == s.readerDone
  {
    hide DecideOutcome, ApprovalKey;
  }

  /** A confirmation found the session open; `stop` then closes and drains it, the confirmation is
      inserted, and `retire` finishes. */
  const ARRIVED: seq<Label> :=
    StartLabels(PROVIDER, "turn") + [EvaluateOf(STARTED, "turn", CALL), OnFrame(Confirmation(REQUEST, 0, true))]
  const STOP_BEGINS: seq<Label> := [OnAct(StopAct), OnRetire(ByStop, Close), OnRetire(ByStop, Drain)]
  const LATE_ENTRY: seq<Label> := [OnTick(AdmitTick("pending", true)), OnRetire(ByStop, DropApprovals)]
  const STOP_FINISHES: seq<Label> := [OnRetire(ByStop, DropGrants), OnRetire(ByStop, StopTimer), OnRetire(ByStop, Force)]

  /** The session when the coordinator has drained it. */
  predicate EntryStands(s: State) {
    && s.closed && s.stopped && s.reading && s.stopDone == Place(DropApprovals)
    && Stands(s) && s.waiting.value.confirmation == REQUEST
    && BindingMatches(s.authority, "turn", CALL) && s.pending == map[] && s.usedIds == {"turn"}
  }

  lemma {:induction false} EntryIsStanding()
    ensures EntryStands(After(Reach(CONFIG, ARRIVED), STOP_BEGINS))
  {
    hide After, Next, StartLabels, ValidBinding, EffectiveExpiry;
    StartSucceeds(CONFIG, PROVIDER, "turn");
    AsksAtStart();
    EvaluationSucceeds(STARTED, "turn", CALL);
    var evaluated := Next(STARTED, EvaluateOf(STARTED, "turn", CALL));
    ArrivalSucceeds(evaluated, REQUEST, "pending");
    AfterTwo(STARTED, EvaluateOf(STARTED, "turn", CALL), OnFrame(Confirmation(REQUEST, 0, true)));
    AfterBoth(Initial(CONFIG), StartLabels(PROVIDER, "turn"),
              [EvaluateOf(STARTED, "turn", CALL), OnFrame(Confirmation(REQUEST, 0, true))]);
    var s := Reach(CONFIG, ARRIVED);
    AfterThree(s, OnAct(StopAct), OnRetire(ByStop, Close), OnRetire(ByStop, Drain));
    StoppingOpensRetirement(s);
  }

  lemma {:induction false} StoppingOpensRetirement(s: State)
    requires CoordinatorIsFree(s) && s.stopDone == 0
    ensures var t := Next(Next(Next(s, OnAct(StopAct)), OnRetire(ByStop, Close)), OnRetire(ByStop, Drain));
            && t.closed && t.stopped && t.stopDone == Place(DropApprovals) && t.pending == map[]
            && t.reading == s.reading && t.waiting == s.waiting && t.authority == s.authority && t.usedIds == s.usedIds
  {
    hide Next, RetireStep;
    GivesUp(s);
    var given := s.(stopped := true);
    PieceIsNext(given, ByStop, Close);
    var closed := RetireStep(given, ByStop, Close);
    PieceIsNext(closed, ByStop, Drain);
    PieceLeaves(given, ByStop, Close);
    PieceLeaves(closed, ByStop, Drain);
    PieceEmpties(closed, ByStop, Drain);
  }

  lemma GivesUp(s: State)
    requires CoordinatorIsFree(s)
    ensures Next(s, OnAct(StopAct)) == s.(stopped := true)
  {
  }

  /** A counterexample to an empty slot: in this run the coordinator's `retire` ends with an action
      stored, admitted after the drain by a handler that had found the session open. */
  lemma {:induction false} StopMayLeaveAction()
    ensures var t := Reach(CONFIG, ARRIVED + STOP_BEGINS + LATE_ENTRY + STOP_FINISHES);
            t.stopDone == PIECES && Retired(t) && "pending" in t.pending
  {
    hide After, Next, EntryStands, RetireStep, Retired;
    var s := After(Reach(CONFIG, ARRIVED), STOP_BEGINS);
    EntryIsStanding();
    AfterBoth(Initial(CONFIG), ARRIVED, STOP_BEGINS);
    AfterBoth(Initial(CONFIG), ARRIVED + STOP_BEGINS, LATE_ENTRY);
    AfterBoth(Initial(CONFIG), ARRIVED + STOP_BEGINS + LATE_ENTRY, STOP_FINISHES);
    EntryLands(s);
    AfterTwo(s, OnTick(AdmitTick("pending", true)), OnRetire(ByStop, DropApprovals));
    AfterThree(After(s, LATE_ENTRY), OnRetire(ByStop, DropGrants), OnRetire(ByStop, StopTimer), OnRetire(ByStop, Force));
    RetirementEmpties(CONFIG, ARRIVED + STOP_BEGINS + LATE_ENTRY + STOP_FINISHES);
  }

  lemma {:induction false} EntryLands(s: State)
    requires EntryStands(s)
    ensures var entered := Next(Next(s, OnTick(AdmitTick("pending", true))), OnRetire(ByStop, DropApprovals));
            var t := Next(Next(Next(entered, OnRetire(ByStop, DropGrants)), OnRetire(ByStop, StopTimer)), OnRetire(ByStop, Force));
            t.stopDone == PIECES && "pending" in t.pending
  {
    hide Next, RetireStep;
    assert "pending" != "turn" by { assert |"pending"| != |"turn"|; }
    EntrySucceeds(s, s.waiting.value, "pending");
    var entered := Next(s, OnTick(AdmitTick("pending", true)));
    PieceIsNext(entered, ByStop, DropApprovals);
    PieceLeaves(entered, ByStop, DropApprovals);
    var s1 := RetireStep(entered, ByStop, DropApprovals);
    PieceIsNext(s1, ByStop, DropGrants);
    PieceLeaves(s1, ByStop, DropGrants);
    var s2 := RetireStep(s1, ByStop, DropGrants);
    PieceIsNext(s2, ByStop, StopTimer);
    PieceLeaves(s2, ByStop, StopTimer);
    var s3 := RetireStep(s2, ByStop, StopTimer);
    PieceIsNext(s3, ByStop, Force);
    PieceLeaves(s3, ByStop, Force);
  }
}
