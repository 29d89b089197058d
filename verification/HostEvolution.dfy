/** What one step may do, stated without its code: every step adds at most one event to the
    trace, each event is justified by the state it was emitted in, and ledgers only gain the
    entry that event announces.  The whole-run results rest on this relation alone. */
module HostEvolution {
  import opened Common
  import opened HostTypes
  import opened HostSteps
  import opened HostGeneration
  import opened HostVerdicts

  predicate ActiveFor(a: Authority, turnId: Id) {
    a.Active? && a.turn.turnId == turnId
  }

  predicate CurrentRevision(s: State, revision: int) {
    s.authorization.enabled && s.authorization.revision == revision
  }

  predicate Grows(before: Trace, after: Trace) {
    after == before || (|after| == |before| + 1 && after[..|before|] == before)
  }

  predicate Emits(s: State, t: State) {
    |t.trace| == |s.trace| + 1
  }

  predicate Announces(s: State, t: State, e: Event) {
    t.trace == s.trace + [e]
  }

  /** The evidence in `s` on which the event that leads to `t` rests. */
  predicate Sound(s: State, e: Event, t: State) {
    match e
    case TurnBegun(turnId) =>
      Fresh(s, turnId) && turnId in t.usedIds && s.authority.Idle? && !s.closed
    case CancelBegun(turnId) =>
      ActiveFor(s.authority, turnId) && s.command.NoCommand? && t.authority.Cancelling?
    case TurnEnded(turnId, phase) =>
      && TurnIs(s.authority, turnId) && t.authority.Idle?
      && (s.authority.Cancelling? ==>
            phase.Cancelled? || phase.TimedOut? || s.command == StartSending(turnId))
    case ForcedTerminal(turnId) => s.closed && TurnIs(s.authority, turnId) && t.authority.Terminal?
    case ScopeAllowed(turnId, b, revision) =>
      && ActiveFor(s.authority, turnId) && CurrentRevision(s, revision) && ExactProcess(s.config, b)
      && (s.authority.turn.codexTurn.Some? ==> s.authority.turn.codexTurn.value == b.turnId)
      && t.authority == LearnCodexTurn(s.authority, b.turnId)
    case CredentialReleased(turnId) => ActiveFor(s.authority, turnId) && s.reading
    case Admitted(p, at, deadline) =>
      && BindingMatches(s.authority, p.hostTurnId, p.binding) && s.reading && ExactProcess(s.config, p.binding)
      && Fresh(s, p.pendingId) && p.pendingId in t.usedIds
      && at <= s.now && at < p.expiresAt <= at + HOST_CONFIRMATION_TTL_MS && p.expiresAt <= deadline
    case Replied(p, decision, approval, delivered, at) =>
      if decision.Confirm? then
        && s.command.Deciding? && s.command.pending == p && ActiveFor(s.authority, p.hostTurnId)
        && approval.Some? && s.now <= at < p.expiresAt
        && var a := approval.value;
           && a == NewApproval(p, a.revision, a.confirmationId)
           && CurrentRevision(s, a.revision) && ExactProcess(s.config, p.binding)
           && Fresh(s, a.confirmationId) && a.confirmationId in t.usedIds
      else approval.None?
    case GrantIssued(g, checkedAt) =>
      && s.now <= checkedAt <= g.grant.issuedAt
      && Issuable(s, g, checkedAt) && g.grant.grantId in t.usedIds
      && t.approvals == s.approvals - {ApprovalKey(g.hostTurnId, g.grant.binding)}
    case GrantRevalidated(g, at) =>
      && s.now <= at < g.grant.expiresAt && s.reading
      && g.grant.grantId in s.grants && s.grants[g.grant.grantId] == g
      && t.grants == s.grants - {g.grant.grantId}
      && BindingMatches(s.authority, g.hostTurnId, g.grant.binding)
      && CurrentRevision(s, g.grant.revision) && ExactProcess(s.config, g.grant.binding)
    case AuthorizationChanged(revision) =>
      revision > s.authorization.revision && t.authorization.revision == revision
    case _ => true
  }

  predicate Backs(a: Approval, g: StoredGrant, checkedAt: Millis) {
    && a.hostTurnId == g.hostTurnId && a.binding == g.grant.binding
    && a.revision == g.grant.revision && a.confirmationId == g.grant.confirmationId
    && checkedAt < a.expiresAt
  }

  /** A grant the Host may mint now: an unexpired approval of exactly this call backs it. */
  predicate Issuable(s: State, g: StoredGrant, checkedAt: Millis) {
    var key := ApprovalKey(g.hostTurnId, g.grant.binding);
    && key in s.approvals
    && Backs(s.approvals[key], g, checkedAt)
    && Fresh(s, g.grant.grantId)
    && BindingMatches(s.authority, g.hostTurnId, g.grant.binding)
    && CurrentRevision(s, g.grant.revision) && ExactProcess(s.config, g.grant.binding)
    && SaturatingAdd(g.grant.issuedAt, GRANT_LIFETIME_MS) <= g.grant.expiresAt
    && g.grant.singleUse && !g.grant.used && g.grant.sessionId == s.config.sessionId
  }

  ghost predicate PendingEvolves(s: State, t: State) {
    forall id :: id in t.pending ==>
      || (id in s.pending && s.pending[id] == t.pending[id])
      || exists at, deadline :: Announces(s, t, Admitted(t.pending[id], at, deadline))
  }

  /** Removed actions are held by their decider or owed an answer; neither is ever invented. */
  ghost predicate HeldEvolves(s: State, t: State) {
    && (t.command.Deciding? ==>
          var p := t.command.pending;
          || (s.command.Deciding? && s.command.pending == p)
          || (p.pendingId in s.pending && s.pending[p.pendingId] == p))
    && (forall id :: id in t.owed ==>
          || (id in s.owed && s.owed[id].pending == t.owed[id].pending)
          || (id in s.pending && s.pending[id] == t.owed[id].pending))
  }

  ghost predicate ApprovalsEvolve(s: State, t: State) {
    forall k :: k in t.approvals ==>
      || (k in s.approvals && s.approvals[k] == t.approvals[k])
      || (&& s.command.Deciding?
          && exists at :: Announces(s, t, Replied(s.command.pending, Confirm, Some(t.approvals[k]), true, at)))
  }

  /** A new grant spends the approval it rests on; its announcement fails only with the reader. */
  ghost predicate GrantsEvolve(s: State, t: State) {
    forall id :: id in t.grants ==>
      || (id in s.grants && s.grants[id] == t.grants[id])
      || (&& t.grants[id].grant.grantId == id && Fresh(s, id) && s.authority.Active?
          && (|| !t.reading
              || exists checkedAt :: Announces(s, t, GrantIssued(t.grants[id], checkedAt))))
  }

  /** A turn becomes active only by beginning with a fresh identifier, and while it stays active
      its Codex turn is learned at most once, from an allowed evaluation. */
  predicate AuthorityEvolves(s: State, t: State) {
    && (t.authority.Active? ==>
          || t.authority == s.authority
          || (&& Announces(s, t, TurnBegun(t.authority.turn.turnId)) && t.authority.turn.codexTurn.None?
              && !s.closed && t.command == StartSending(t.authority.turn.turnId))
          || (&& s.authority.Active? && t.authority.turn.turnId == s.authority.turn.turnId
              && t.authority.turn.codexTurn.Some? && t.command == s.command
              && (s.authority.turn.codexTurn.Some? ==> t.authority.turn.codexTurn == s.authority.turn.codexTurn)
              && (|| !t.reading
                  || LearnedFrom(s, t))))
    && (t.authority.Cancelling? ==>
          || t.authority == s.authority
          || Announces(s, t, CancelBegun(t.authority.turn.turnId)))
    && (s.authority.Terminal? ==> t.authority.Terminal?)
    && (t.command.StartSending? ==>
          t.command == s.command || (t.authority.Active? && Announces(s, t, TurnBegun(t.command.turnId))))
  }

  predicate LearnedFrom(s: State, t: State)
    requires t.authority.Active?
  {
    && Emits(s, t)
    && var e := t.trace[|s.trace|];
       e.ScopeAllowed? && e.turnId == t.authority.turn.turnId && Some(e.binding.turnId) == t.authority.turn.codexTurn
  }

  predicate EnvironmentEvolves(s: State, t: State) {
    && t.config == s.config
    && s.usedIds <= t.usedIds
    && s.now <= t.now
    && (t.reading ==> s.reading)
    && (s.closed ==> t.closed)
    && (t.timerStopped ==> s.timerStopped || s.closed)
    && (t.authorization == s.authorization || Announces(s, t, AuthorizationChanged(t.authorization.revision)))
  }

  ghost predicate Evolves(s: State, t: State) {
    && Grows(s.trace, t.trace)
    && (Emits(s, t) ==> Sound(s, t.trace[|s.trace|], t))
    && PendingEvolves(s, t)
    && HeldEvolves(s, t)
    && ApprovalsEvolve(s, t)
    && GrantsEvolve(s, t)
    && AuthorityEvolves(s, t)
    && EnvironmentEvolves(s, t)
  }
}

module HostEvolutionProof {
  import opened Common
  import opened HostTypes
  import opened HostSteps
  import opened HostGeneration
  import opened HostEvolution
  import opened HostVerdicts

  lemma {:induction false} EvaluateEvolves(s: State, r: EvaluateRequest, reachable: bool, sent: bool)
    requires s.reading
    ensures Evolves(s, AuthorityEvaluate(s, r, reachable, sent))
  {
  }

  lemma {:induction false} ConfirmationEvolves(s: State, r: ConfirmationRequest, at: Millis, sent: bool)
    requires s.reading && s.now <= at
    ensures Evolves(s, ConfirmationRequired(s, r, at, sent))
  {
    hide ArrivalVerdict;
  }

  lemma {:induction false} AdmissionEvolves(s: State, id: Id, sent: bool)
    requires WaitsInTime(s.waiting, s.now) && WaitsExactly(s.config, s.waiting) && TickEnabled(s, AdmitTick(id, sent))
    ensures Evolves(s, AdmitConfirmation(s, id, sent))
  {
  }

  lemma {:induction false} IssuedEvolves(s: State, r: IssueRequest, id: Id, c: Millis, t: Millis, e: Millis, reachable: bool, sent: bool)
    requires s.reading && Fresh(s, id) && s.now <= c <= t <= e && IssueDecision(s, r, c, reachable).Issue?
    ensures Evolves(s, IssueGrant(s, r, id, c, t, e, reachable, sent))
  {
    hide ApprovalKey, ValidBinding, WorkspaceRevision, Live, IssueDecision, Sound, GrantsEvolve;
    IssuedIsSound(s, r, id, c, t, e, reachable, sent);
    IssuedGrantsEvolve(s, r, id, c, t, e, reachable, sent);
  }

  lemma {:induction false} IssuedIsSound(s: State, r: IssueRequest, id: Id, c: Millis, t: Millis, e: Millis, reachable: bool, sent: bool)
    requires s.reading && Fresh(s, id) && s.now <= c <= t <= e && IssueDecision(s, r, c, reachable).Issue?
    ensures var u := IssueGrant(s, r, id, c, t, e, reachable, sent); Emits(s, u) ==> Sound(s, u.trace[|s.trace|], u)
  {
    hide ApprovalKey, ValidBinding, ExactProcess, WorkspaceRevision, Live;
    SameProcess(s.config, r.binding);
  }

  lemma {:induction false} IssuedGrantsEvolve(s: State, r: IssueRequest, id: Id, c: Millis, t: Millis, e: Millis, reachable: bool, sent: bool)
    requires s.reading && Fresh(s, id) && s.now <= c <= t <= e && IssueDecision(s, r, c, reachable).Issue?
    ensures GrantsEvolve(s, IssueGrant(s, r, id, c, t, e, reachable, sent))
  {
    hide ApprovalKey, ValidBinding, WorkspaceRevision, Live, IssueDecision;
    LiveIsPart(s.grants, c);
  }

  lemma LiveIsPart(grants: map<Id, StoredGrant>, now: Millis)
    ensures forall g :: g in Live(grants, now) ==> g in grants && grants[g] == Live(grants, now)[g]
  {
  }

  lemma {:induction false} IssueRefusedEvolves(s: State, r: IssueRequest, id: Id, c: Millis, t: Millis, e: Millis, reachable: bool, sent: bool)
    requires s.reading && Fresh(s, id) && s.now <= c <= t <= e && !IssueDecision(s, r, c, reachable).Issue?
    ensures Evolves(s, IssueGrant(s, r, id, c, t, e, reachable, sent))
  {
    hide ApprovalKey, ValidBinding, WorkspaceRevision, IssueDecision;
  }

  lemma {:induction false} IssueEvolves(s: State, r: IssueRequest, id: Id, c: Millis, t: Millis, e: Millis, reachable: bool, sent: bool)
    requires s.reading && Fresh(s, id) && s.now <= c <= t <= e
    ensures Evolves(s, IssueGrant(s, r, id, c, t, e, reachable, sent))
  {
    if IssueDecision(s, r, c, reachable).Issue? {
      IssuedEvolves(s, r, id, c, t, e, reachable, sent);
    } else {
      IssueRefusedEvolves(s, r, id, c, t, e, reachable, sent);
    }
  }

  lemma {:induction false} RevalidateEvolves(s: State, r: RevalidateRequest, at: Millis, reachable: bool, sent: bool)
    requires s.reading && s.now <= at
    ensures Evolves(s, RevalidateGrant(s, r, at, reachable, sent))
  {
  }

  lemma {:induction false} CredentialEvolves(s: State, r: CredentialRequest, sent: bool)
    ensures Evolves(s, CredentialRequired(s, r, sent))
  {
  }

  lemma {:induction false} CredentialAnswerEvolves(s: State, stored: bool, sent: bool)
    requires TickEnabled(s, CredentialTick(stored, sent))
    ensures Evolves(s, AnswerCredential(s, stored, sent))
  {
  }

  lemma {:induction false} DecideEvolves(s: State, id: Id, at: Millis, reachable: bool, sent: bool)
    requires s.command.Deciding? && Fresh(s, id) && s.now <= at
    ensures Evolves(s, DecidePending(s, id, at, reachable, sent))
  {
  }

  lemma {:induction false} TakeOutEvolves(s: State, at: Millis, worker: Option<Ticket>, gone: set<Id>,
                                          decision: Decision, cleared: bool)
    requires s.now <= at
    ensures Evolves(s, TakeOut(s.(now := at, worker := worker), gone, decision, cleared))
  {
  }

  predicate Ends(s: State, session: Id, t: Id, phase: Phase) {
    session == s.config.sessionId && AcceptsPhase(s.authority, t, phase) && TerminalPhase(phase)
  }

  lemma {:induction false} TurnEndEvolves(s: State, session: Id, t: Id, phase: Phase)
    requires Ends(s, session, t, phase)
    ensures Evolves(s, TurnStateFrame(s, session, t, phase))
  {
  }

  lemma {:induction false} NoTurnEndEvolves(s: State, session: Id, t: Id, phase: Phase)
    requires !Ends(s, session, t, phase)
    ensures Evolves(s, TurnStateFrame(s, session, t, phase))
  {
  }

  lemma {:induction false} TurnStateEvolves(s: State, session: Id, t: Id, phase: Phase)
    ensures Evolves(s, TurnStateFrame(s, session, t, phase))
  {
    if Ends(s, session, t, phase) {
      TurnEndEvolves(s, session, t, phase);
    } else {
      NoTurnEndEvolves(s, session, t, phase);
    }
  }

  lemma {:induction false} TurnCompletedEvolves(s: State, session: Id, t: Id, text: string)
    ensures Evolves(s, TurnCompletedFrame(s, session, t, text))
  {
  }

  lemma {:induction false} TurnFailedEvolves(s: State, session: Id, t: Id, phase: Phase, code: string)
    ensures Evolves(s, TurnFailedFrame(s, session, t, phase, code))
  {
    if session == s.config.sessionId && FailurePhase(phase) && AcceptsPhase(s.authority, t, phase) {
      FailureEvolves(s, t, phase, code);
    } else {
      NoFailureEvolves(s, session, t, phase, code);
    }
  }

  lemma {:induction false} FailureEvolves(s: State, t: Id, phase: Phase, code: string)
    requires FailurePhase(phase) && AcceptsPhase(s.authority, t, phase)
    ensures Evolves(s, TurnFailedFrame(s, s.config.sessionId, t, phase, code))
  {
  }

  lemma {:induction false} NoFailureEvolves(s: State, session: Id, t: Id, phase: Phase, code: string)
    requires !(session == s.config.sessionId && FailurePhase(phase) && AcceptsPhase(s.authority, t, phase))
    ensures Evolves(s, TurnFailedFrame(s, session, t, phase, code))
  {
  }

  lemma {:induction false} FrameEvolves(s: State, f: Frame)
    requires FrameEnabled(s, f)
    ensures Evolves(s, FrameStep(s, f))
  {
    match f
    case Evaluate(r, reachable, sent) => EvaluateEvolves(s, r, reachable, sent);
    case Confirmation(r, at, sent) => ConfirmationEvolves(s, r, at, sent);
    case IssueFrame(r, id, c, t, e, reachable, sent) => IssueEvolves(s, r, id, c, t, e, reachable, sent);
    case Revalidate(r, at, reachable, sent) => RevalidateEvolves(s, r, at, reachable, sent);
    case Credential(r, sent) => CredentialEvolves(s, r, sent);
    case TurnState(session, t, phase) => TurnStateEvolves(s, session, t, phase);
    case TurnCompleted(session, t, text) => TurnCompletedEvolves(s, session, t, text);
    case TurnFailed(session, t, phase, code) => TurnFailedEvolves(s, session, t, phase, code);
  }

  lemma {:induction false} StartTurnEvolves(s: State, id: Id, admitted: bool)
    requires Fresh(s, id) && s.command.NoCommand?
    ensures Evolves(s, StartTurn(s, id, admitted))
  {
  }

  lemma {:induction false} StartSentEvolves(s: State, sent: bool)
    requires s.command.StartSending?
    ensures Evolves(s, StartSent(s, sent))
  {
  }

  lemma {:induction false} BeginCancellationEvolves(s: State)
    requires s.command.NoCommand?
    ensures Evolves(s, BeginCancellation(s))
  {
  }

  lemma {:induction false} TakePendingEvolves(s: State, id: Id, decision: Decision)
    requires PendingKeyed(s.pending, s.usedIds) && id in s.pending
    ensures Evolves(s, TakePending(s, id, decision))
  {
  }

  lemma {:induction false} CancelDoneEvolves(s: State)
    ensures Evolves(s, s.(command := NoCommand))
  {
  }

  lemma {:induction false} ClearTakenEvolves(s: State)
    requires s.command.Deciding?
    ensures Evolves(s, ClearTaken(s))
  {
  }

  lemma {:induction false} ActEvolves(s: State, a: Act)
    requires PendingKeyed(s.pending, s.usedIds) && ActEnabled(s, a)
    ensures Evolves(s, ActStep(s, a))
  {
    hide Evolves, StartTurn, StartSent, BeginCancellation, TakeOut, TakePending, ClearTaken, DecidePending, PendingKeyed;
    match a
    case StartTurnAct(id, admitted) => StartTurnEvolves(s, id, admitted);
    case StartSentAct(sent) => StartSentEvolves(s, sent);
    case BeginCancellationAct => BeginCancellationEvolves(s);
    case CancelTakeAnyAct(id, at) =>
      TakeOutEvolves(s, at, s.worker, {id}, if s.pending[id].expiresAt <= at then Deny else Cancel, false);
    case CancelDoneAct => CancelDoneEvolves(s);
    case TakePendingAct(id, d) => TakePendingEvolves(s, id, d);
    case ClearTakenAct => ClearTakenEvolves(s);
    case DecideAct(id, at, reachable, sent) => DecideEvolves(s, id, at, reachable, sent);
    case StopAct => StoppingEvolves(s);
  }

  lemma {:induction false} StoppingEvolves(s: State)
    ensures Evolves(s, s.(stopped := true))
  {
  }

  lemma {:induction false} WorkerFireEvolves(s: State)
    requires s.worker.Some?
    ensures Evolves(s, WorkerFire(s))
  {
    TakeOutEvolves(s, s.now, None, Matching(s.pending, s.worker.value, s.now), Deny, true);
  }

  lemma {:induction false} ScheduleEvolves(s: State)
    requires s.scheduling.Some?
    ensures Evolves(s, Schedule(s))
  {
  }

  lemma {:induction false} ClearOwedEvolves(s: State, id: Id)
    requires id in s.owed
    ensures Evolves(s, ClearForOwed(s, id))
  {
  }

  lemma {:induction false} ReplyOwedEvolves(s: State, id: Id, sent: bool)
    requires OwedKeyed(s.owed, s.usedIds) && id in s.owed
    ensures Evolves(s, ReplyOwed(s, id, sent))
  {
  }

  lemma {:induction false} WorkerTakeEvolves(s: State)
    ensures Evolves(s, s.(timer := None, worker := s.timer))
  {
  }

  lemma {:induction false} TickEvolves(s: State, t: Tick)
    requires OwedKeyed(s.owed, s.usedIds) && WaitsInTime(s.waiting, s.now) && WaitsExactly(s.config, s.waiting) && TickEnabled(s, t)
    ensures Evolves(s, TickStep(s, t))
  {
    hide Evolves, AdmitConfirmation, AnswerCredential, Schedule, TakeOut, WorkerFire, ClearForOwed, ReplyOwed, OwedKeyed, WaitsInTime, WaitsExactly;
    match t
    case AdmitTick(id, sent) => AdmissionEvolves(s, id, sent);
    case CredentialTick(stored, sent) => CredentialAnswerEvolves(s, stored, sent);
    case ScheduleTick => ScheduleEvolves(s);
    case ExpirePass(at) => TakeOutEvolves(s, at, s.worker, Expired(s.pending, at), Deny, false);
    case WorkerTake => WorkerTakeEvolves(s);
    case WorkerFireTick => WorkerFireEvolves(s);
    case ClearOwed(id) => ClearOwedEvolves(s, id);
    case ReplyOwedTick(id, sent) => ReplyOwedEvolves(s, id, sent);
  }

  lemma {:induction false} DrainEvolves(s: State, who: Caller)
    ensures Evolves(s, RetireStep(s, who, Drain))
  {
    hide Without, Owing;
    DrainedWere(s.pending, s.owed);
  }

  lemma DrainedWere(pending: map<Id, Pending>, owed: map<Id, Owed>)
    ensures forall id :: id in Without(pending, pending.Keys) ==> id in pending && pending[id] == Without(pending, pending.Keys)[id]
    ensures var after := owed + Owing(pending, pending.Keys, Deny, true);
            forall id :: id in after ==>
              || (id in owed && owed[id].pending == after[id].pending)
              || (id in pending && pending[id] == after[id].pending)
  {
  }

  lemma {:induction false} ForceEvolves(s: State, who: Caller)
    requires s.closed
    ensures Evolves(s, RetireStep(s, who, Force))
  {
  }

  lemma {:induction false} OtherPieceEvolves(s: State, who: Caller, r: Retirement)
    requires !r.Drain? && !r.Force? && (r.Close? || s.closed)
    ensures Evolves(s, RetireStep(s, who, r))
  {
  }

  lemma {:induction false} RetireEvolves(s: State, who: Caller, r: Retirement)
    requires RetireEnabled(s, who, r)
    ensures Evolves(s, RetireStep(s, who, r))
  {
    hide Evolves, RetireStep;
    match r
    case Drain => DrainEvolves(s, who);
    case Force => ForceEvolves(s, who);
    case _ => OtherPieceEvolves(s, who, r);
  }

  lemma {:induction false} ChangeEvolves(s: State, c: Change)
    requires ChangeEnabled(s, c)
    ensures Evolves(s, ChangeStep(s, c))
  {
  }

  lemma {:induction false} StutterEvolves(s: State)
    ensures Evolves(s, s)
  {
  }

  /** Every step of every thread, in every generation-consistent state, evolves it soundly. */
  lemma {:induction false} StepEvolves(s: State, l: Label)
    requires Generation(s)
    ensures Evolves(s, Next(s, l))
  {
    StutterEvolves(s);
    match l
    case OnFrame(f) => if FrameEnabled(s, f) { FrameEvolves(s, f); }
    case OnAct(a) => if ActEnabled(s, a) { ActEvolves(s, a); }
    case OnTick(t) => if TickEnabled(s, t) { TickEvolves(s, t); }
    case OnRetire(who, r) => if RetireEnabled(s, who, r) { RetireEvolves(s, who, r); }
    case OnChange(c) => if ChangeEnabled(s, c) { ChangeEvolves(s, c); }
  }
}
