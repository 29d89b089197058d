/** Evidence belongs to one turn generation: what every reachable state keeps. */
module HostGeneration {
  import opened Common
  import opened HostTypes
  import opened HostSteps
  import opened HostVerdicts

  // ---- The invariant ------------------------------------------------------------------------

  // Each ledger entry sits under the key its content determines, and identifiers in
  // circulation were drawn before, so a fresh one collides with none.

  ghost predicate PendingKeyed(pending: map<Id, Pending>, used: set<Id>) {
    forall id :: id in pending ==>
      pending[id].pendingId == id && id in used && pending[id].hostTurnId in used
  }

  ghost predicate OwedKeyed(owed: map<Id, Owed>, used: set<Id>) {
    forall id :: id in owed ==>
      && owed[id].pending.pendingId == id && id in used && owed[id].pending.hostTurnId in used
      && !owed[id].decision.Confirm?
  }

  ghost predicate ApprovalsKeyed(approvals: map<string, Approval>) {
    forall k :: k in approvals ==> k == ApprovalKey(approvals[k].hostTurnId, approvals[k].binding)
  }

  ghost predicate GrantsKeyed(grants: map<Id, StoredGrant>, used: set<Id>) {
    forall g :: g in grants ==>
      grants[g].grant.grantId == g && grants[g].grant.singleUse && !grants[g].grant.used && g in used
  }

  predicate TurnUsed(a: Authority, used: set<Id>) {
    match a
    case Idle => true
    case Active(turn) => turn.turnId in used
    case Cancelling(turn) => turn.turnId in used
    case Terminal(turnId, _) => turnId in used
  }

  predicate CommandUsed(c: Command, used: set<Id>) {
    match c
    case NoCommand => true
    case CancelTail => true
    case StartSending(turnId) => turnId in used
    case Deciding(p, _, _) => p.pendingId in used && p.hostTurnId in used
  }

  // All evidence was produced for exactly this turn and its one Codex turn.

  predicate OwnedBy(turn: Turn, hostTurnId: Id, b: ProcessBinding) {
    hostTurnId == turn.turnId && turn.codexTurn == Some(b.turnId)
  }

  ghost predicate PendingOf(pending: map<Id, Pending>, turn: Turn) {
    forall id :: id in pending ==> OwnedBy(turn, pending[id].hostTurnId, pending[id].binding)
  }

  ghost predicate ApprovalsOf(approvals: map<string, Approval>, turn: Turn) {
    forall k :: k in approvals ==> OwnedBy(turn, approvals[k].hostTurnId, approvals[k].binding)
  }

  ghost predicate GrantsOf(grants: map<Id, StoredGrant>, turn: Turn) {
    forall g :: g in grants ==> OwnedBy(turn, grants[g].hostTurnId, grants[g].grant.binding)
  }

  predicate DeciderOf(c: Command, turn: Turn) {
    c.Deciding? && c.pending.hostTurnId == turn.turnId ==> turn.codexTurn == Some(c.pending.binding.turnId)
  }

  ghost predicate Evidence(a: Authority, pending: map<Id, Pending>, approvals: map<string, Approval>,
                           grants: map<Id, StoredGrant>, c: Command) {
    match a
    case Active(turn) =>
      PendingOf(pending, turn) && ApprovalsOf(approvals, turn) && GrantsOf(grants, turn) && DeciderOf(c, turn)
    case Idle => pending == map[] && approvals == map[] && grants == map[]
    case Cancelling(_) => pending == map[] && approvals == map[] && grants == map[]
    case Terminal(_, _) => true
  }

  /** A confirmation that waits for the authority lock keeps the deadline computed on its arrival. */
  predicate WaitsInTime(w: Option<Waiting>, now: Millis) {
    w.Some? && w.value.AtConfirmation? ==>
      && w.value.at <= now
      && w.value.at < w.value.expiresAt <= w.value.confirmation.expiresAt
      && w.value.expiresAt <= w.value.at + HOST_CONFIRMATION_TTL_MS
  }

  /** And it was found exact. */
  predicate WaitsExactly(c: Config, w: Option<Waiting>) {
    w.Some? && w.value.AtConfirmation? ==> ExactProcess(c, w.value.confirmation.binding)
  }

  ghost predicate Generation(s: State) {
    && PendingKeyed(s.pending, s.usedIds)
    && OwedKeyed(s.owed, s.usedIds)
    && ApprovalsKeyed(s.approvals)
    && GrantsKeyed(s.grants, s.usedIds)
    && TurnUsed(s.authority, s.usedIds)
    && CommandUsed(s.command, s.usedIds)
    && Evidence(s.authority, s.pending, s.approvals, s.grants, s.command)
    && WaitsInTime(s.waiting, s.now)
    && WaitsExactly(s.config, s.waiting)
    && |s.pending| <= MAX_PENDING
    && |s.grants| <= MAX_GRANTS
  }
}

module HostGenerationProof {
  import opened Common
  import opened HostTypes
  import opened HostSteps
  import opened HostGeneration
  import opened HostVerdicts

  // ---- Preservation ---------------------------------------------------------------------------

  lemma SubsetSize<K>(small: set<K>, big: set<K>)
    requires small <= big
    ensures |small| <= |big|
  {
    assert big == small + (big - small);
  }

  lemma SubmapSize<K, V>(small: map<K, V>, big: map<K, V>)
    requires small.Keys <= big.Keys
    ensures |small| <= |big|
  {
    SubsetSize(small.Keys, big.Keys);
    assert |small.Keys| == |small| && |big.Keys| == |big|;
  }

  lemma {:induction false} EvaluateKeeps(s: State, r: EvaluateRequest, reachable: bool, sent: bool)
    requires Generation(s)
    ensures Generation(AuthorityEvaluate(s, r, reachable, sent))
  {
  }

  lemma {:induction false} ConfirmationKeeps(s: State, r: ConfirmationRequest, at: Millis, sent: bool)
    requires Generation(s) && s.now <= at
    ensures Generation(ConfirmationRequired(s, r, at, sent))
  {
    hide EffectiveExpiry;
  }

  lemma {:induction false} AdmissionKeeps(s: State, id: Id, sent: bool)
    requires Generation(s) && TickEnabled(s, AdmitTick(id, sent))
    ensures Generation(AdmitConfirmation(s, id, sent))
  {
    if AdmissionVerdict(s, s.waiting.value.confirmation).Admit? {
      AdmittedKeeps(s, id, sent);
    } else {
      RefusedKeeps(s, id, sent);
    }
  }

  lemma {:induction false} AdmittedKeeps(s: State, id: Id, sent: bool)
    requires Generation(s) && TickEnabled(s, AdmitTick(id, sent))
    requires AdmissionVerdict(s, s.waiting.value.confirmation).Admit?
    ensures Generation(AdmitConfirmation(s, id, sent))
  {
    hide ApprovalsOf, ApprovalsKeyed, GrantsOf, ApprovalKey;
  }

  lemma {:induction false} RefusedKeeps(s: State, id: Id, sent: bool)
    requires Generation(s) && TickEnabled(s, AdmitTick(id, sent))
    requires !AdmissionVerdict(s, s.waiting.value.confirmation).Admit?
    ensures Generation(AdmitConfirmation(s, id, sent))
  {
  }

  lemma ReapedLedger(grants: map<Id, StoredGrant>, used: set<Id>, now: Millis)
    requires GrantsKeyed(grants, used)
    ensures GrantsKeyed(Live(grants, now), used) && |Live(grants, now)| <= |grants|
    ensures forall turn :: GrantsOf(grants, turn) ==> GrantsOf(Live(grants, now), turn)
    ensures grants == map[] ==> Live(grants, now) == map[]
  {
    SubmapSize(Live(grants, now), grants);
  }

  lemma IssuedLedger(live: map<Id, StoredGrant>, used: set<Id>, turn: Turn, g: StoredGrant)
    requires GrantsKeyed(live, used) && GrantsOf(live, turn) && |live| < MAX_GRANTS
    requires OwnedBy(turn, g.hostTurnId, g.grant.binding) && g.grant.singleUse && !g.grant.used
    ensures var after := live[g.grant.grantId := g];
            && GrantsKeyed(after, used + {g.grant.grantId}) && GrantsOf(after, turn)
            && |after| <= MAX_GRANTS
  {
  }

  lemma {:induction false} IssueRefusedKeeps(s: State, r: IssueRequest, id: Id, c: Millis, t: Millis, e: Millis, reachable: bool, sent: bool)
    requires Generation(s) && s.now <= e && !IssueDecision(s, r, c, reachable).Issue?
    ensures Generation(IssueGrant(s, r, id, c, t, e, reachable, sent))
  {
    ReapedLedger(s.grants, s.usedIds, c);
  }

  lemma {:induction false} IssuedKeeps(s: State, r: IssueRequest, id: Id, c: Millis, t: Millis, e: Millis, reachable: bool, sent: bool)
    requires Generation(s) && s.now <= e && IssueDecision(s, r, c, reachable).Issue?
    ensures Generation(IssueGrant(s, r, id, c, t, e, reachable, sent))
  {
    var g := NewGrant(s.config, r, IssueDecision(s, r, c, reachable).approval, id, t, e);
    ReapedLedger(s.grants, s.usedIds, c);
    IssuedLedger(Live(s.grants, c), s.usedIds, s.authority.turn, g);
  }

  lemma {:induction false} IssueKeeps(s: State, r: IssueRequest, id: Id, c: Millis, t: Millis, e: Millis, reachable: bool, sent: bool)
    requires Generation(s) && s.now <= e
    ensures Generation(IssueGrant(s, r, id, c, t, e, reachable, sent))
  {
    if IssueDecision(s, r, c, reachable).Issue? {
      IssuedKeeps(s, r, id, c, t, e, reachable, sent);
    } else {
      IssueRefusedKeeps(s, r, id, c, t, e, reachable, sent);
    }
  }

  lemma {:induction false} RevalidateKeeps(s: State, r: RevalidateRequest, at: Millis, reachable: bool, sent: bool)
    requires Generation(s) && s.now <= at
    ensures Generation(RevalidateGrant(s, r, at, reachable, sent))
  {
    SubmapSize(s.grants - {r.grant.grantId}, s.grants);
  }

  lemma {:induction false} DecideKeeps(s: State, id: Id, at: Millis, reachable: bool, sent: bool)
    requires Generation(s) && s.now <= at && s.command.Deciding?
    ensures Generation(DecidePending(s, id, at, reachable, sent))
  {
    if DecideOutcome(s, s.command.pending, s.command.decision, at, reachable).Approve? {
      ApprovedKeeps(s, id, at, reachable, sent);
    } else {
      AnsweredKeeps(s, id, at, reachable, sent);
    }
  }

  lemma ApprovalAdded(approvals: map<string, Approval>, turn: Turn, p: Pending, revision: int, id: Id)
    requires ApprovalsKeyed(approvals) && ApprovalsOf(approvals, turn) && OwnedBy(turn, p.hostTurnId, p.binding)
    ensures var key := ApprovalKey(p.hostTurnId, p.binding);
            && ApprovalsKeyed(approvals[key := NewApproval(p, revision, id)])
            && ApprovalsOf(approvals[key := NewApproval(p, revision, id)], turn)
            && ApprovalsKeyed(approvals - {key}) && ApprovalsOf(approvals - {key}, turn)
  {
  }

  lemma {:induction false} ApprovedKeeps(s: State, id: Id, at: Millis, reachable: bool, sent: bool)
    requires Generation(s) && s.command.Deciding? && s.now <= at
    requires DecideOutcome(s, s.command.pending, s.command.decision, at, reachable).Approve?
    ensures Generation(DecidePending(s, id, at, reachable, sent))
  {
    hide Generation, DecidePending, DecideOutcome, ApprovalKey, ApprovalsOf, ApprovalsKeyed;
    var u := DecidePending(s, id, at, reachable, sent);
    ApprovalStored(s, id, at, reachable, sent);
    DeciderIsOwned(s);
    ApprovalAdded(s.approvals, s.authority.turn, s.command.pending, s.authorization.revision, id);
    ApprovalsKeep(s, u.approvals, id, at, u.trace);
  }

  lemma {:induction false} ApprovalStored(s: State, id: Id, at: Millis, reachable: bool, sent: bool)
    requires s.command.Deciding? && DecideOutcome(s, s.command.pending, s.command.decision, at, reachable).Approve?
    ensures var u := DecidePending(s, id, at, reachable, sent);
            var key := ApprovalKey(s.command.pending.hostTurnId, s.command.pending.binding);
            && u == s.(now := at, command := NoCommand, approvals := u.approvals, usedIds := s.usedIds + {id}, trace := u.trace)
            && u.approvals == if sent then s.approvals[key := NewApproval(s.command.pending, s.authorization.revision, id)]
                              else s.approvals - {key}
  {
    hide ApprovalKey, ValidBinding, NewApproval;
  }

  lemma DeciderIsOwned(s: State)
    requires Generation(s) && s.command.Deciding? && s.authority.Active?
    requires s.authority.turn.turnId == s.command.pending.hostTurnId
    ensures OwnedBy(s.authority.turn, s.command.pending.hostTurnId, s.command.pending.binding)
    ensures ApprovalsKeyed(s.approvals) && ApprovalsOf(s.approvals, s.authority.turn)
  {
  }

  lemma {:induction false} ApprovalsKeep(s: State, approvals: map<string, Approval>, id: Id, at: Millis, trace: Trace)
    requires Generation(s) && s.authority.Active? && s.now <= at
    requires ApprovalsKeyed(approvals) && ApprovalsOf(approvals, s.authority.turn)
    ensures Generation(s.(now := at, command := NoCommand, approvals := approvals, usedIds := s.usedIds + {id}, trace := trace))
  {
    hide ApprovalsKeyed, ApprovalsOf, PendingOf, GrantsOf;
  }

  lemma {:induction false} AnsweredKeeps(s: State, id: Id, at: Millis, reachable: bool, sent: bool)
    requires Generation(s) && s.now <= at && s.command.Deciding?
    requires !DecideOutcome(s, s.command.pending, s.command.decision, at, reachable).Approve?
    ensures Generation(DecidePending(s, id, at, reachable, sent))
  {
    hide ApprovalKey, DecideOutcome;
  }

  lemma OwingKeyed(pending: map<Id, Pending>, owed: map<Id, Owed>, used: set<Id>, gone: set<Id>,
                   decision: Decision, cleared: bool)
    requires PendingKeyed(pending, used) && OwedKeyed(owed, used) && !decision.Confirm?
    ensures OwedKeyed(owed + Owing(pending, gone, decision, cleared), used)
  {
  }

  lemma {:induction false} TakeOutKeeps(s: State, gone: set<Id>, decision: Decision, cleared: bool)
    requires Generation(s) && !decision.Confirm?
    ensures Generation(TakeOut(s, gone, decision, cleared))
  {
    SubmapSize(Without(s.pending, gone), s.pending);
    OwingKeyed(s.pending, s.owed, s.usedIds, gone, decision, cleared);
  }

  lemma {:induction false} TakePendingKeeps(s: State, id: Id, decision: Decision)
    requires Generation(s) && id in s.pending
    ensures Generation(TakePending(s, id, decision))
  {
    SubmapSize(Without(s.pending, {id}), s.pending);
  }

  /** Retiring the turn that owns all evidence empties the three ledgers. */
  lemma {:induction false} RetireEvidenceEmpties(s: State, turn: Turn)
    requires Generation(s) && (s.authority == Active(turn) || s.authority == Cancelling(turn))
    ensures var r := RetireEvidence(s, true, turn.turnId);
            && r.pending == map[] && r.approvals == map[] && r.grants == map[]
            && OwedKeyed(r.owed, r.usedIds)
  {
    OwingKeyed(s.pending, s.owed, s.usedIds, OfTurn(s.pending, turn.turnId), Cancel, false);
  }

  lemma {:induction false} EndTurnKeeps(s: State, ends: bool, turnId: Id, phase: Phase)
    requires Generation(s) && (ends ==> TurnIs(s.authority, turnId))
    ensures Generation(EndTurn(s, ends, turnId, phase))
  {
    if ends { RetireEvidenceEmpties(s, s.authority.turn); }
  }

  lemma {:induction false} BeginCancellationKeeps(s: State)
    requires Generation(s)
    ensures Generation(BeginCancellation(s))
  {
    if s.authority.Active? || s.authority.Cancelling? {
      RetireEvidenceEmpties(s, s.authority.turn);
    }
  }

  lemma {:induction false} StartSentKeeps(s: State, sent: bool)
    requires Generation(s) && s.command.StartSending?
    ensures Generation(StartSent(s, sent))
  {
    EndTurnKeeps(s, !sent && TurnIs(s.authority, s.command.turnId), s.command.turnId, Failed);
  }

  /** The reader's liveness and the outputs are no part of the invariant. */
  lemma {:induction false} OutputsKeep(s: State, reading: bool, text: Option<string>, error: Option<string>)
    requires Generation(s)
    ensures Generation(s.(reading := reading, text := text, error := error))
  {
  }

  lemma {:induction false} TurnStateKeeps(s: State, session: Id, t: Id, phase: Phase)
    requires Generation(s)
    ensures Generation(TurnStateFrame(s, session, t, phase))
  {
    hide Generation, EndTurn, AcceptsPhase;
    var ends := session == s.config.sessionId && AcceptsPhase(s.authority, t, phase) && TerminalPhase(phase);
    EndingIsOfTurn(s, t, phase);
    EndTurnKeeps(s, ends, t, phase);
    OutputsKeep(EndTurn(s, ends, t, phase), s.reading && session == s.config.sessionId, s.text, s.error);
    EndTurnLeaves(s, ends, t, phase);
  }

  lemma EndingIsOfTurn(s: State, t: Id, phase: Phase)
    ensures AcceptsPhase(s.authority, t, phase) ==> TurnIs(s.authority, t)
  {
  }

  lemma EndTurnLeaves(s: State, ends: bool, t: Id, phase: Phase)
    ensures var u := EndTurn(s, ends, t, phase); u.reading == s.reading && u.text == s.text && u.error == s.error
  {
  }

  lemma {:induction false} TurnCompletedKeeps(s: State, session: Id, t: Id, text: string)
    requires Generation(s)
    ensures Generation(TurnCompletedFrame(s, session, t, text))
  {
    hide Generation, TurnStateFrame;
    TurnStateKeeps(s, session, t, Completed);
    var u := TurnStateFrame(s, session, t, Completed);
    var v := TurnCompletedFrame(s, session, t, text);
    OutputsKeep(u, u.reading, v.text, v.error);
  }

  lemma {:induction false} TurnFailedKeeps(s: State, session: Id, t: Id, phase: Phase, code: string)
    requires Generation(s)
    ensures Generation(TurnFailedFrame(s, session, t, phase, code))
  {
    hide Generation, EndTurn, AcceptsPhase;
    var ends := session == s.config.sessionId && FailurePhase(phase) && AcceptsPhase(s.authority, t, phase);
    EndingIsOfTurn(s, t, phase);
    EndTurnKeeps(s, ends, t, phase);
    var u := TurnFailedFrame(s, session, t, phase, code);
    EndTurnLeaves(s, ends, t, phase);
    OutputsKeep(EndTurn(s, ends, t, phase), u.reading, s.text, u.error);
  }

  lemma {:induction false} CredentialKeeps(s: State, r: CredentialRequest, sent: bool)
    requires Generation(s)
    ensures Generation(CredentialRequired(s, r, sent))
  {
  }

  lemma {:induction false} CredentialAnswerKeeps(s: State, stored: bool, sent: bool)
    requires Generation(s) && TickEnabled(s, CredentialTick(stored, sent))
    ensures Generation(AnswerCredential(s, stored, sent))
  {
    hide CredentialVerdict;
  }

  lemma {:induction false} StartTurnKeeps(s: State, id: Id, admitted: bool)
    requires Generation(s) && s.command.NoCommand?
    ensures Generation(StartTurn(s, id, admitted))
  {
  }

  lemma {:induction false} CancelTakeAnyKeeps(s: State, id: Id, at: Millis)
    requires Generation(s) && id in s.pending && s.now <= at
    ensures Generation(CancelTakeAny(s, id, at))
  {
    PassingTimeKeeps(s, at);
    TakeOutKeeps(s.(now := at), {id}, if s.pending[id].expiresAt <= at then Deny else Cancel, false);
  }

  lemma {:induction false} PassingTimeKeeps(s: State, at: Millis)
    requires Generation(s) && s.now <= at
    ensures Generation(s.(now := at))
  {
  }

  lemma {:induction false} ScheduleKeeps(s: State)
    requires Generation(s) && s.scheduling.Some?
    ensures Generation(Schedule(s))
  {
  }

  lemma {:induction false} WorkerFireKeeps(s: State)
    requires Generation(s) && s.worker.Some?
    ensures Generation(WorkerFire(s))
  {
    hide Matching, Without, Owing, ApprovalsOf, ApprovalsKeyed, GrantsOf, GrantsKeyed, ApprovalKey, PendingKeyed, OwedKeyed;
    var gone := Matching(s.pending, s.worker.value, s.now);
    WithoutKeyed(s.pending, s.usedIds, gone);
    OwingKeyed(s.pending, s.owed, s.usedIds, gone, Deny, true);
  }

  lemma {:induction false} ExpirePassKeeps(s: State, at: Millis)
    requires Generation(s) && s.now <= at
    ensures Generation(TakeOut(s.(now := at), Expired(s.pending, at), Deny, false))
  {
    PassingTimeKeeps(s, at);
    TakeOutKeeps(s.(now := at), Expired(s.pending, at), Deny, false);
  }

  lemma {:induction false} WorkerTakeKeeps(s: State)
    requires Generation(s)
    ensures Generation(s.(timer := None, worker := s.timer))
  {
  }

  lemma {:induction false} ClearOwedKeeps(s: State, id: Id)
    requires Generation(s) && id in s.owed
    ensures Generation(ClearForOwed(s, id))
  {
  }

  lemma {:induction false} ReplyOwedKeeps(s: State, id: Id, sent: bool)
    requires Generation(s) && id in s.owed
    ensures Generation(ReplyOwed(s, id, sent))
  {
  }

  lemma {:induction false} FrameKeeps(s: State, f: Frame)
    requires Generation(s) && FrameEnabled(s, f)
    ensures Generation(FrameStep(s, f))
  {
    match f
    case Evaluate(r, reachable, sent) => EvaluateKeeps(s, r, reachable, sent);
    case Confirmation(r, at, sent) => ConfirmationKeeps(s, r, at, sent);
    case IssueFrame(r, id, c, t, e, reachable, sent) => IssueKeeps(s, r, id, c, t, e, reachable, sent);
    case Revalidate(r, at, reachable, sent) => RevalidateKeeps(s, r, at, reachable, sent);
    case Credential(r, sent) => CredentialKeeps(s, r, sent);
    case TurnState(session, t, phase) => TurnStateKeeps(s, session, t, phase);
    case TurnCompleted(session, t, text) => TurnCompletedKeeps(s, session, t, text);
    case TurnFailed(session, t, phase, code) => TurnFailedKeeps(s, session, t, phase, code);
  }

  lemma {:induction false} ActKeeps(s: State, a: Act)
    requires Generation(s) && ActEnabled(s, a)
    ensures Generation(ActStep(s, a))
  {
    hide Generation, StartTurn, StartSent, BeginCancellation, CancelTakeAny, TakePending, ClearTaken, DecidePending;
    match a
    case StartTurnAct(id, admitted) => StartTurnKeeps(s, id, admitted);
    case StartSentAct(sent) => StartSentKeeps(s, sent);
    case BeginCancellationAct => BeginCancellationKeeps(s);
    case CancelTakeAnyAct(id, at) => CancelTakeAnyKeeps(s, id, at);
    case CancelDoneAct => CommandKeeps(s, NoCommand);
    case TakePendingAct(id, d) => TakePendingKeeps(s, id, d);
    case ClearTakenAct => ClearTakenKeeps(s);
    case DecideAct(id, at, reachable, sent) => DecideKeeps(s, id, at, reachable, sent);
    case StopAct => StoppingKeeps(s);
  }

  lemma {:induction false} CommandKeeps(s: State, c: Command)
    requires Generation(s) && !c.Deciding? && !c.StartSending?
    ensures Generation(s.(command := c))
  {
  }

  lemma {:induction false} ClearTakenKeeps(s: State)
    requires Generation(s) && s.command.Deciding?
    ensures Generation(ClearTaken(s))
  {
  }

  lemma {:induction false} StoppingKeeps(s: State)
    requires Generation(s)
    ensures Generation(s.(stopped := true))
  {
  }

  lemma {:induction false} TickKeeps(s: State, t: Tick)
    requires Generation(s) && TickEnabled(s, t)
    ensures Generation(TickStep(s, t))
  {
    hide Generation, AdmitConfirmation, AnswerCredential, Schedule, TakeOut, WorkerFire, ClearForOwed, ReplyOwed;
    match t
    case AdmitTick(id, sent) => AdmissionKeeps(s, id, sent);
    case CredentialTick(stored, sent) => CredentialAnswerKeeps(s, stored, sent);
    case ScheduleTick => ScheduleKeeps(s);
    case ExpirePass(at) => ExpirePassKeeps(s, at);
    case WorkerTake => WorkerTakeKeeps(s);
    case WorkerFireTick => WorkerFireKeeps(s);
    case ClearOwed(id) => ClearOwedKeeps(s, id);
    case ReplyOwedTick(id, sent) => ReplyOwedKeeps(s, id, sent);
  }

  lemma {:induction false} DrainKeeps(s: State, who: Caller)
    requires Generation(s)
    ensures Generation(RetireStep(s, who, Drain))
  {
    hide Without, Owing;
    OwingKeyed(s.pending, s.owed, s.usedIds, s.pending.Keys, Deny, true);
    WithoutKeyed(s.pending, s.usedIds, s.pending.Keys);
  }

  lemma WithoutKeyed(pending: map<Id, Pending>, used: set<Id>, gone: set<Id>)
    ensures PendingKeyed(pending, used) ==> PendingKeyed(Without(pending, gone), used)
    ensures pending == map[] ==> Without(pending, gone) == map[]
    ensures forall turn :: PendingOf(pending, turn) ==> PendingOf(Without(pending, gone), turn)
    ensures |Without(pending, gone)| <= |pending|
  {
    SubmapSize(Without(pending, gone), pending);
  }

  lemma {:induction false} RetireKeeps(s: State, who: Caller, r: Retirement)
    requires Generation(s)
    ensures Generation(RetireStep(s, who, r))
  {
    if r.Drain? { DrainKeeps(s, who); }
  }

  lemma {:induction false} ChangeKeeps(s: State, c: Change)
    requires Generation(s) && ChangeEnabled(s, c)
    ensures Generation(ChangeStep(s, c))
  {
  }

  lemma {:induction false} GenerationStep(s: State, l: Label)
    requires Generation(s)
    ensures Generation(Next(s, l))
  {
    match l
    case OnFrame(f) => if FrameEnabled(s, f) { FrameKeeps(s, f); }
    case OnAct(a) => if ActEnabled(s, a) { ActKeeps(s, a); }
    case OnTick(t) => if TickEnabled(s, t) { TickKeeps(s, t); }
    case OnRetire(who, r) => if RetireEnabled(s, who, r) { RetireKeeps(s, who, r); }
    case OnChange(c) => if ChangeEnabled(s, c) { ChangeKeeps(s, c); }
  }

  /** Main result: the generation invariant holds in every reachable state. */
  lemma {:induction false} GenerationHolds(config: Config, labels: seq<Label>)
    ensures Generation(Reach(config, labels))
    decreases |labels|
  {
    if labels != [] {
      GenerationHolds(config, labels[..|labels|-1]);
      GenerationStep(Reach(config, labels[..|labels|-1]), labels[|labels|-1]);
    }
  }
}
