/** What each step does, in full and in the protocol's own terms: the frame it writes, the ledgers and
    the authority it leaves, and nothing besides.  A step that may not happen changes nothing. */
module HostEffects {
  import opened Common
  import opened HostTypes
  import opened HostSteps
  import opened HostVerdicts

  // ---- When a step may happen --------------------------------------------------------------------

  /** The reader is alive and between two messages. */
  predicate Listening(s: State) {
    s.reading && s.waiting.None? && s.scheduling.None?
  }

  /** No command runs and the coordinator still has the session. */
  predicate Available(s: State) {
    s.command.NoCommand? && !s.stopped
  }

  predicate MayFrame(s: State, f: Frame) {
    && Listening(s)
    && match f
       case Confirmation(_, at, _) => s.now <= at
       case IssueFrame(_, id, checkedAt, stampedAt, expiryFrom, _, _) => id !in s.usedIds && s.now <= checkedAt <= stampedAt <= expiryFrom
       case Revalidate(_, at, _, _) => s.now <= at
       case _ => true
  }

  predicate MayAct(s: State, a: Act) {
    match a
    case StartTurnAct(id, _) => Available(s) && id !in s.usedIds
    case StartSentAct(_) => s.command.StartSending?
    case BeginCancellationAct => Available(s)
    case CancelTakeAnyAct(id, at) => s.command.CancelTail? && id in s.pending && s.now <= at
    case CancelDoneAct => s.command.CancelTail?
    case TakePendingAct(id, d) => Available(s) && id in s.pending && (d.Confirm? || d.Deny?)
    case ClearTakenAct => s.command.Deciding? && !s.command.cleared
    case DecideAct(id, at, _, _) => s.command.Deciding? && s.command.cleared && id !in s.usedIds && s.now <= at
    case StopAct => Available(s)
  }

  predicate MayTick(s: State, t: Tick) {
    match t
    case AdmitTick(id, _) => s.reading && s.waiting.Some? && s.waiting.value.AtConfirmation? && id !in s.usedIds
    case CredentialTick(_, _) => s.reading && s.waiting.Some? && s.waiting.value.AtCredential?
    case ScheduleTick => s.scheduling.Some?
    case ExpirePass(at) => s.now <= at
    case WorkerTake => !s.timerStopped && s.worker.None? && s.timer.Some? && s.timer.value.expiresAt <= s.now
    case WorkerFireTick => s.worker.Some?
    case ClearOwed(id) => id in s.owed && !s.owed[id].cleared
    case ReplyOwedTick(id, _) => id in s.owed && s.owed[id].cleared
  }

  /** The pieces come in order, from a coordinator without the session or a reader whose loop ended. */
  predicate MayPiece(s: State, who: Caller, r: Retirement) {
    && (who.ByStop? ==> s.stopped) && (who.ByReader? ==> !s.reading) && (r.Close? || s.closed)
    && var done := if who.ByStop? then s.stopDone else s.readerDone;
       match r
       case Close => done == 0
       case Drain => done == 1
       case DropApprovals => done == 2
       case DropGrants => done == 3
       case StopTimer => done == 4
       case Force => done == 5
  }

  predicate MayChange(s: State, c: Change) {
    match c
    case ReaderEnds => s.waiting.None? && s.scheduling.None?
    case Clock(at) => s.now <= at
    case Authorize(a) => s.authorization.revision < a.revision
    case SetProvider(_) => true
  }

  predicate May(s: State, l: Label) {
    match l
    case OnFrame(f) => MayFrame(s, f)
    case OnAct(a) => MayAct(s, a)
    case OnTick(t) => MayTick(s, t)
    case OnRetire(who, r) => MayPiece(s, who, r)
    case OnChange(c) => MayChange(s, c)
  }

  /** A step that may not happen changes nothing. */
  lemma {:induction false} OtherwiseNothing(s: State, l: Label)
    requires !May(s, l)
    ensures Next(s, l) == s
  {
    hide FrameStep, ActStep, TickStep, RetireStep, ChangeStep;
  }

  // ---- The evidence of a turn --------------------------------------------------------------------

  function PendingOfOthers(pending: map<Id, Pending>, turnId: Id): map<Id, Pending>
  {
    map id | id in pending && pending[id].hostTurnId != turnId :: pending[id]
  }

  function CancelledOf(pending: map<Id, Pending>, turnId: Id): map<Id, Owed>
  {
    map id | id in pending && pending[id].hostTurnId == turnId :: Owed(pending[id], Cancel, false)
  }

  function ApprovalsOfOthers(approvals: map<string, Approval>, turnId: Id): map<string, Approval>
  {
    map k | k in approvals && approvals[k].hostTurnId != turnId :: approvals[k]
  }

  function GrantsOfOthers(grants: map<Id, StoredGrant>, turnId: Id): map<Id, StoredGrant>
  {
    map g | g in grants && grants[g].hostTurnId != turnId :: grants[g]
  }

  /** All evidence of the turn is gone; its pending actions are owed Cancel. */
  function WithoutTurn(s: State, turnId: Id): State
  {
    s.(pending := PendingOfOthers(s.pending, turnId), owed := s.owed + CancelledOf(s.pending, turnId),
       approvals := ApprovalsOfOthers(s.approvals, turnId), grants := GrantsOfOthers(s.grants, turnId))
  }

  lemma SameEvidence(pending: map<Id, Pending>, approvals: map<string, Approval>, grants: map<Id, StoredGrant>, turnId: Id)
    ensures Without(pending, OfTurn(pending, turnId)) == PendingOfOthers(pending, turnId)
    ensures Owing(pending, OfTurn(pending, turnId), Cancel, false) == CancelledOf(pending, turnId)
    ensures ApprovalsNotOf(approvals, turnId) == ApprovalsOfOthers(approvals, turnId)
    ensures GrantsNotOf(grants, turnId) == GrantsOfOthers(grants, turnId)
  {
  }

  lemma TurnIsRetired(s: State, turnId: Id)
    ensures RetireEvidence(s, true, turnId) == WithoutTurn(s, turnId)
    ensures RetireEvidence(s, false, turnId) == s
  {
    SameEvidence(s.pending, s.approvals, s.grants, turnId);
  }

  /** The turn has ended in this phase, together with its evidence. */
  function Ended(s: State, turnId: Id, phase: Phase): State
  {
    WithoutTurn(s, turnId).(authority := Idle, trace := s.trace + [TurnEnded(turnId, phase)])
  }

  lemma TurnIsEnded(s: State, turnId: Id, phase: Phase)
    ensures EndTurn(s, true, turnId, phase) == Ended(s, turnId, phase) && EndTurn(s, false, turnId, phase) == s
  {
    hide RetireEvidence, WithoutTurn;
    TurnIsRetired(s, turnId);
    RetiringKeeps(s, turnId);
  }

  lemma RetiringKeeps(s: State, turnId: Id)
    ensures var t := WithoutTurn(s, turnId); t.authority == s.authority && t.trace == s.trace
  {
  }

  // ---- Requests of the sidecar -------------------------------------------------------------------

  /** A frame was written, or the write failed and the reader's loop ends. */
  function Wrote(s: State, e: Event, sent: bool): State
  {
    if sent then s.(trace := s.trace + [e]) else s.(reading := false)
  }

  /** The answer to an authority request of this session. */
  function ScopeAnswer(s: State, r: EvaluateRequest, reachable: bool): Event
  {
    if !LiveTurn(s.authority, r.hostTurnId) then ScopeDenied(TurnNotActive)
    else if s.authority.turn.codexTurn.Some? && s.authority.turn.codexTurn.value != r.binding.turnId then ScopeDenied(CodexTurnMismatch)
    else if !ExactProcess(s.config, r.binding) then ScopeDenied(BindingMismatch)
    else if !reachable || !s.authorization.enabled then ScopeDenied(CapabilityDenied)
    else ScopeAllowed(r.hostTurnId, r.binding, s.authorization.revision)
  }

  lemma ScopeAnswered(s: State, r: EvaluateRequest, reachable: bool)
    requires r.sessionId == s.config.sessionId
    ensures var v := EvaluateVerdict(s, r, reachable);
            && EvaluateReply(r, v) == ScopeAnswer(s, r, reachable) && !v.Malformed?
            && (v.Ok? <==> ScopeAnswer(s, r, reachable).ScopeAllowed?)
  {
    hide ValidBinding, ExactProcess;
    SameProcess(s.config, r.binding);
  }

  /** An allowed scope is learned by its turn; the answer is written or the reader's loop ends. */
  lemma {:induction false} EvaluateEffect(s: State, r: EvaluateRequest, reachable: bool, sent: bool)
    requires MayFrame(s, Evaluate(r, reachable, sent))
    ensures var t := Next(s, OnFrame(Evaluate(r, reachable, sent)));
            var here, answer := r.sessionId == s.config.sessionId, ScopeAnswer(s, r, reachable);
            && t == s.(authority := t.authority, trace := t.trace, reading := here && sent)
            && t.trace == (if here && sent then s.trace + [answer] else s.trace)
            && if here && answer.ScopeAllowed? then
                 && s.authority.Active?
                 && var turn := s.authority.turn;
                    t.authority == Active(Turn(turn.turnId, turn.provider, turn.binding, Some(r.binding.turnId)))
               else t.authority == s.authority
  {
    hide EvaluateReply, ScopeAnswer;
    if r.sessionId == s.config.sessionId {
      hide EvaluateVerdict;
      ScopeAnswered(s, r, reachable);
    }
  }

  lemma {:induction false} ArrivalEffect(s: State, r: ConfirmationRequest, at: Millis, sent: bool)
    requires MayFrame(s, Confirmation(r, at, sent))
    ensures var t := Next(s, OnFrame(Confirmation(r, at, sent)));
            var exact := !s.closed && r.sessionId == s.config.sessionId && r.lifeId == s.config.lifeId && r.taskId == s.config.taskId
                         && r.capabilityId == "vita.process.workspace.git_status" && ExactProcess(s.config, r.binding);
            if !exact then t == s.(now := at, reading := false)
            else if Soonest(at, r.expiresAt) <= at then t == Wrote(s.(now := at), RefusedConfirmation(r.requestId, Deny), sent)
            else t == s.(now := at, waiting := Some(AtConfirmation(r, at, Soonest(at, r.expiresAt))))
  {
    ArrivalExactly(s, r, at, Soonest(at, r.expiresAt));
  }

  lemma {:induction false} AdmissionEffect(s: State, id: Id, sent: bool)
    requires MayTick(s, AdmitTick(id, sent))
    ensures var t := Next(s, OnTick(AdmitTick(id, sent)));
            var w := s.waiting.value;
            var r := w.confirmation;
            var p := Pending(id, r.requestId, r.hostTurnId, r.binding, w.expiresAt);
            if !LiveCall(s.authority, r.hostTurnId, r.binding) then
              t == Wrote(s.(waiting := None), RefusedConfirmation(r.requestId, Cancel), sent)
            else if s.pending != map[] then t == s.(waiting := None, reading := false)
            else t == s.(waiting := None, pending := map[id := p],
                         scheduling := Some(Ticket(s.config.sessionId, id, r.requestId, r.binding, w.expiresAt)),
                         usedIds := s.usedIds + {id}, trace := s.trace + [Admitted(p, w.at, r.expiresAt)])
  {
    hide Next, AdmissionVerdict;
    AdmissionIsDispatched(s, id, sent);
    AdmissionExactly(s, s.waiting.value.confirmation);
  }

  lemma {:induction false} AdmissionIsDispatched(s: State, id: Id, sent: bool)
    requires MayTick(s, AdmitTick(id, sent))
    ensures Next(s, OnTick(AdmitTick(id, sent))) == AdmitConfirmation(s, id, sent)
  {
    hide AdmissionVerdict;
  }

  /** The grant that a request mints on an approval. */
  function Minted(c: Config, r: IssueRequest, a: Approval, id: Id, stampedAt: Millis, expiryFrom: Millis): StoredGrant
  {
    var expiresAt: Millis := if expiryFrom + 30_000 <= 0xFFFF_FFFF_FFFF_FFFF then expiryFrom + 30_000 else 0xFFFF_FFFF_FFFF_FFFF;
    StoredGrant(r.hostTurnId, ProcessGrant(c.sessionId, id, a.confirmationId, r.binding, r.revision, stampedAt, expiresAt, true, false))
  }

  /** Session, turn, process and revision of an issue request stand. */
  predicate IssueStands(s: State, r: IssueRequest, reachable: bool) {
    LiveCall(s.authority, r.hostTurnId, r.binding) && Authorized(s, r.binding, reachable, r.revision)
  }

  /** There is room in the ledger and an approval under the call's key. */
  predicate IssueFinds(s: State, r: IssueRequest, checkedAt: Millis) {
    |Unexpired(s.grants, checkedAt)| < 64 && KeyOf(r.hostTurnId, r.binding) in s.approvals
  }

  /** The answer to an issue request of this session. */
  function IssueAnswer(s: State, r: IssueRequest, id: Id, checkedAt: Millis, stampedAt: Millis, expiryFrom: Millis, reachable: bool): Event
  {
    if !LiveCall(s.authority, r.hostTurnId, r.binding) then GrantDenied(TurnNotActive)
    else if !ExactProcess(s.config, r.binding) then GrantDenied(BindingMismatch)
    else if !reachable || !s.authorization.enabled then GrantDenied(CapabilityDenied)
    else if s.authorization.revision != r.revision then GrantDenied(StaleAuthorizationRevision)
    else if !IssueFinds(s, r, checkedAt) then GrantDenied(AuthorityDenied)
    else if !Backing(s.approvals[KeyOf(r.hostTurnId, r.binding)], r, checkedAt) then GrantDenied(StaleAuthorizationRevision)
    else GrantIssued(Minted(s.config, r, s.approvals[KeyOf(r.hostTurnId, r.binding)], id, stampedAt, expiryFrom), checkedAt)
  }

  lemma IssueAnswered(s: State, r: IssueRequest, id: Id, checkedAt: Millis, stampedAt: Millis, expiryFrom: Millis, reachable: bool)
    requires r.sessionId == s.config.sessionId
    ensures var v := IssueDecision(s, r, checkedAt, reachable);
            var answer := IssueAnswer(s, r, id, checkedAt, stampedAt, expiryFrom, reachable);
            && !v.IssueMalformed? && IssueReply(s.config, r, v, id, checkedAt, stampedAt, expiryFrom) == answer
            && (v.Issue? <==> answer.GrantIssued?)
            && (v.Reaps() <==> IssueStands(s, r, reachable))
            && (v.Spends() <==> IssueStands(s, r, reachable) && IssueFinds(s, r, checkedAt))
            && (v.Issue? ==> NewGrant(s.config, r, v.approval, id, stampedAt, expiryFrom) == answer.grant)
            && (answer.GrantIssued? ==> IssueStands(s, r, reachable) && IssueFinds(s, r, checkedAt) && answer.grant.grant.grantId == id)
  {
    hide ValidBinding, ExactProcess, Live, Unexpired, ApprovalKey, KeyOf;
    SameLedger(s.grants, checkedAt);
    SameKey(r.hostTurnId, r.binding);
    SameProcess(s.config, r.binding);
  }

  /** A standing request reaps the ledger, spends the approval it finds, and stores the grant it mints. */
  lemma {:induction false} IssueEffect(s: State, r: IssueRequest, id: Id, checkedAt: Millis, stampedAt: Millis, expiryFrom: Millis,
                                   reachable: bool, sent: bool)
    requires MayFrame(s, IssueFrame(r, id, checkedAt, stampedAt, expiryFrom, reachable, sent))
    ensures var t := Next(s, OnFrame(IssueFrame(r, id, checkedAt, stampedAt, expiryFrom, reachable, sent)));
            var here := r.sessionId == s.config.sessionId;
            var answer := IssueAnswer(s, r, id, checkedAt, stampedAt, expiryFrom, reachable);
            var stands := here && IssueStands(s, r, reachable);
            var live := if stands then Unexpired(s.grants, checkedAt) else s.grants;
            var mints := here && answer.GrantIssued?;
            && t == s.(now := expiryFrom, grants := t.grants, approvals := t.approvals, usedIds := t.usedIds, trace := t.trace,
                       reading := here && sent)
            && t.grants == (if mints then live[id := answer.grant] else live)
            && t.approvals == (if stands && IssueFinds(s, r, checkedAt) then s.approvals - {KeyOf(r.hostTurnId, r.binding)} else s.approvals)
            && t.usedIds == (if mints then s.usedIds + {id} else s.usedIds)
            && t.trace == (if here && sent then s.trace + [answer] else s.trace)
  {
    hide IssueReply, IssueAnswer, IssueStands, IssueFinds, NewGrant, Live, Unexpired, ApprovalKey, KeyOf;
    SameLedger(s.grants, checkedAt);
    SameKey(r.hostTurnId, r.binding);
    if r.sessionId == s.config.sessionId {
      hide IssueDecision;
      IssueAnswered(s, r, id, checkedAt, stampedAt, expiryFrom, reachable);
    }
  }

  lemma SameLedger(grants: map<Id, StoredGrant>, now: Millis)
    ensures Live(grants, now) == Unexpired(grants, now)
  {
  }

  lemma SameKey(hostTurnId: Id, b: ProcessBinding)
    ensures ApprovalKey(hostTurnId, b) == KeyOf(hostTurnId, b)
  {
  }

  /** The stored grant a use presents, unused, unexpired and under the present revision. */
  predicate UseMatches(s: State, r: RevalidateRequest, at: Millis) {
    var id := r.grant.grantId;
    && id in s.grants && s.grants[id] == StoredGrant(r.hostTurnId, r.grant) && r.grant.binding == r.binding
    && r.grant.singleUse && !r.grant.used && r.grant.revision == s.authorization.revision && at < r.grant.expiresAt
  }

  /** The answer to a use of this session. */
  function UseAnswer(s: State, r: RevalidateRequest, at: Millis, reachable: bool): Event
  {
    if !LiveCall(s.authority, r.hostTurnId, r.binding) then RevalidationDenied(TurnNotActive)
    else if !ExactProcess(s.config, r.binding) then RevalidationDenied(BindingMismatch)
    else if !reachable || !s.authorization.enabled then RevalidationDenied(CapabilityDenied)
    else if !UseMatches(s, r, at) then RevalidationDenied(AuthorityDenied)
    else GrantRevalidated(s.grants[r.grant.grantId], at)
  }

  lemma UseAnswered(s: State, r: RevalidateRequest, at: Millis, reachable: bool)
    requires r.sessionId == s.config.sessionId && r.grant.sessionId == s.config.sessionId
    ensures var v := RevalidateVerdict(s, r, at, reachable);
            && !v.Malformed? && RevalidateReply(v, at) == UseAnswer(s, r, at, reachable)
            && (v.Ok? <==> UseAnswer(s, r, at, reachable).GrantRevalidated?)
  {
    hide ValidBinding, ExactProcess;
    SameProcess(s.config, r.binding);
  }

  /** An allowed use consumes its grant, and nothing else does anything to the ledgers. */
  lemma {:induction false} UseEffect(s: State, r: RevalidateRequest, at: Millis, reachable: bool, sent: bool)
    requires MayFrame(s, Revalidate(r, at, reachable, sent))
    ensures var t := Next(s, OnFrame(Revalidate(r, at, reachable, sent)));
            var here := r.sessionId == s.config.sessionId && r.grant.sessionId == s.config.sessionId;
            var answer := UseAnswer(s, r, at, reachable);
            && t == s.(now := at, grants := t.grants, trace := t.trace, reading := here && sent)
            && t.grants == (if here && answer.GrantRevalidated? then s.grants - {r.grant.grantId} else s.grants)
            && t.trace == (if here && sent then s.trace + [answer] else s.trace)
  {
    hide RevalidateReply, UseAnswer;
    if r.sessionId == s.config.sessionId && r.grant.sessionId == s.config.sessionId {
      hide RevalidateVerdict;
      UseAnswered(s, r, at, reachable);
    }
  }

  lemma {:induction false} CredentialArrivalEffect(s: State, r: CredentialRequest, sent: bool)
    requires MayFrame(s, Credential(r, sent))
    ensures var t := Next(s, OnFrame(Credential(r, sent)));
            if s.closed || r.sessionId != s.config.sessionId then t == Wrote(s, CredentialDenied(TurnNotActive), sent)
            else t == s.(waiting := Some(AtCredential(r)))
  {
  }

  function CredentialAnswer(s: State, r: CredentialRequest, stored: bool): Event
  {
    if !LiveTurn(s.authority, r.turnId) || s.authority.turn.binding != r.binding then CredentialDenied(TurnNotActive)
    else if s.provider.None? then CredentialDenied(CredentialMissing)
    else if s.provider.value != s.authority.turn.provider then CredentialDenied(ProviderProfileChanged)
    else if r.binding != ProviderBinding(s.config.sessionId, r.turnId, s.provider.value)
            || s.provider.value.purpose != "chat" || s.provider.value.kind != "openai_compatible"
    then CredentialDenied(ProviderBindingMismatch)
    else if !stored then CredentialDenied(CredentialMissing)
    else CredentialReleased(r.turnId)
  }

  lemma CredentialAnswered(s: State, r: CredentialRequest, stored: bool)
    ensures CredentialReply(r, CredentialVerdict(s, r, stored)) == CredentialAnswer(s, r, stored)
  {
  }

  /** The credential leaves the Host exactly for the active turn's own binding to the provider that is
      still configured, with a stored secret and a frame that can be written. */
  lemma {:induction false} CredentialEffect(s: State, stored: bool, sent: bool)
    requires MayTick(s, CredentialTick(stored, sent))
    ensures Next(s, OnTick(CredentialTick(stored, sent)))
            == Wrote(s.(waiting := None), CredentialAnswer(s, s.waiting.value.credential, stored), sent)
  {
    hide CredentialVerdict, CredentialReply, CredentialAnswer;
    CredentialAnswered(s, s.waiting.value.credential, stored);
  }

  // ---- Reports about turns -----------------------------------------------------------------------

  /** Whether a report about a turn is accepted, and whether it ends the turn. */
  predicate Accepts(a: Authority, turnId: Id, phase: Phase) {
    || LiveTurn(a, turnId)
    || (a.Cancelling? && a.turn.turnId == turnId && (phase == Cancelled || phase == TimedOut))
  }

  predicate Ends(a: Authority, turnId: Id, phase: Phase) {
    Accepts(a, turnId, phase) && (phase == Completed || phase == Failed || phase == Cancelled || phase == TimedOut)
  }

  lemma {:induction false} ReportEffect(s: State, session: Id, turnId: Id, phase: Phase)
    requires MayFrame(s, TurnState(session, turnId, phase))
    ensures var t := Next(s, OnFrame(TurnState(session, turnId, phase)));
            if session != s.config.sessionId then t == s.(reading := false)
            else t == if Ends(s.authority, turnId, phase) then Ended(s, turnId, phase) else s
  {
    hide EndTurn, Ended;
    TurnIsEnded(s, turnId, phase);
    EndingKeeps(s, turnId, phase);
  }

  lemma EndingKeeps(s: State, turnId: Id, phase: Phase)
    ensures var t := Ended(s, turnId, phase); t.reading == s.reading && t.text == s.text && t.error == s.error
  {
  }

  lemma {:induction false} CompletionEffect(s: State, session: Id, turnId: Id, message: string)
    requires MayFrame(s, TurnCompleted(session, turnId, message))
    ensures var t := Next(s, OnFrame(TurnCompleted(session, turnId, message)));
            if session != s.config.sessionId then t == s.(reading := false)
            else if LiveTurn(s.authority, turnId) then t == Ended(s, turnId, Completed).(text := Some(message), error := None)
            else t == s
  {
    hide EndTurn, Ended;
    TurnIsEnded(s, turnId, Completed);
    EndingKeeps(s, turnId, Completed);
  }

  lemma {:induction false} FailureEffect(s: State, session: Id, turnId: Id, phase: Phase, code: string)
    requires MayFrame(s, TurnFailed(session, turnId, phase, code))
    ensures var t := Next(s, OnFrame(TurnFailed(session, turnId, phase, code)));
            if session != s.config.sessionId || !(phase == Failed || phase == Cancelled || phase == TimedOut) then t == s.(reading := false)
            else if Accepts(s.authority, turnId, phase) then t == Ended(s, turnId, phase).(error := Some(code))
            else t == s
  {
    hide EndTurn, Ended;
    TurnIsEnded(s, turnId, phase);
    EndingKeeps(s, turnId, phase);
  }

  // ---- Commands ----------------------------------------------------------------------------------

  lemma {:induction false} StartEffect(s: State, turnId: Id, admitted: bool)
    requires MayAct(s, StartTurnAct(turnId, admitted))
    ensures var t := Next(s, OnAct(StartTurnAct(turnId, admitted)));
            if !s.closed && s.authority == Idle && admitted && s.config.provider.Some? && s.provider == s.config.provider then
              var provider := s.config.provider.value;
              t == s.(authority := Active(Turn(turnId, provider, ProviderBinding(s.config.sessionId, turnId, provider), None)),
                      text := None, error := None, command := StartSending(turnId), usedIds := s.usedIds + {turnId},
                      trace := s.trace + [TurnBegun(turnId)])
            else t == s
  {
  }

  /** A turn whose start could not be announced fails, whether active or already cancelling. */
  lemma {:induction false} AnnounceEffect(s: State, sent: bool)
    requires MayAct(s, StartSentAct(sent))
    ensures var t := Next(s, OnAct(StartSentAct(sent)));
            var turnId := s.command.turnId;
            var held := (s.authority.Active? || s.authority.Cancelling?) && s.authority.turn.turnId == turnId;
            t == (if !sent && held then Ended(s, turnId, Failed) else s).(command := NoCommand)
  {
    hide EndTurn, Ended;
    TurnIsEnded(s, s.command.turnId, Failed);
  }

  lemma {:induction false} CancelEffect(s: State)
    requires MayAct(s, BeginCancellationAct)
    ensures var t := Next(s, OnAct(BeginCancellationAct));
            match s.authority
            case Active(turn) =>
              t == WithoutTurn(s, turn.turnId).(authority := Authority.Cancelling(turn), command := CancelTail,
                                                trace := s.trace + [CancelBegun(turn.turnId)])
            case Cancelling(turn) => t == WithoutTurn(s, turn.turnId).(command := CancelTail)
            case _ => t == s.(command := CancelTail)
  {
    hide RetireEvidence, WithoutTurn;
    var turnId := if s.authority.Active? || s.authority.Cancelling? then s.authority.turn.turnId else s.config.sessionId;
    TurnIsRetired(s, turnId);
    RetiringKeeps(s, turnId);
  }

  /** The answer to the confirmation a decider holds. */
  function DecisionAnswer(s: State, p: Pending, d: Decision, id: Id, at: Millis, reachable: bool, sent: bool): Event
  {
    if !LiveTurn(s.authority, p.hostTurnId) then Replied(p, Cancel, None, sent, at)
    else if p.expiresAt <= at then Replied(p, Deny, None, sent, at)
    else if !d.Confirm? then Replied(p, d, None, sent, at)
    else if !(ExactProcess(s.config, p.binding) && reachable && s.authorization.enabled) then Replied(p, Deny, None, sent, at)
    else Replied(p, Confirm, Some(Approval(p.hostTurnId, p.binding, s.authorization.revision, id, p.expiresAt)), sent, at)
  }

  lemma DecisionAnswered(s: State, p: Pending, d: Decision, id: Id, at: Millis, reachable: bool, sent: bool)
    ensures var v := DecideOutcome(s, p, d, at, reachable);
            var answer := DecisionAnswer(s, p, d, id, at, reachable, sent);
            && DecideReply(p, v, id, sent, at) == answer && answer.delivered == sent
            && (v.Approve? <==> answer.decision.Confirm? && answer.approval.Some?)
            && (v.Approve? ==> answer.approval.value == NewApproval(p, v.revision, id))
  {
    hide ValidBinding, ExactProcess;
    SameProcess(s.config, p.binding);
  }

  /** A Confirm that was written leaves its approval under the call's key; one that was not leaves none. */
  lemma {:induction false} DecideEffect(s: State, id: Id, at: Millis, reachable: bool, sent: bool)
    requires MayAct(s, DecideAct(id, at, reachable, sent))
    ensures var t := Next(s, OnAct(DecideAct(id, at, reachable, sent)));
            var p := s.command.pending;
            var key, answer := KeyOf(p.hostTurnId, p.binding), DecisionAnswer(s, p, s.command.decision, id, at, reachable, sent);
            && t == s.(now := at, command := NoCommand, approvals := t.approvals, usedIds := t.usedIds, trace := s.trace + [answer])
            && (answer.Replied? && answer.approval.Some? ==>
                  && t.approvals == (if sent then s.approvals[key := answer.approval.value] else s.approvals - {key})
                  && t.usedIds == s.usedIds + {id})
            && (answer.Replied? && answer.approval.None? ==> t.approvals == s.approvals && t.usedIds == s.usedIds)
  {
    hide DecideOutcome, DecideReply, DecisionAnswer, NewApproval, ApprovalKey, KeyOf;
    var p := s.command.pending;
    SameKey(p.hostTurnId, p.binding);
    DecisionAnswered(s, p, s.command.decision, id, at, reachable, sent);
    DecisionAnswersBoth(s, p, s.command.decision, id, at, reachable, sent);
  }

  /** Only a Confirm carries an approval. */
  lemma DecisionAnswersBoth(s: State, p: Pending, d: Decision, id: Id, at: Millis, reachable: bool, sent: bool)
    ensures var answer := DecisionAnswer(s, p, d, id, at, reachable, sent);
            answer.Replied? && (answer.approval.Some? <==> answer.decision.Confirm?)
  {
    hide ExactProcess;
  }

  function Dropped(timer: Option<Ticket>, c: Config, p: Pending): Option<Ticket>
  {
    if timer == Some(Ticket(c.sessionId, p.pendingId, p.requestId, p.binding, p.expiresAt)) then None else timer
  }

  /** What the rest of the commands do. */
  lemma {:induction false} CommandEffect(s: State, a: Act)
    requires MayAct(s, a)
    ensures var t := Next(s, OnAct(a));
            match a
            case CancelTakeAnyAct(id, at) =>
              var d := if s.pending[id].expiresAt <= at then Deny else Cancel;
              t == s.(now := at, pending := s.pending - {id}, owed := s.owed[id := Owed(s.pending[id], d, false)])
            case CancelDoneAct => t == s.(command := NoCommand)
            case TakePendingAct(id, d) => t == s.(pending := s.pending - {id}, command := Command.Deciding(s.pending[id], d, false))
            case ClearTakenAct =>
              t == s.(timer := Dropped(s.timer, s.config, s.command.pending),
                      command := Command.Deciding(s.command.pending, s.command.decision, true))
            case StopAct => t == s.(stopped := true)
            case _ => true
  {
    hide StartTurn, StartSent, BeginCancellation, DecidePending, Without, Owing;
    match a
    case CancelTakeAnyAct(id, at) => TakingOne(s.pending, s.owed, id, if s.pending[id].expiresAt <= at then Deny else Cancel, false);
    case TakePendingAct(id, _) => TakingOne(s.pending, s.owed, id, Deny, false);
    case _ =>
  }

  lemma TakingOne(pending: map<Id, Pending>, owed: map<Id, Owed>, id: Id, d: Decision, cleared: bool)
    requires id in pending
    ensures Without(pending, {id}) == pending - {id}
    ensures owed + Owing(pending, {id}, d, cleared) == owed[id := Owed(pending[id], d, cleared)]
  {
  }

  // ---- Timer, worker, answers --------------------------------------------------------------------

  function StillPending(pending: map<Id, Pending>, at: Millis): map<Id, Pending>
  {
    map id | id in pending && at < pending[id].expiresAt :: pending[id]
  }

  function OverdueOf(pending: map<Id, Pending>, at: Millis): map<Id, Owed>
  {
    map id | id in pending && pending[id].expiresAt <= at :: Owed(pending[id], Deny, false)
  }

  lemma ExpiredLeave(pending: map<Id, Pending>, at: Millis)
    ensures Without(pending, Expired(pending, at)) == StillPending(pending, at)
    ensures Owing(pending, Expired(pending, at), Deny, false) == OverdueOf(pending, at)
  {
  }

  /** What has passed its deadline leaves the slot and is owed Deny. */
  lemma {:induction false} ExpiryEffect(s: State, at: Millis)
    requires MayTick(s, ExpirePass(at))
    ensures Next(s, OnTick(ExpirePass(at)))
            == s.(now := at, pending := StillPending(s.pending, at), owed := s.owed + OverdueOf(s.pending, at))
  {
    hide Without, Owing, Expired, StillPending, OverdueOf;
    ExpiredLeave(s.pending, at);
  }

  /** The stored action is the one the ticket was made for, and its deadline has passed. */
  predicate NamedAndDue(p: Pending, t: Ticket, now: Millis) {
    && p.pendingId == t.pendingId && p.requestId == t.requestId && p.binding == t.binding
    && p.expiresAt == t.expiresAt && p.expiresAt <= now
  }

  function NotNamed(pending: map<Id, Pending>, t: Ticket, now: Millis): map<Id, Pending>
  {
    map id | id in pending && !NamedAndDue(pending[id], t, now) :: pending[id]
  }

  function NamedOf(pending: map<Id, Pending>, t: Ticket, now: Millis): map<Id, Owed>
  {
    map id | id in pending && NamedAndDue(pending[id], t, now) :: Owed(pending[id], Deny, true)
  }

  lemma NamedLeave(pending: map<Id, Pending>, t: Ticket, now: Millis)
    ensures Without(pending, Matching(pending, t, now)) == NotNamed(pending, t, now)
    ensures Owing(pending, Matching(pending, t, now), Deny, true) == NamedOf(pending, t, now)
  {
  }

  /** The worker of an open session removes the due action its ticket names, and owes it Deny. */
  lemma {:induction false} FireEffect(s: State)
    requires MayTick(s, WorkerFireTick)
    ensures var t, w := Next(s, OnTick(WorkerFireTick)), s.worker.value;
            var fires := !s.closed && w.sessionId == s.config.sessionId;
            t == s.(worker := None, pending := if fires then NotNamed(s.pending, w, s.now) else s.pending,
                    owed := if fires then s.owed + NamedOf(s.pending, w, s.now) else s.owed)
  {
    hide Without, Owing, Matching, NotNamed, NamedOf;
    NamedLeave(s.pending, s.worker.value, s.now);
  }

  /** The rest of what the timer, its worker and the answering threads do. */
  lemma {:induction false} TickEffect(s: State, t: Tick)
    requires MayTick(s, t)
    ensures var u := Next(s, OnTick(t));
            match t
            case ScheduleTick => u == s.(timer := if s.timerStopped then s.timer else s.scheduling, scheduling := None)
            case WorkerTake => u == s.(timer := None, worker := s.timer)
            case ClearOwed(id) =>
              u == s.(timer := Dropped(s.timer, s.config, s.owed[id].pending),
                      owed := s.owed[id := Owed(s.owed[id].pending, s.owed[id].decision, true)])
            case ReplyOwedTick(id, sent) =>
              u == s.(owed := s.owed - {id}, trace := s.trace + [Replied(s.owed[id].pending, s.owed[id].decision, None, sent, s.now)])
            case _ => true
  {
    hide AdmitConfirmation, AnswerCredential, TakeOut, WorkerFire;
  }

  // ---- Retirement and environment ----------------------------------------------------------------

  function DeniedOf(pending: map<Id, Pending>): map<Id, Owed>
  {
    map id | id in pending :: Owed(pending[id], Deny, true)
  }

  lemma AllLeave(pending: map<Id, Pending>)
    ensures Without(pending, pending.Keys) == map[] && Owing(pending, pending.Keys, Deny, true) == DeniedOf(pending)
  {
  }

  lemma {:induction false} RetireEffect(s: State, who: Caller, r: Retirement)
    requires MayPiece(s, who, r)
    ensures var t := Next(s, OnRetire(who, r));
            var u := s.(stopDone := if who.ByStop? then s.stopDone + 1 else s.stopDone,
                        readerDone := if who.ByReader? then s.readerDone + 1 else s.readerDone);
            match r
            case Close => t == u.(closed := true)
            case Drain => t == u.(pending := map[], owed := s.owed + DeniedOf(s.pending))
            case DropApprovals => t == u.(approvals := map[])
            case DropGrants => t == u.(grants := map[])
            case StopTimer => t == u.(timer := None, timerStopped := true)
            case Force =>
              match s.authority
              case Idle => t == u
              case Active(turn) => t == u.(authority := Terminal(turn.turnId, Cancelled), trace := s.trace + [ForcedTerminal(turn.turnId)])
              case Cancelling(turn) => t == u.(authority := Terminal(turn.turnId, Cancelled), trace := s.trace + [ForcedTerminal(turn.turnId)])
              case Terminal(turnId, _) => t == u.(authority := Terminal(turnId, Cancelled))
  {
    hide Without, Owing, DeniedOf;
    if r.Drain? { AllLeave(s.pending); }
  }

  lemma {:induction false} ChangeEffect(s: State, c: Change)
    requires MayChange(s, c)
    ensures var t := Next(s, OnChange(c));
            match c
            case ReaderEnds => t == s.(reading := false)
            case Clock(at) => t == s.(now := at)
            case Authorize(a) => t == s.(authorization := a, trace := s.trace + [AuthorizationChanged(a.revision)])
            case SetProvider(p) => t == s.(provider := p)
  {
  }
}
