/** The Host session as a labelled transition system.

    Every critical section of a handler under the turn-authority lock is one step.  Testing
    `closed` before that lock, scheduling a ticket, the worker's take and fire, the decider's
    take, the timer-clear and the answer that follow a removal, and each piece of `retire` are
    steps of their own, so they interleave with everything else.
    A label that is not enabled leaves the state alone, so every sequence of labels is a run. */
module HostSteps {
  import opened Common
  import opened HostTypes

  // ---- Guards ---------------------------------------------------------------------------

  function EffectiveExpiry(now: Millis, vitaExpiry: Millis): (r: Option<Millis>)
  {
    var deadline := SaturatingAdd(now, HOST_CONFIRMATION_TTL_MS);
    var effective := if vitaExpiry < deadline then vitaExpiry else deadline;
    if effective > now then Some(effective) else None
  }

  predicate LowerHex(c: char) {
    '0' <= c <= '9' || 'a' <= c <= 'f'
  }

  predicate ValidBinding(c: Config, b: ProcessBinding) {
    && b.sessionId == c.sessionId
    && b.lifeId == c.lifeId
    && b.taskId == c.taskId
    && b.capabilityId == CAPABILITY_ID
    && b.programId == PROFILE_ID
    && b.profileId == PROFILE_ID
    && b.workspaceIdentity == c.workspaceIdentity
    && |b.gitFenceHash| == 64
    && forall i :: 0 <= i < |b.gitFenceHash| ==> LowerHex(b.gitFenceHash[i])
  }

  predicate BindingMatches(a: Authority, hostTurnId: Id, b: ProcessBinding) {
    a.Active? && a.turn.turnId == hostTurnId && a.turn.codexTurn == Some(b.turnId)
  }

  function ApprovalKey(hostTurnId: Id, b: ProcessBinding): string {
    hostTurnId + ":" + (b.toolCallId + ":" + b.turnId)
  }

  function TicketFor(c: Config, p: Pending): Ticket {
    Ticket(c.sessionId, p.pendingId, p.requestId, p.binding, p.expiresAt)
  }

  /** One read of the durable authorization; `reachable` is false when the evaluator fails. */
  function WorkspaceRevision(s: State, b: ProcessBinding, reachable: bool): Checked<int>
  {
    if !ValidBinding(s.config, b) then Err(BindingMismatch)
    else if !reachable || !s.authorization.enabled then Err(CapabilityDenied)
    else Ok(s.authorization.revision)
  }

  // ---- Building blocks --------------------------------------------------------------------

  /** An outbound frame; when the write fails the handler fails and the reader loop ends. */
  function Emit(s: State, e: Event, sent: bool): State
  {
    s.(trace := if sent then s.trace + [e] else s.trace, reading := s.reading && sent)
  }

  function ReaderFails(s: State): State
  {
    s.(reading := false)
  }

  function Without<V>(m: map<Id, V>, gone: set<Id>): map<Id, V>
  {
    map id | id in m && id !in gone :: m[id]
  }

  function Owing(pending: map<Id, Pending>, gone: set<Id>, decision: Decision, cleared: bool): map<Id, Owed>
  {
    map id | id in pending && id in gone :: Owed(pending[id], decision, cleared)
  }

  /** Moves the pending actions selected by `gone` out of the slot; each is now owed `decision`. */
  function TakeOut(s: State, gone: set<Id>, decision: Decision, cleared: bool): State
  {
    s.(pending := Without(s.pending, gone),
       owed := s.owed + Owing(s.pending, gone, decision, cleared))
  }

  function OfTurn(pending: map<Id, Pending>, turnId: Id): set<Id>
  {
    set id | id in pending && pending[id].hostTurnId == turnId
  }

  function ApprovalsNotOf(approvals: map<string, Approval>, turnId: Id): map<string, Approval>
  {
    map k | k in approvals && approvals[k].hostTurnId != turnId :: approvals[k]
  }

  function GrantsNotOf(grants: map<Id, StoredGrant>, turnId: Id): map<Id, StoredGrant>
  {
    map g | g in grants && grants[g].hostTurnId != turnId :: grants[g]
  }

  /** Retires all evidence of a turn, if `retires`. */
  function RetireEvidence(s: State, retires: bool, turnId: Id): State
  {
    var gone := OfTurn(s.pending, turnId);
    s.(pending := if retires then Without(s.pending, gone) else s.pending,
       owed := if retires then s.owed + Owing(s.pending, gone, Cancel, false) else s.owed,
       approvals := if retires then ApprovalsNotOf(s.approvals, turnId) else s.approvals,
       grants := if retires then GrantsNotOf(s.grants, turnId) else s.grants)
  }

  /** Ends the turn, if `ends`: its evidence goes in the same critical section. */
  function EndTurn(s: State, ends: bool, turnId: Id, phase: Phase): State
  {
    RetireEvidence(s, ends, turnId).(
      authority := if ends then Idle else s.authority,
      trace := if ends then s.trace + [TurnEnded(turnId, phase)] else s.trace)
  }

  predicate TurnIs(a: Authority, turnId: Id) {
    (a.Active? || a.Cancelling?) && a.turn.turnId == turnId
  }

  function Terminalize(s: State, turnId: Id, phase: Phase): State
  {
    EndTurn(s, TurnIs(s.authority, turnId), turnId, phase)
  }

  predicate AcceptsPhase(a: Authority, turnId: Id, phase: Phase) {
    || (a.Active? && a.turn.turnId == turnId)
    || (a.Cancelling? && a.turn.turnId == turnId && (phase.Cancelled? || phase.TimedOut?))
  }

  function AcceptTurnState(s: State, turnId: Id, phase: Phase): State
  {
    EndTurn(s, AcceptsPhase(s.authority, turnId, phase) && TerminalPhase(phase), turnId, phase)
  }

  /** `clear` drops exactly its own ticket. */
  function TimerWithout(timer: Option<Ticket>, t: Ticket): Option<Ticket>
  {
    if timer == Some(t) then None else timer
  }

  function Live(grants: map<Id, StoredGrant>, now: Millis): map<Id, StoredGrant>
  {
    map g | g in grants && !grants[g].grant.used && grants[g].grant.expiresAt > now :: grants[g]
  }

  // ---- Reader handlers ----------------------------------------------------------------------

  /** The answer to an authority request: the revision it may rest on, or a refusal.
      `Malformed` verdicts end the reader loop without an answer. */
  function EvaluateVerdict(s: State, r: EvaluateRequest, reachable: bool): (v: Checked<int>)
    ensures v.Ok? ==> s.authority.Active? && s.authority.turn.turnId == r.hostTurnId
    ensures v.Ok? && s.authority.turn.codexTurn.Some? ==> s.authority.turn.codexTurn.value == r.binding.turnId
    ensures v.Ok? ==> s.authorization.enabled && v.value == s.authorization.revision
  {
    if r.sessionId != s.config.sessionId then Malformed
    else if !(s.authority.Active? && s.authority.turn.turnId == r.hostTurnId) then Err(TurnNotActive)
    else if s.authority.turn.codexTurn.Some? && s.authority.turn.codexTurn != Some(r.binding.turnId) then
      Err(CodexTurnMismatch)
    else WorkspaceRevision(s, r.binding, reachable)
  }

  function LearnCodexTurn(a: Authority, codexTurn: Id): Authority
    requires a.Active?
  {
    Active(Turn(a.turn.turnId, a.turn.provider, a.turn.binding, Some(codexTurn)))
  }

  function EvaluateReply(r: EvaluateRequest, v: Checked<int>): Event
  {
    match v
    case Ok(revision) => ScopeAllowed(r.hostTurnId, r.binding, revision)
    case Err(code) => ScopeDenied(code)
    case Malformed => ScopeDenied(AuthorityDenied)
  }

  function AuthorityEvaluate(s: State, r: EvaluateRequest, reachable: bool, sent: bool): State
  {
    var v := EvaluateVerdict(s, r, reachable);
    Emit(s.(authority := if v.Ok? then LearnCodexTurn(s.authority, r.binding.turnId) else s.authority),
         EvaluateReply(r, v), sent && !v.Malformed?)
  }

  predicate ConfirmationIsExact(s: State, r: ConfirmationRequest) {
    && !s.closed
    && r.sessionId == s.config.sessionId
    && r.lifeId == s.config.lifeId
    && r.taskId == s.config.taskId
    && r.capabilityId == CAPABILITY_ID
    && ValidBinding(s.config, r.binding)
  }

  /** The part of admission before the authority lock: `closed`, exactness and the deadline. */
  datatype Arrival = Inexact | Overdue | Waits(expiresAt: Millis)

  function ArrivalVerdict(s: State, r: ConfirmationRequest, at: Millis): (v: Arrival)
    ensures v.Waits? ==> at < v.expiresAt <= r.expiresAt && v.expiresAt <= at + HOST_CONFIRMATION_TTL_MS
  {
    if !ConfirmationIsExact(s, r) then Inexact
    else match EffectiveExpiry(at, r.expiresAt)
      case None => Overdue
      case Some(expiry) => Waits(expiry)
  }

  function ConfirmationRequired(s: State, r: ConfirmationRequest, at: Millis, sent: bool): State
  {
    var v := ArrivalVerdict(s, r, at);
    s.(now := at,
       waiting := if v.Waits? then Some(AtConfirmation(r, at, v.expiresAt)) else s.waiting,
       trace := if v.Overdue? && sent then s.trace + [RefusedConfirmation(r.requestId, Deny)] else s.trace,
       reading := s.reading && (v.Waits? || (v.Overdue? && sent)))
  }

  /** The part under the authority lock, which does not test `closed` again. */
  datatype Admission = Refuse | Full | Admit

  function AdmissionVerdict(s: State, r: ConfirmationRequest): (v: Admission)
    ensures v.Admit? ==> BindingMatches(s.authority, r.hostTurnId, r.binding) && |s.pending| == 0
  {
    if !BindingMatches(s.authority, r.hostTurnId, r.binding) then Refuse
    else if |s.pending| >= MAX_PENDING then Full
    else Admit
  }

  function AdmittedPending(w: Waiting, pendingId: Id): Pending
    requires w.AtConfirmation?
  {
    Pending(pendingId, w.confirmation.requestId, w.confirmation.hostTurnId, w.confirmation.binding, w.expiresAt)
  }

  function AdmissionReply(w: Waiting, v: Admission, p: Pending): Event
    requires w.AtConfirmation?
  {
    if v.Admit? then Admitted(p, w.at, w.confirmation.expiresAt) else RefusedConfirmation(w.confirmation.requestId, Cancel)
  }

  /** Admission writes no frame; the trace records it as the start of the action's life. */
  function AdmitConfirmation(s: State, pendingId: Id, sent: bool): State
    requires s.waiting.Some? && s.waiting.value.AtConfirmation?
  {
    var v := AdmissionVerdict(s, s.waiting.value.confirmation);
    var p := AdmittedPending(s.waiting.value, pendingId);
    Emit(s.(waiting := None,
            pending := if v.Admit? then s.pending[pendingId := p] else s.pending,
            scheduling := if v.Admit? then Some(TicketFor(s.config, p)) else s.scheduling,
            usedIds := if v.Admit? then s.usedIds + {pendingId} else s.usedIds),
         AdmissionReply(s.waiting.value, v, p), v.Admit? || (v.Refuse? && sent))
  }

  /** A refusal also says how far the handler got: the ledger may already be reaped, and the
      one-shot approval already spent. */
  datatype IssueVerdict =
    | IssueMalformed
    | RefuseIssue(code: Code, reaped: bool, spent: bool)
    | Issue(approval: Approval)
  {
    predicate Reaps() { (RefuseIssue? && reaped) || Issue? }
    predicate Spends() { (RefuseIssue? && spent) || Issue? }
  }

  function IssueDecision(s: State, r: IssueRequest, checkedAt: Millis, reachable: bool): (v: IssueVerdict)
    ensures v.Issue? ==>
              && BindingMatches(s.authority, r.hostTurnId, r.binding)
              && ValidBinding(s.config, r.binding)
              && s.authorization.enabled && s.authorization.revision == r.revision
              && ApprovalKey(r.hostTurnId, r.binding) in s.approvals
              && v.approval == s.approvals[ApprovalKey(r.hostTurnId, r.binding)]
              && v.approval.hostTurnId == r.hostTurnId && v.approval.binding == r.binding
              && v.approval.revision == r.revision && checkedAt < v.approval.expiresAt
              && |Live(s.grants, checkedAt)| < MAX_GRANTS
  {
    if r.sessionId != s.config.sessionId then IssueMalformed
    else if !BindingMatches(s.authority, r.hostTurnId, r.binding) then RefuseIssue(TurnNotActive, false, false)
    else match WorkspaceRevision(s, r.binding, reachable)
      case Malformed => IssueMalformed
      case Err(code) => RefuseIssue(code, false, false)
      case Ok(revision) =>
        var key := ApprovalKey(r.hostTurnId, r.binding);
        if revision != r.revision then RefuseIssue(StaleAuthorizationRevision, false, false)
        else if |Live(s.grants, checkedAt)| >= MAX_GRANTS || key !in s.approvals then
          RefuseIssue(AuthorityDenied, true, false)
        else
          var a := s.approvals[key];
          if || a.hostTurnId != r.hostTurnId || a.binding != r.binding
             || a.revision != r.revision || a.expiresAt <= checkedAt
          then RefuseIssue(StaleAuthorizationRevision, true, true)
          else Issue(a)
  }

  /** The code reads the clock once for the issue stamp and once more for the expiry stamp. */
  function NewGrant(c: Config, r: IssueRequest, a: Approval, grantId: Id, stampedAt: Millis, expiryFrom: Millis): StoredGrant
  {
    StoredGrant(r.hostTurnId,
                ProcessGrant(c.sessionId, grantId, a.confirmationId, r.binding, r.revision,
                             stampedAt, SaturatingAdd(expiryFrom, GRANT_LIFETIME_MS), true, false))
  }

  function IssueReply(c: Config, r: IssueRequest, v: IssueVerdict, grantId: Id, checkedAt: Millis, stampedAt: Millis,
                      expiryFrom: Millis): Event
  {
    match v
    case Issue(a) => GrantIssued(NewGrant(c, r, a, grantId, stampedAt, expiryFrom), checkedAt)
    case RefuseIssue(code, _, _) => GrantDenied(code)
    case IssueMalformed => GrantDenied(AuthorityDenied)
  }

  function IssueGrant(s: State, r: IssueRequest, grantId: Id, checkedAt: Millis, stampedAt: Millis, expiryFrom: Millis,
                      reachable: bool, sent: bool): State
  {
    var v := IssueDecision(s, r, checkedAt, reachable);
    var live := if v.Reaps() then Live(s.grants, checkedAt) else s.grants;
    Emit(s.(
       now := expiryFrom,
       grants := if v.Issue? then live[grantId := NewGrant(s.config, r, v.approval, grantId, stampedAt, expiryFrom)] else live,
       approvals := if v.Spends() then s.approvals - {ApprovalKey(r.hostTurnId, r.binding)} else s.approvals,
       usedIds := if v.Issue? then s.usedIds + {grantId} else s.usedIds),
       IssueReply(s.config, r, v, grantId, checkedAt, stampedAt, expiryFrom), sent && !v.IssueMalformed?)
  }

  /** `consume_active_grant` and the checks before it: the stored grant to spend, or a refusal. */
  function RevalidateVerdict(s: State, r: RevalidateRequest, at: Millis, reachable: bool): (v: Checked<StoredGrant>)
    ensures v.Ok? ==>
              && BindingMatches(s.authority, r.hostTurnId, r.binding)
              && r.grant.grantId in s.grants && s.grants[r.grant.grantId] == v.value
              && v.value == StoredGrant(r.hostTurnId, r.grant)
              && r.grant.binding == r.binding && r.grant.singleUse && !r.grant.used
              && s.authorization.enabled && s.authorization.revision == r.grant.revision
              && at < r.grant.expiresAt
  {
    if r.sessionId != s.config.sessionId || r.grant.sessionId != s.config.sessionId then Malformed
    else if !BindingMatches(s.authority, r.hostTurnId, r.binding) then Err(TurnNotActive)
    else match WorkspaceRevision(s, r.binding, reachable)
      case Malformed => Malformed
      case Err(code) => Err(code)
      case Ok(revision) =>
        if r.grant.grantId !in s.grants then Err(AuthorityDenied)
        else
          var stored := s.grants[r.grant.grantId];
          if || stored.hostTurnId != r.hostTurnId || stored.grant != r.grant || stored.grant.used
             || !stored.grant.singleUse || stored.grant.binding != r.binding
             || stored.grant.revision != revision || stored.grant.expiresAt <= at
          then Err(AuthorityDenied)
          else Ok(stored)
  }

  function RevalidateReply(v: Checked<StoredGrant>, at: Millis): Event
  {
    match v
    case Ok(g) => GrantRevalidated(g, at)
    case Err(code) => RevalidationDenied(code)
    case Malformed => RevalidationDenied(AuthorityDenied)
  }

  function RevalidateGrant(s: State, r: RevalidateRequest, at: Millis, reachable: bool, sent: bool): State
  {
    var v := RevalidateVerdict(s, r, at, reachable);
    Emit(s.(now := at,
            grants := if v.Ok? then s.grants - {r.grant.grantId} else s.grants),
         RevalidateReply(v, at), sent && !v.Malformed?)
  }

  /** A credential request of an open session waits for the authority lock. */
  predicate CredentialArrives(s: State, r: CredentialRequest) {
    !s.closed && r.sessionId == s.config.sessionId
  }

  function CredentialRequired(s: State, r: CredentialRequest, sent: bool): State
  {
    var waits := CredentialArrives(s, r);
    s.(waiting := if waits then Some(AtCredential(r)) else s.waiting,
       trace := if !waits && sent then s.trace + [CredentialDenied(TurnNotActive)] else s.trace,
       reading := s.reading && (waits || sent))
  }

  /** The answer under the authority lock, which does not test `closed` again. */
  function CredentialVerdict(s: State, r: CredentialRequest, secretStored: bool): (v: Checked<Provider>)
    ensures v.Ok? ==>
              && s.authority.Active? && s.authority.turn.turnId == r.turnId
              && s.provider == Some(s.authority.turn.provider)
              && v.value == s.authority.turn.provider
  {
    if !s.authority.Active? || s.authority.turn.turnId != r.turnId || s.authority.turn.binding != r.binding then
      Err(TurnNotActive)
    else if s.provider.None? then Err(CredentialMissing)
    else if s.provider.value != s.authority.turn.provider then Err(ProviderProfileChanged)
    else if || ProviderBinding(s.config.sessionId, r.turnId, s.provider.value) != r.binding
            || r.binding.provider.purpose != "chat"
            || r.binding.provider.kind != "openai_compatible"
    then Err(ProviderBindingMismatch)
    else if !secretStored then Err(CredentialMissing)
    else Ok(s.provider.value)
  }

  function CredentialReply(r: CredentialRequest, v: Checked<Provider>): Event
  {
    match v
    case Ok(_) => CredentialReleased(r.turnId)
    case Err(code) => CredentialDenied(code)
    case Malformed => CredentialDenied(TurnNotActive)
  }

  function AnswerCredential(s: State, secretStored: bool, sent: bool): State
    requires s.waiting.Some? && s.waiting.value.AtCredential?
  {
    var r := s.waiting.value.credential;
    Emit(s.(waiting := None), CredentialReply(r, CredentialVerdict(s, r, secretStored)), sent)
  }

  /** A frame of another session ends the reader loop and touches nothing else. */
  function TurnStateFrame(s: State, sessionId: Id, turnId: Id, phase: Phase): State
  {
    var here := sessionId == s.config.sessionId;
    EndTurn(s, here && AcceptsPhase(s.authority, turnId, phase) && TerminalPhase(phase), turnId, phase).(
      reading := s.reading && here)
  }

  function TurnCompletedFrame(s: State, sessionId: Id, turnId: Id, text: string): State
  {
    var accepted := sessionId == s.config.sessionId && AcceptsPhase(s.authority, turnId, Completed);
    TurnStateFrame(s, sessionId, turnId, Completed).(
      text := if accepted then Some(text) else s.text,
      error := if accepted then None else s.error)
  }

  predicate FailurePhase(phase: Phase) {
    phase.Failed? || phase.Cancelled? || phase.TimedOut?
  }

  /** Frames whose phase is not Failed, Cancelled or TimedOut are malformed. */
  function TurnFailedFrame(s: State, sessionId: Id, turnId: Id, phase: Phase, code: string): State
  {
    var here := sessionId == s.config.sessionId && FailurePhase(phase);
    var accepted := here && AcceptsPhase(s.authority, turnId, phase);
    EndTurn(s, accepted, turnId, phase).(
      reading := s.reading && here,
      error := if accepted then Some(code) else s.error)
  }

  // ---- Coordinator commands -----------------------------------------------------------------

  /** `start_turn`: `admitted` is the advisory Life and capability preflight. */
  predicate Begins(s: State, admitted: bool) {
    !s.closed && s.authority.Idle? && admitted && s.config.provider.Some? && s.provider == s.config.provider
  }

  function NewTurn(c: Config, turnId: Id): Turn
    requires c.provider.Some?
  {
    Turn(turnId, c.provider.value, ProviderBinding(c.sessionId, turnId, c.provider.value), None)
  }

  function StartTurn(s: State, turnId: Id, admitted: bool): State
  {
    var begins := Begins(s, admitted);
    s.(authority := if begins then Active(NewTurn(s.config, turnId)) else s.authority,
       text := if begins then None else s.text,
       error := if begins then None else s.error,
       command := if begins then StartSending(turnId) else s.command,
       usedIds := if begins then s.usedIds + {turnId} else s.usedIds,
       trace := if begins then s.trace + [TurnBegun(turnId)] else s.trace)
  }

  function StartSent(s: State, sent: bool): State
    requires s.command.StartSending?
  {
    EndTurn(s, !sent && TurnIs(s.authority, s.command.turnId), s.command.turnId, Failed).(command := NoCommand)
  }

  function CancelledAuthority(a: Authority): Authority
  {
    if a.Active? then Cancelling(a.turn) else a
  }

  /** The first cancellation of a turn moves it to Cancelling; a repeated one finds it there. */
  function BeginCancellation(s: State): State
  {
    var found := s.authority.Active? || s.authority.Cancelling?;
    RetireEvidence(s, found, if found then s.authority.turn.turnId else s.config.sessionId).(
      authority := CancelledAuthority(s.authority),
      command := CancelTail,
      trace := if s.authority.Active? then s.trace + [CancelBegun(s.authority.turn.turnId)] else s.trace)
  }

  function CancelTakeAny(s: State, id: Id, at: Millis): State
    requires id in s.pending
  {
    TakeOut(s.(now := at), {id}, if s.pending[id].expiresAt <= at then Deny else Cancel, false)
  }

  function TakePending(s: State, id: Id, decision: Decision): State
    requires id in s.pending
  {
    s.(pending := Without(s.pending, {id}),
       command := Deciding(s.pending[id], decision, false))
  }

  /** The final check of a decider that already holds the pending action `p`. */
  datatype DecideVerdict = Answer(decision: Decision) | Approve(revision: int)

  function DecideOutcome(s: State, p: Pending, decision: Decision, at: Millis, reachable: bool): (v: DecideVerdict)
    ensures v.Approve? ==>
              && s.authority.Active? && s.authority.turn.turnId == p.hostTurnId && decision.Confirm?
              && at < p.expiresAt
              && s.authorization.enabled && s.authorization.revision == v.revision
    ensures v.Answer? ==> !v.decision.Confirm?
  {
    if !(s.authority.Active? && s.authority.turn.turnId == p.hostTurnId) then Answer(Cancel)
    else if p.expiresAt <= at then Answer(Deny)
    else if !decision.Confirm? then Answer(decision)
    else match WorkspaceRevision(s, p.binding, reachable)
      case Ok(revision) => Approve(revision)
      case _ => Answer(Deny)
  }

  function NewApproval(p: Pending, revision: int, confirmationId: Id): Approval
  {
    Approval(p.hostTurnId, p.binding, revision, confirmationId, p.expiresAt)
  }

  function ClearTaken(s: State): State
    requires s.command.Deciding?
  {
    s.(timer := TimerWithout(s.timer, TicketFor(s.config, s.command.pending)),
       command := Deciding(s.command.pending, s.command.decision, true))
  }

  function DecideReply(p: Pending, v: DecideVerdict, confirmationId: Id, sent: bool, at: Millis): Event
  {
    match v
    case Answer(decision) => Replied(p, decision, None, sent, at)
    case Approve(revision) => Replied(p, Confirm, Some(NewApproval(p, revision, confirmationId)), sent, at)
  }

  /** A Confirm whose frame cannot be written leaves no approval behind. */
  function DecidePending(s: State, confirmationId: Id, at: Millis, reachable: bool, sent: bool): State
    requires s.command.Deciding?
  {
    var p := s.command.pending;
    var key := ApprovalKey(p.hostTurnId, p.binding);
    var v := DecideOutcome(s, p, s.command.decision, at, reachable);
    s.(now := at, command := NoCommand,
       approvals := if v.Answer? then s.approvals
                    else if sent then s.approvals[key := NewApproval(p, v.revision, confirmationId)]
                    else s.approvals - {key},
       usedIds := if v.Approve? then s.usedIds + {confirmationId} else s.usedIds,
       trace := s.trace + [DecideReply(p, v, confirmationId, sent, at)])
  }

  // ---- Expiry timer -------------------------------------------------------------------------

  function Schedule(s: State): State
    requires s.scheduling.Some?
  {
    s.(timer := if s.timerStopped then s.timer else s.scheduling, scheduling := None)
  }

  predicate TicketMatches(p: Pending, t: Ticket, now: Millis) {
    && p.pendingId == t.pendingId && p.requestId == t.requestId && p.binding == t.binding
    && p.expiresAt == t.expiresAt && p.expiresAt <= now
  }

  function Matching(pending: map<Id, Pending>, t: Ticket, now: Millis): set<Id>
  {
    set id | id in pending && TicketMatches(pending[id], t, now)
  }

  function WorkerFire(s: State): State
    requires s.worker.Some?
  {
    var fires := !s.closed && s.worker.value.sessionId == s.config.sessionId;
    var gone := Matching(s.pending, s.worker.value, s.now);
    s.(worker := None,
       pending := if fires then Without(s.pending, gone) else s.pending,
       owed := if fires then s.owed + Owing(s.pending, gone, Deny, true) else s.owed)
  }

  function Expired(pending: map<Id, Pending>, at: Millis): set<Id>
  {
    set id | id in pending && pending[id].expiresAt <= at
  }

  // ---- Answers and retirement -----------------------------------------------------------------

  function ClearForOwed(s: State, id: Id): State
    requires id in s.owed
  {
    s.(timer := TimerWithout(s.timer, TicketFor(s.config, s.owed[id].pending)),
       owed := s.owed[id := Owed(s.owed[id].pending, s.owed[id].decision, true)])
  }

  function ReplyOwed(s: State, id: Id, delivered: bool): State
    requires id in s.owed
  {
    s.(owed := s.owed - {id},
       trace := s.trace + [Replied(s.owed[id].pending, s.owed[id].decision, None, delivered, s.now)])
  }

  function ForcedAuthority(a: Authority): Authority
  {
    match a
    case Idle => Idle
    case Active(turn) => Terminal(turn.turnId, Cancelled)
    case Cancelling(turn) => Terminal(turn.turnId, Cancelled)
    case Terminal(turnId, _) => Terminal(turnId, Cancelled)
  }

  function ForcedTrace(a: Authority, tr: Trace): Trace
  {
    if a.Active? || a.Cancelling? then tr + [ForcedTerminal(a.turn.turnId)] else tr
  }

  function ForceTerminal(s: State): State
  {
    s.(authority := ForcedAuthority(s.authority), trace := ForcedTrace(s.authority, s.trace))
  }

  // ---- Labels ---------------------------------------------------------------------------------

  /** Frames from the sidecar, handled by the reader thread. */
  datatype Frame =
    | Evaluate(evaluate: EvaluateRequest, reachable: bool, sent: bool)
    | Confirmation(confirmation: ConfirmationRequest, at: Millis, sent: bool)
    | IssueFrame(issue: IssueRequest, freshId: Id, checkedAt: Millis, stampedAt: Millis, expiryFrom: Millis, reachable: bool,
                 sent: bool)
    | Revalidate(revalidate: RevalidateRequest, at: Millis, reachable: bool, sent: bool)
    | Credential(credential: CredentialRequest, sent: bool)
    | TurnState(sessionId: Id, turnId: Id, phase: Phase)
    | TurnCompleted(sessionId: Id, turnId: Id, assistantText: string)
    | TurnFailed(sessionId: Id, turnId: Id, phase: Phase, errorCode: string)

  /** Commands of the user interface; the coordinator lock lets one run at a time. */
  datatype Act =
    | StartTurnAct(freshId: Id, admitted: bool)
    | StartSentAct(sent: bool)
    | BeginCancellationAct
    | CancelTakeAnyAct(id: Id, at: Millis)
    | CancelDoneAct
    | TakePendingAct(id: Id, decision: Decision)
    | ClearTakenAct
    | DecideAct(freshId: Id, at: Millis, reachable: bool, sent: bool)
    | StopAct

  /** What the reader still does with an accepted request, the expiry timer, its worker, and the
      answers owed for removed actions. */
  datatype Tick =
    | AdmitTick(freshId: Id, sent: bool)
    | CredentialTick(secretStored: bool, sent: bool)
    | ScheduleTick
    | ExpirePass(at: Millis)
    | WorkerTake
    | WorkerFireTick
    | ClearOwed(id: Id)
    | ReplyOwedTick(id: Id, sent: bool)

  /** `retire` has two callers: the coordinator once it gave the session up, and the reader thread
      once its loop has ended.  Each performs the pieces in this order; any thread, the other caller
      included, may interleave between them. */
  datatype Caller = ByStop | ByReader

  datatype Retirement =
    | Close
    | Drain
    | DropApprovals
    | DropGrants
    | StopTimer
    | Force

  /** Everything the Host does not control. */
  datatype Change =
    | ReaderEnds
    | Clock(at: Millis)
    | Authorize(authorization: Authorization)
    | SetProvider(provider: Option<Provider>)

  datatype Label =
    | OnFrame(frame: Frame)
    | OnAct(act: Act)
    | OnTick(tick: Tick)
    | OnRetire(caller: Caller, retirement: Retirement)
    | OnChange(change: Change)

  predicate Fresh(s: State, id: Id) {
    id !in s.usedIds
  }

  /** The reader is at the top of its loop. */
  predicate ReaderIsFree(s: State) {
    s.reading && s.waiting.None? && s.scheduling.None?
  }

  predicate FrameEnabled(s: State, f: Frame) {
    && ReaderIsFree(s)
    && match f
       case Confirmation(_, at, _) => s.now <= at
       case IssueFrame(_, id, c, t, e, _, _) => Fresh(s, id) && s.now <= c <= t <= e
       case Revalidate(_, at, _, _) => s.now <= at
       case _ => true
  }

  function FrameStep(s: State, f: Frame): State
  {
    match f
    case Evaluate(r, reachable, sent) => AuthorityEvaluate(s, r, reachable, sent)
    case Confirmation(r, at, sent) => ConfirmationRequired(s, r, at, sent)
    case IssueFrame(r, id, c, t, e, reachable, sent) => IssueGrant(s, r, id, c, t, e, reachable, sent)
    case Revalidate(r, at, reachable, sent) => RevalidateGrant(s, r, at, reachable, sent)
    case Credential(r, sent) => CredentialRequired(s, r, sent)
    case TurnState(session, t, phase) => TurnStateFrame(s, session, t, phase)
    case TurnCompleted(session, t, text) => TurnCompletedFrame(s, session, t, text)
    case TurnFailed(session, t, phase, code) => TurnFailedFrame(s, session, t, phase, code)
  }

  /** The coordinator is free and still has the session. */
  predicate CoordinatorIsFree(s: State) {
    s.command.NoCommand? && !s.stopped
  }

  predicate ActEnabled(s: State, a: Act) {
    match a
    case StartTurnAct(id, _) => CoordinatorIsFree(s) && Fresh(s, id)
    case StartSentAct(_) => s.command.StartSending?
    case BeginCancellationAct => CoordinatorIsFree(s)
    case CancelTakeAnyAct(id, at) => s.command.CancelTail? && id in s.pending && s.now <= at
    case CancelDoneAct => s.command.CancelTail?
    case TakePendingAct(id, d) => CoordinatorIsFree(s) && id in s.pending && !d.Cancel?
    case ClearTakenAct => s.command.Deciding? && !s.command.cleared
    case DecideAct(id, at, _, _) => s.command.Deciding? && s.command.cleared && Fresh(s, id) && s.now <= at
    case StopAct => CoordinatorIsFree(s)
  }

  function ActStep(s: State, a: Act): State
    requires ActEnabled(s, a)
  {
    match a
    case StartTurnAct(id, admitted) => StartTurn(s, id, admitted)
    case StartSentAct(sent) => StartSent(s, sent)
    case BeginCancellationAct => BeginCancellation(s)
    case CancelTakeAnyAct(id, at) => CancelTakeAny(s, id, at)
    case CancelDoneAct => s.(command := NoCommand)
    case TakePendingAct(id, d) => TakePending(s, id, d)
    case ClearTakenAct => ClearTaken(s)
    case DecideAct(id, at, reachable, sent) => DecidePending(s, id, at, reachable, sent)
    case StopAct => s.(stopped := true)
  }

  predicate TickEnabled(s: State, t: Tick) {
    match t
    case AdmitTick(id, _) => s.reading && s.waiting.Some? && s.waiting.value.AtConfirmation? && Fresh(s, id)
    case CredentialTick(_, _) => s.reading && s.waiting.Some? && s.waiting.value.AtCredential?
    case ScheduleTick => s.scheduling.Some?
    case ExpirePass(at) => s.now <= at
    case WorkerTake => !s.timerStopped && s.worker.None? && s.timer.Some? && s.timer.value.expiresAt <= s.now
    case WorkerFireTick => s.worker.Some?
    case ClearOwed(id) => id in s.owed && !s.owed[id].cleared
    case ReplyOwedTick(id, _) => id in s.owed && s.owed[id].cleared
  }

  function TickStep(s: State, t: Tick): State
    requires TickEnabled(s, t)
  {
    match t
    case AdmitTick(id, sent) => AdmitConfirmation(s, id, sent)
    case CredentialTick(stored, sent) => AnswerCredential(s, stored, sent)
    case ScheduleTick => Schedule(s)
    case ExpirePass(at) => TakeOut(s.(now := at), Expired(s.pending, at), Deny, false)
    case WorkerTake => s.(timer := None, worker := s.timer)
    case WorkerFireTick => WorkerFire(s)
    case ClearOwed(id) => ClearForOwed(s, id)
    case ReplyOwedTick(id, delivered) => ReplyOwed(s, id, delivered)
  }

  /** How many pieces come before this one. */
  function Place(r: Retirement): nat
  {
    match r
    case Close => 0
    case Drain => 1
    case DropApprovals => 2
    case DropGrants => 3
    case StopTimer => 4
    case Force => 5
  }

  const PIECES: nat := 6

  function Done(s: State, who: Caller): nat
  {
    if who.ByStop? then s.stopDone else s.readerDone
  }

  /** The coordinator retires the session it gave up, the reader the session it stopped reading. */
  predicate MayRetire(s: State, who: Caller) {
    if who.ByStop? then s.stopped else !s.reading
  }

  predicate RetireEnabled(s: State, who: Caller, r: Retirement) {
    MayRetire(s, who) && Done(s, who) == Place(r) && (r.Close? || s.closed)
  }

  function RetirePiece(s: State, r: Retirement): State
  {
    match r
    case Close => s.(closed := true)
    case Drain => TakeOut(s, s.pending.Keys, Deny, true)
    case DropApprovals => s.(approvals := map[])
    case DropGrants => s.(grants := map[])
    case StopTimer => s.(timer := None, timerStopped := true)
    case Force => ForceTerminal(s)
  }

  function Counted(s: State, who: Caller): State
  {
    s.(stopDone := if who.ByStop? then s.stopDone + 1 else s.stopDone,
       readerDone := if who.ByReader? then s.readerDone + 1 else s.readerDone)
  }

  function RetireStep(s: State, who: Caller, r: Retirement): State
  {
    RetirePiece(Counted(s, who), r)
  }

  predicate ChangeEnabled(s: State, c: Change) {
    match c
    case ReaderEnds => s.waiting.None? && s.scheduling.None?
    case Clock(at) => s.now <= at
    case Authorize(a) => a.revision > s.authorization.revision
    case SetProvider(_) => true
  }

  function ChangeStep(s: State, c: Change): State
  {
    match c
    case ReaderEnds => ReaderFails(s)
    case Clock(at) => s.(now := at)
    case Authorize(a) => s.(authorization := a, trace := s.trace + [AuthorizationChanged(a.revision)])
    case SetProvider(p) => s.(provider := p)
  }

  function Next(s: State, l: Label): State
  {
    match l
    case OnFrame(f) => if FrameEnabled(s, f) then FrameStep(s, f) else s
    case OnAct(a) => if ActEnabled(s, a) then ActStep(s, a) else s
    case OnTick(t) => if TickEnabled(s, t) then TickStep(s, t) else s
    case OnRetire(who, r) => if RetireEnabled(s, who, r) then RetireStep(s, who, r) else s
    case OnChange(c) => if ChangeEnabled(s, c) then ChangeStep(s, c) else s
  }

  function After(s: State, labels: seq<Label>): State
    decreases |labels|
  {
    if labels == [] then s else Next(After(s, labels[..|labels|-1]), labels[|labels|-1])
  }

  /** The state a session reaches from its start over any interleaving. */
  function Reach(config: Config, labels: seq<Label>): State
  {
    After(Initial(config), labels)
  }
}
