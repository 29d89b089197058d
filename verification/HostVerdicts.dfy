/** When each handler says yes, in full: every fact it demands, spelled out, and nothing else. */
module HostVerdicts {
  import opened Common
  import opened HostTypes
  import opened HostSteps

  /** The one process this session may run, in its own workspace. */
  predicate ExactProcess(c: Config, b: ProcessBinding) {
    && b.sessionId == c.sessionId && b.lifeId == c.lifeId && b.taskId == c.taskId
    && b.capabilityId == "vita.process.workspace.git_status"
    && b.programId == "d29h7c.git.status.v1" && b.profileId == "d29h7c.git.status.v1"
    && b.workspaceIdentity == c.workspaceIdentity
    && |b.gitFenceHash| == 64
    && forall i :: 0 <= i < 64 ==> '0' <= b.gitFenceHash[i] <= '9' || 'a' <= b.gitFenceHash[i] <= 'f'
  }

  predicate LiveTurn(a: Authority, turnId: Id) {
    a.Active? && a.turn.turnId == turnId
  }

  /** A call of the active turn, under the Codex turn that turn has learned. */
  predicate LiveCall(a: Authority, turnId: Id, b: ProcessBinding) {
    LiveTurn(a, turnId) && a.turn.codexTurn == Some(b.turnId)
  }

  /** The evaluator confirms this very process of this session, under the present authorization. */
  predicate Authorized(s: State, b: ProcessBinding, reachable: bool, revision: int) {
    ExactProcess(s.config, b) && reachable && s.authorization.enabled && s.authorization.revision == revision
  }

  function Soonest(at: Millis, deadline: Millis): Millis
  {
    if at + 30_000 < deadline then at + 30_000 else deadline
  }

  function Unexpired(grants: map<Id, StoredGrant>, now: Millis): map<Id, StoredGrant>
  {
    map g | g in grants && !grants[g].grant.used && now < grants[g].grant.expiresAt :: grants[g]
  }

  function KeyOf(hostTurnId: Id, b: ProcessBinding): string
  {
    hostTurnId + ":" + (b.toolCallId + ":" + b.turnId)
  }

  /** An approval of exactly this request that has not expired. */
  predicate Backing(a: Approval, r: IssueRequest, now: Millis) {
    a.hostTurnId == r.hostTurnId && a.binding == r.binding && a.revision == r.revision && now < a.expiresAt
  }

  lemma SameProcess(c: Config, b: ProcessBinding)
    ensures ValidBinding(c, b) <==> ExactProcess(c, b)
  {
  }

  lemma ScopeExactly(s: State, r: EvaluateRequest, reachable: bool, revision: int)
    ensures EvaluateVerdict(s, r, reachable) == Ok(revision) <==>
              && r.sessionId == s.config.sessionId && LiveTurn(s.authority, r.hostTurnId)
              && (s.authority.turn.codexTurn.Some? ==> s.authority.turn.codexTurn.value == r.binding.turnId)
              && Authorized(s, r.binding, reachable, revision)
  {
  }

  /** A confirmation goes on to the authority lock, with this deadline. */
  lemma ArrivalExactly(s: State, r: ConfirmationRequest, at: Millis, expiresAt: Millis)
    ensures ArrivalVerdict(s, r, at) == Waits(expiresAt) <==>
              && !s.closed && r.sessionId == s.config.sessionId && r.lifeId == s.config.lifeId && r.taskId == s.config.taskId
              && r.capabilityId == "vita.process.workspace.git_status" && ExactProcess(s.config, r.binding)
              && at < expiresAt && expiresAt == Soonest(at, r.expiresAt)
  {
  }

  /** Under the lock it is admitted, whether or not the session was closed meanwhile. */
  lemma AdmissionExactly(s: State, r: ConfirmationRequest)
    ensures AdmissionVerdict(s, r).Admit? <==> LiveCall(s.authority, r.hostTurnId, r.binding) && s.pending == map[]
    ensures AdmissionVerdict(s, r).Refuse? <==> !LiveCall(s.authority, r.hostTurnId, r.binding)
  {
    assert |s.pending| == 0 <==> s.pending == map[];
  }

  lemma IssueExactly(s: State, r: IssueRequest, checkedAt: Millis, reachable: bool, a: Approval)
    ensures IssueDecision(s, r, checkedAt, reachable) == Issue(a) <==>
              && r.sessionId == s.config.sessionId && LiveCall(s.authority, r.hostTurnId, r.binding)
              && Authorized(s, r.binding, reachable, r.revision)
              && |Unexpired(s.grants, checkedAt)| < 64
              && KeyOf(r.hostTurnId, r.binding) in s.approvals && a == s.approvals[KeyOf(r.hostTurnId, r.binding)]
              && Backing(a, r, checkedAt)
  {
    assert Live(s.grants, checkedAt) == Unexpired(s.grants, checkedAt);
  }

  /** A refused issue reaps the ledger once the revision stands, and spends the approval it finds
      under the call's key once there is room. */
  lemma IssueRefusedExactly(s: State, r: IssueRequest, checkedAt: Millis, reachable: bool)
    ensures var v := IssueDecision(s, r, checkedAt, reachable);
            var stands := r.sessionId == s.config.sessionId && LiveCall(s.authority, r.hostTurnId, r.binding)
                          && Authorized(s, r.binding, reachable, r.revision);
            && (v.IssueMalformed? <==> r.sessionId != s.config.sessionId)
            && (v.Reaps() <==> stands)
            && (v.Spends() <==> stands && |Unexpired(s.grants, checkedAt)| < 64 && KeyOf(r.hostTurnId, r.binding) in s.approvals)
  {
    assert Live(s.grants, checkedAt) == Unexpired(s.grants, checkedAt);
  }

  lemma UseExactly(s: State, r: RevalidateRequest, at: Millis, reachable: bool, g: StoredGrant)
    ensures RevalidateVerdict(s, r, at, reachable) == Ok(g) <==>
              && r.sessionId == s.config.sessionId && r.grant.sessionId == s.config.sessionId
              && LiveCall(s.authority, r.hostTurnId, r.binding)
              && Authorized(s, r.binding, reachable, r.grant.revision)
              && r.grant.grantId in s.grants && g == s.grants[r.grant.grantId] == StoredGrant(r.hostTurnId, r.grant)
              && r.grant.binding == r.binding && r.grant.singleUse && !r.grant.used && at < r.grant.expiresAt
  {
  }

  /** Under the lock, for a request that found its session open. */
  lemma CredentialExactly(s: State, r: CredentialRequest, secretStored: bool, p: Provider)
    ensures CredentialVerdict(s, r, secretStored) == Ok(p) <==>
              && LiveTurn(s.authority, r.turnId)
              && s.authority.turn.binding == r.binding && r.binding == ProviderBinding(s.config.sessionId, r.turnId, p)
              && s.provider == Some(p) && s.authority.turn.provider == p
              && p.purpose == "chat" && p.kind == "openai_compatible" && secretStored
  {
  }

  lemma ConfirmExactly(s: State, p: Pending, decision: Decision, at: Millis, reachable: bool, revision: int)
    ensures DecideOutcome(s, p, decision, at, reachable) == Approve(revision) <==>
              && LiveTurn(s.authority, p.hostTurnId) && at < p.expiresAt && decision.Confirm?
              && Authorized(s, p.binding, reachable, revision)
  {
  }

  /** Without approval the answer is Cancel for a turn that is gone, the user's own decision when it
      is in time and no Confirm, and else Deny. */
  lemma AnswerExactly(s: State, p: Pending, decision: Decision, at: Millis, reachable: bool, answer: Decision)
    ensures DecideOutcome(s, p, decision, at, reachable) == Answer(answer) <==>
              if !LiveTurn(s.authority, p.hostTurnId) then answer.Cancel?
              else if at < p.expiresAt && !decision.Confirm? then answer == decision
              else answer.Deny? && !(at < p.expiresAt && Authorized(s, p.binding, reachable, s.authorization.revision))
  {
  }
}
