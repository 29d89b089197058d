/** Entities of the Host side of one sidecar session (src-tauri/src/vita_sidecar.rs).

    Identifiers are strings, as in the source, because approvals are keyed by a
    concatenation of identifiers.  Clock readings are saturating u64 milliseconds. */
module HostTypes {
  import opened Common

  type Id = string

  const U64_MAX: nat := 0xFFFF_FFFF_FFFF_FFFF
  type Millis = t: nat | t <= U64_MAX

  const GRANT_LIFETIME_MS: nat := 30_000
  const HOST_CONFIRMATION_TTL_MS: nat := 30_000
  const MAX_PENDING: nat := 1
  const MAX_GRANTS: nat := 64
  const CAPABILITY_ID: Id := "vita.process.workspace.git_status"
  const PROFILE_ID: Id := "d29h7c.git.status.v1"

  function SaturatingAdd(t: Millis, d: nat): (r: Millis)
  {
    if t + d <= U64_MAX then t + d else U64_MAX
  }

  /** The exact process a governed action may run.  `policy` stands for the remaining
      hashes and limits, which the Host only ever compares as part of the whole. */
  datatype ProcessBinding = ProcessBinding(
    sessionId: Id, lifeId: Id, taskId: Id, capabilityId: Id, programId: Id, profileId: Id,
    workspaceIdentity: Id, gitFenceHash: string, toolCallId: Id, turnId: Id, policy: string)

  datatype ProcessGrant = ProcessGrant(
    sessionId: Id, grantId: Id, confirmationId: Id, binding: ProcessBinding, revision: int,
    issuedAt: Millis, expiresAt: Millis, singleUse: bool, used: bool)

  /** A chat provider profile; a provider binding pins it to one session and turn. */
  datatype Provider = Provider(profileId: Id, purpose: string, kind: string, endpoint: string)
  datatype ProviderBinding = ProviderBinding(sessionId: Id, turnId: Id, provider: Provider)

  datatype Phase =
    | Starting | Running | CancellingPhase | WaitingForToolConfirmation
    | Completed | Failed | Cancelled | TimedOut

  predicate TerminalPhase(p: Phase) {
    p.Completed? || p.Failed? || p.Cancelled? || p.TimedOut?
  }

  datatype Turn = Turn(turnId: Id, provider: Provider, binding: ProviderBinding, codexTurn: Option<Id>)

  datatype Authority =
    | Idle
    | Active(turn: Turn)
    | Cancelling(turn: Turn)
    | Terminal(turnId: Id, phase: Phase)

  datatype Pending = Pending(
    pendingId: Id, requestId: Id, hostTurnId: Id, binding: ProcessBinding, expiresAt: Millis)

  datatype Approval = Approval(
    hostTurnId: Id, binding: ProcessBinding, revision: int, confirmationId: Id, expiresAt: Millis)

  datatype StoredGrant = StoredGrant(hostTurnId: Id, grant: ProcessGrant)

  datatype Ticket = Ticket(
    sessionId: Id, pendingId: Id, requestId: Id, binding: ProcessBinding, expiresAt: Millis)

  datatype Decision = Confirm | Deny | Cancel

  datatype Code =
    | TurnNotActive | CodexTurnMismatch | StaleAuthorizationRevision | BindingMismatch
    | AuthorityDenied | CapabilityDenied | CredentialMissing | ProviderProfileChanged
    | ProviderBindingMismatch

  datatype Checked<+T> = Ok(value: T) | Err(code: Code) | Malformed

  /** What the coordinator's command thread is doing while it owns the coordinator lock. */
  datatype Command =
    | NoCommand
    | StartSending(turnId: Id)
    | Deciding(pending: Pending, decision: Decision, cleared: bool)
    | CancelTail

  /** A pending action some thread removed from the slot but has not answered yet. */
  datatype Owed = Owed(pending: Pending, decision: Decision, cleared: bool)

  /** The durable authorization row of this Life and capability, as the evaluator reports it. */
  datatype Authorization = Authorization(enabled: bool, revision: nat)

  datatype Config = Config(
    sessionId: Id, lifeId: Id, taskId: Id, workspaceIdentity: Id, provider: Option<Provider>)

  /** The outbound frames of the session, annotated with the evidence they rest on,
      together with the authority transitions that bound them. */
  datatype Event =
    | TurnBegun(turnId: Id)
    | CancelBegun(turnId: Id)
    | TurnEnded(turnId: Id, phase: Phase)
    | ForcedTerminal(turnId: Id)
    | ScopeAllowed(turnId: Id, binding: ProcessBinding, revision: int)
    | ScopeDenied(code: Code)
    | CredentialReleased(turnId: Id)
    | CredentialDenied(code: Code)
    | Admitted(pending: Pending, at: Millis, deadline: Millis)
    | RefusedConfirmation(requestId: Id, decision: Decision)
    | Replied(pending: Pending, decision: Decision, approval: Option<Approval>, delivered: bool, at: Millis)
    | GrantIssued(grant: StoredGrant, checkedAt: Millis)
    | GrantDenied(code: Code)
    | GrantRevalidated(grant: StoredGrant, at: Millis)
    | RevalidationDenied(code: Code)
    | AuthorizationChanged(revision: int)

  type Trace = seq<Event>

  /** A handler that found the session open and now waits for the turn-authority lock. */
  datatype Waiting =
    | AtConfirmation(confirmation: ConfirmationRequest, at: Millis, expiresAt: Millis)
    | AtCredential(credential: CredentialRequest)

  datatype State = State(
    config: Config,
    // guarded by the turn-authority lock
    authority: Authority,
    // ledgers
    pending: map<Id, Pending>,
    approvals: map<string, Approval>,
    grants: map<Id, StoredGrant>,
    // one-slot expiry timer and its worker
    timer: Option<Ticket>,
    timerStopped: bool,
    worker: Option<Ticket>,
    // reader thread: alive, past its test of `closed` but before the authority lock, and between
    // inserting a pending action and scheduling it
    reading: bool,
    waiting: Option<Waiting>,
    scheduling: Option<Ticket>,
    // coordinator command thread, and removed actions still owed an answer
    command: Command,
    owed: map<Id, Owed>,
    closed: bool,
    // the coordinator gave the session up; how many pieces of its `retire` each caller performed
    stopped: bool,
    stopDone: nat,
    readerDone: nat,
    text: Option<string>,
    error: Option<string>,
    // environment
    now: Millis,
    authorization: Authorization,
    provider: Option<Provider>,
    usedIds: set<Id>,
    trace: Trace)

  datatype EvaluateRequest = EvaluateRequest(sessionId: Id, hostTurnId: Id, binding: ProcessBinding)
  datatype ConfirmationRequest = ConfirmationRequest(
    sessionId: Id, requestId: Id, hostTurnId: Id, lifeId: Id, taskId: Id, capabilityId: Id,
    binding: ProcessBinding, expiresAt: Millis)
  datatype IssueRequest = IssueRequest(
    sessionId: Id, hostTurnId: Id, binding: ProcessBinding, revision: int)
  datatype RevalidateRequest = RevalidateRequest(
    sessionId: Id, hostTurnId: Id, binding: ProcessBinding, grant: ProcessGrant)
  datatype CredentialRequest = CredentialRequest(sessionId: Id, turnId: Id, binding: ProviderBinding)

  function Initial(config: Config): State
  {
    State(config, Idle, map[], map[], map[], None, false, None, true, None, None, NoCommand, map[],
          false, false, 0, 0, None, None, 0, Authorization(false, 0), None, {}, [])
  }
}
