/** The Host session object: the handlers update its fields in place.

    Each method performs one critical section of the source and is specified by the step function
    of the same moment: field by field where many fields change, the rest being outside its frame.
    `ReadFrame`, `RunCommand`, `RunTick` and `RunRetire` dispatch to them, state the whole new
    state, and keep the session valid, so the whole-run results about the step relation are results
    about sequences of these calls.  `Retire` and `DecideAndAnswer` run several critical sections of
    one thread back to back. */
module HostSession {
  import opened Common
  import opened HostTypes
  import opened HostSteps
  import opened HostGeneration
  import opened HostGenerationProof
  import opened HostFence
  import opened HostEffects
  import opened HostMessages
  import opened ReplayWindow

  lemma {:induction false} ReaderFailsKeeps(s: State)
    ensures Generation(s) ==> Generation(ReaderFails(s))
  {
    if Generation(s) {
      OutputsKeep(s, false, s.text, s.error);
    }
  }

  class Session {
    const config: Config
    var authority: Authority
    var pending: map<Id, Pending>
    var approvals: map<string, Approval>
    var grants: map<Id, StoredGrant>
    var timer: Option<Ticket>
    var timerStopped: bool
    var worker: Option<Ticket>
    var reading: bool
    var waiting: Option<Waiting>
    var scheduling: Option<Ticket>
    var command: Command
    var owed: map<Id, Owed>
    var closed: bool
    var stopped: bool
    var stopDone: nat
    var readerDone: nat
    var text: Option<string>
    var error: Option<string>
    var now: Millis
    var authorization: Authorization
    var provider: Option<Provider>
    var usedIds: set<Id>
    var trace: Trace

    function Model(): State
      reads this
    {
      State(config, authority, pending, approvals, grants, timer, timerStopped, worker, reading, waiting,
            scheduling, command, owed, closed, stopped, stopDone, readerDone, text, error, now, authorization,
            provider, usedIds, trace)
    }

    ghost predicate Valid()
      reads this
    {
      Generation(Model())
    }

    constructor (config: Config)
      ensures Valid() && Model() == Initial(config)
      ensures this.config == config && authority == Idle && reading && !closed && !stopped && !timerStopped
      ensures pending == map[] && approvals == map[] && grants == map[] && timer == None && trace == []
    {
      this.config := config;
      authority, command := Idle, NoCommand;
      pending, approvals, grants, owed := map[], map[], map[], map[];
      timer, worker, waiting, scheduling := None, None, None, None;
      timerStopped, closed, stopped, reading := false, false, false, true;
      stopDone, readerDone := 0, 0;
      text, error, provider := None, None, None;
      now, authorization := 0, Authorization(false, 0);
      usedIds, trace := {}, [];
    }

    /** Writes one frame; a failed write ends the reader loop. */
    method Send(e: Event, sent: bool)
      modifies this`trace, this`reading
      ensures trace == if sent then old(trace) + [e] else old(trace)
      ensures reading == (old(reading) && sent)
    {
      if sent {
        trace := trace + [e];
      } else {
        reading := false;
      }
    }

    // ---- Frames from the sidecar ----------------------------------------------------------

    /** The verdict, read off the fields. */
    method JudgeEvaluate(r: EvaluateRequest, reachable: bool) returns (v: Checked<int>)
      ensures v == EvaluateVerdict(Model(), r, reachable)
    {
      v := EvaluateVerdict(Model(), r, reachable);
    }

    method HandleAuthorityEvaluate(r: EvaluateRequest, reachable: bool, sent: bool)
      modifies this`authority, this`trace, this`reading
      ensures var n := AuthorityEvaluate(old(Model()), r, reachable, sent);
              authority == n.authority && trace == n.trace && reading == n.reading
    {
      hide EvaluateVerdict, WorkspaceRevision;
      var v := JudgeEvaluate(r, reachable);
      if v.Ok? {
        authority := LearnCodexTurn(authority, r.binding.turnId);
      }
      Send(EvaluateReply(r, v), sent && !v.Malformed?);
    }

    /** The handler up to the authority lock. */
    method HandleConfirmationRequired(r: ConfirmationRequest, at: Millis, sent: bool)
      modifies this`waiting, this`now, this`trace, this`reading
      ensures var v := ArrivalVerdict(old(Model()), r, at);
              && now == at
              && waiting == (if v.Waits? then Some(AtConfirmation(r, at, v.expiresAt)) else old(waiting))
              && trace == (if v.Overdue? && sent then old(trace) + [RefusedConfirmation(r.requestId, Deny)] else old(trace))
              && reading == (old(reading) && (v.Waits? || (v.Overdue? && sent)))
    {
      hide ArrivalVerdict;
      var v := ArrivalVerdict(Model(), r, at);
      now := at;
      if v.Waits? {
        waiting := Some(AtConfirmation(r, at, v.expiresAt));
      } else {
        Send(RefusedConfirmation(r.requestId, Deny), v.Overdue? && sent);
      }
    }

    /** The rest of it, under the authority lock. */
    method AdmitConfirmation(pendingId: Id, sent: bool)
      requires waiting.Some? && waiting.value.AtConfirmation?
      modifies this`waiting, this`pending, this`scheduling, this`usedIds, this`trace, this`reading
      ensures var n := HostSteps.AdmitConfirmation(old(Model()), pendingId, sent);
              waiting == n.waiting && pending == n.pending && scheduling == n.scheduling && usedIds == n.usedIds
              && trace == n.trace && reading == n.reading
    {
      hide AdmissionVerdict;
      var w := waiting.value;
      var v := AdmissionVerdict(Model(), w.confirmation);
      var p := AdmittedPending(w, pendingId);
      waiting := None;
      if v.Admit? {
        pending := pending[pendingId := p];
        scheduling := Some(TicketFor(config, p));
        usedIds := usedIds + {pendingId};
      }
      Send(AdmissionReply(w, v, p), v.Admit? || (v.Refuse? && sent));
    }

    /** Drops used and expired grants. */
    method ReapExpiredGrants(at: Millis)
      modifies this`grants
      ensures grants == Live(old(grants), at)
    {
      var kept: map<Id, StoredGrant> := map[];
      var rest := grants;
      while rest != map[]
        invariant forall g :: g in rest ==> g in grants && g !in kept && rest[g] == grants[g]
        invariant forall g :: g in kept <==> g in Live(grants, at) && g !in rest
        invariant forall g :: g in kept ==> kept[g] == grants[g]
        decreases |rest|
      {
        var g :| g in rest;
        if !rest[g].grant.used && rest[g].grant.expiresAt > at {
          kept := kept[g := rest[g]];
        }
        assert |rest - {g}| < |rest| by { SubmapSize(rest - {g}, rest); assert (rest - {g}).Keys == rest.Keys - {g}; }
        rest := rest - {g};
      }
      assert kept == Live(grants, at);
      grants := kept;
    }

    /** The verdict, read off the fields. */
    method JudgeIssue(r: IssueRequest, checkedAt: Millis, reachable: bool) returns (v: IssueVerdict)
      ensures v == IssueDecision(Model(), r, checkedAt, reachable)
    {
      v := IssueDecision(Model(), r, checkedAt, reachable);
    }

    /** Reaps, spends and stores as the verdict says. */
    method ApplyIssue(v: IssueVerdict, key: string, g: StoredGrant, checkedAt: Millis)
      modifies this`grants, this`approvals, this`usedIds
      ensures var live := if v.Reaps() then Live(old(grants), checkedAt) else old(grants);
              grants == if v.Issue? then live[g.grant.grantId := g] else live
      ensures approvals == if v.Spends() then old(approvals) - {key} else old(approvals)
      ensures usedIds == if v.Issue? then old(usedIds) + {g.grant.grantId} else old(usedIds)
    {
      hide Live;
      if v.Reaps() {
        ReapExpiredGrants(checkedAt);
      }
      if v.Spends() {
        approvals := approvals - {key};
      }
      if v.Issue? {
        grants, usedIds := grants[g.grant.grantId := g], usedIds + {g.grant.grantId};
      }
    }

    method HandleIssueGrant(r: IssueRequest, grantId: Id, checkedAt: Millis, stampedAt: Millis, expiryFrom: Millis,
                            reachable: bool, sent: bool)
      modifies this`grants, this`approvals, this`now, this`usedIds, this`trace, this`reading
      ensures var n := IssueGrant(old(Model()), r, grantId, checkedAt, stampedAt, expiryFrom, reachable, sent);
              grants == n.grants && approvals == n.approvals && now == n.now && usedIds == n.usedIds
              && trace == n.trace && reading == n.reading
    {
      hide IssueDecision, ApprovalKey, Live, IssueReply;
      var v := JudgeIssue(r, checkedAt, reachable);
      var a := if v.Issue? then v.approval else Approval(r.hostTurnId, r.binding, r.revision, grantId, checkedAt);
      var g := NewGrant(config, r, a, grantId, stampedAt, expiryFrom);
      now := expiryFrom;
      ApplyIssue(v, ApprovalKey(r.hostTurnId, r.binding), g, checkedAt);
      Send(IssueReply(config, r, v, grantId, checkedAt, stampedAt, expiryFrom), sent && !v.IssueMalformed?);
    }

    /** The verdict, read off the fields. */
    method JudgeRevalidate(r: RevalidateRequest, at: Millis, reachable: bool) returns (v: Checked<StoredGrant>)
      ensures v == RevalidateVerdict(Model(), r, at, reachable)
    {
      v := RevalidateVerdict(Model(), r, at, reachable);
    }

    method HandleRevalidateGrant(r: RevalidateRequest, at: Millis, reachable: bool, sent: bool)
      modifies this`grants, this`now, this`trace, this`reading
      ensures var n := RevalidateGrant(old(Model()), r, at, reachable, sent);
              grants == n.grants && now == n.now && trace == n.trace && reading == n.reading
    {
      hide RevalidateVerdict;
      var v := JudgeRevalidate(r, at, reachable);
      now := at;
      if v.Ok? {
        grants := grants - {r.grant.grantId};
      }
      Send(RevalidateReply(v, at), sent && !v.Malformed?);
    }

    /** The handler up to the authority lock. */
    method HandleCredentialRequired(r: CredentialRequest, sent: bool)
      modifies this`waiting, this`trace, this`reading
      ensures Model() == CredentialRequired(old(Model()), r, sent)
    {
      if closed || r.sessionId != config.sessionId {
        Send(CredentialDenied(TurnNotActive), sent);
      } else {
        waiting := Some(AtCredential(r));
      }
    }

    /** The rest of it, under the authority lock. */
    method AnswerCredential(secretStored: bool, sent: bool)
      requires waiting.Some? && waiting.value.AtCredential?
      modifies this`waiting, this`trace, this`reading
      ensures Model() == HostSteps.AnswerCredential(old(Model()), secretStored, sent)
    {
      hide CredentialVerdict;
      var r := waiting.value.credential;
      var v := CredentialVerdict(Model(), r, secretStored);
      waiting := None;
      Send(CredentialReply(r, v), sent);
    }

    /** Retires all evidence of one turn; the caller still owns the authority. */
    method ClearTurnEvidence(turnId: Id)
      modifies this`pending, this`owed, this`approvals, this`grants
      ensures pending == Without(old(pending), OfTurn(old(pending), turnId))
      ensures owed == old(owed) + Owing(old(pending), OfTurn(old(pending), turnId), Cancel, false)
      ensures approvals == ApprovalsNotOf(old(approvals), turnId) && grants == GrantsNotOf(old(grants), turnId)
    {
      var gone := OfTurn(pending, turnId);
      owed := owed + Owing(pending, gone, Cancel, false);
      pending := Without(pending, gone);
      approvals := ApprovalsNotOf(approvals, turnId);
      grants := GrantsNotOf(grants, turnId);
    }

    method TerminalizeTurn(turnId: Id, phase: Phase) returns (accepted: bool)
      modifies this`authority, this`pending, this`owed, this`approvals, this`grants, this`trace
      ensures accepted == TurnIs(old(authority), turnId)
      ensures EndsTurn(old(authority), old(pending), old(owed), old(approvals), old(grants), old(trace), accepted, turnId, phase)
    {
      hide OfTurn, Without, Owing, ApprovalsNotOf, GrantsNotOf;
      accepted := TurnIs(authority, turnId);
      if accepted {
        authority := Terminal(turnId, phase);
        ClearTurnEvidence(turnId);
        authority := Idle;
        trace := trace + [TurnEnded(turnId, phase)];
      }
    }

    /** The fields hold what ending the turn, if `ends`, makes of the given ones. */
    predicate EndsTurn(a: Authority, p: map<Id, Pending>, o: map<Id, Owed>, c: map<string, Approval>, g: map<Id, StoredGrant>,
                       tr: Trace, ends: bool, turnId: Id, phase: Phase)
      reads this`authority, this`pending, this`owed, this`approvals, this`grants, this`trace
    {
      if ends then
        && authority == Idle && trace == tr + [TurnEnded(turnId, phase)]
        && pending == Without(p, OfTurn(p, turnId)) && owed == o + Owing(p, OfTurn(p, turnId), Cancel, false)
        && approvals == ApprovalsNotOf(c, turnId) && grants == GrantsNotOf(g, turnId)
      else authority == a && pending == p && owed == o && approvals == c && grants == g && trace == tr
    }

    method AcceptTurnState(turnId: Id, phase: Phase) returns (accepted: bool)
      modifies this`authority, this`pending, this`owed, this`approvals, this`grants, this`trace
      ensures accepted == AcceptsPhase(old(authority), turnId, phase)
      ensures EndsTurn(old(authority), old(pending), old(owed), old(approvals), old(grants), old(trace),
                       accepted && TerminalPhase(phase), turnId, phase)
    {
      hide OfTurn, Without, Owing, ApprovalsNotOf, GrantsNotOf;
      accepted := AcceptsPhase(authority, turnId, phase);
      if accepted && TerminalPhase(phase) {
        var ended := TerminalizeTurn(turnId, phase);
      }
    }

    method HandleTurnCompleted(sessionId: Id, turnId: Id, message: string)
      modifies this`authority, this`pending, this`owed, this`approvals, this`grants, this`trace,
               this`reading, this`text, this`error
      ensures var here := sessionId == config.sessionId;
              var accepted := here && AcceptsPhase(old(authority), turnId, Completed);
              && EndsTurn(old(authority), old(pending), old(owed), old(approvals), old(grants), old(trace), accepted, turnId, Completed)
              && reading == (old(reading) && here)
              && text == (if accepted then Some(message) else old(text)) && error == (if accepted then None else old(error))
    {
      hide AcceptsPhase;
      if sessionId != config.sessionId {
        reading := false;
      } else {
        var accepted := AcceptTurnState(turnId, Completed);
        if accepted {
          text, error := Some(message), None;
        }
      }
    }

    method HandleTurnFailed(sessionId: Id, turnId: Id, phase: Phase, code: string)
      modifies this`authority, this`pending, this`owed, this`approvals, this`grants, this`trace,
               this`reading, this`error
      ensures var here := sessionId == config.sessionId && FailurePhase(phase);
              var accepted := here && AcceptsPhase(old(authority), turnId, phase);
              && EndsTurn(old(authority), old(pending), old(owed), old(approvals), old(grants), old(trace), accepted, turnId, phase)
              && reading == (old(reading) && here) && error == (if accepted then Some(code) else old(error))
    {
      hide AcceptsPhase;
      if !FailurePhase(phase) || sessionId != config.sessionId {
        reading := false;
      } else {
        var accepted := AcceptTurnState(turnId, phase);
        if accepted {
          error := Some(code);
        }
      }
    }

    method HandleTurnState(sessionId: Id, turnId: Id, phase: Phase)
      modifies this`authority, this`pending, this`owed, this`approvals, this`grants, this`trace, this`reading
      ensures var here := sessionId == config.sessionId;
              && EndsTurn(old(authority), old(pending), old(owed), old(approvals), old(grants), old(trace),
                          here && AcceptsPhase(old(authority), turnId, phase) && TerminalPhase(phase), turnId, phase)
              && reading == (old(reading) && here)
    {
      hide AcceptsPhase;
      if sessionId != config.sessionId {
        reading := false;
      } else {
        var accepted := AcceptTurnState(turnId, phase);
      }
    }

    // ---- The reader loop's dispatch ------------------------------------------------------

    method ReadEvaluate(r: EvaluateRequest, reachable: bool, sent: bool)
      modifies this
      ensures Model() == AuthorityEvaluate(old(Model()), r, reachable, sent)
    {
      hide EvaluateVerdict, EvaluateReply, LearnCodexTurn;
      HandleAuthorityEvaluate(r, reachable, sent);
    }

    method ReadConfirmation(r: ConfirmationRequest, at: Millis, sent: bool)
      modifies this
      ensures Model() == ConfirmationRequired(old(Model()), r, at, sent)
    {
      hide ArrivalVerdict;
      HandleConfirmationRequired(r, at, sent);
    }

    method ReadIssue(r: IssueRequest, id: Id, c: Millis, t: Millis, e: Millis, reachable: bool, sent: bool)
      modifies this
      ensures Model() == IssueGrant(old(Model()), r, id, c, t, e, reachable, sent)
    {
      hide IssueDecision, IssueReply, NewGrant, ApprovalKey, Live;
      HandleIssueGrant(r, id, c, t, e, reachable, sent);
    }

    method ReadRevalidate(r: RevalidateRequest, at: Millis, reachable: bool, sent: bool)
      modifies this
      ensures Model() == RevalidateGrant(old(Model()), r, at, reachable, sent)
    {
      hide RevalidateVerdict, RevalidateReply;
      HandleRevalidateGrant(r, at, reachable, sent);
    }

    method ReadTurnState(sessionId: Id, turnId: Id, phase: Phase)
      modifies this
      ensures Model() == TurnStateFrame(old(Model()), sessionId, turnId, phase)
    {
      hide OfTurn, Without, Owing, ApprovalsNotOf, GrantsNotOf, AcceptsPhase;
      HandleTurnState(sessionId, turnId, phase);
    }

    method ReadTurnCompleted(sessionId: Id, turnId: Id, message: string)
      modifies this
      ensures Model() == TurnCompletedFrame(old(Model()), sessionId, turnId, message)
    {
      hide OfTurn, Without, Owing, ApprovalsNotOf, GrantsNotOf, AcceptsPhase;
      HandleTurnCompleted(sessionId, turnId, message);
    }

    method ReadTurnFailed(sessionId: Id, turnId: Id, phase: Phase, code: string)
      modifies this
      ensures Model() == TurnFailedFrame(old(Model()), sessionId, turnId, phase, code)
    {
      hide OfTurn, Without, Owing, ApprovalsNotOf, GrantsNotOf, AcceptsPhase, FailurePhase;
      HandleTurnFailed(sessionId, turnId, phase, code);
    }

    /** One turn of the reader loop. */
    method ReadFrame(f: Frame)
      requires Valid() && FrameEnabled(Model(), f)
      modifies this
      ensures Model() == FrameStep(old(Model()), f) && Valid()
    {
      hide Generation, AuthorityEvaluate, ConfirmationRequired, IssueGrant, RevalidateGrant;
      hide TurnStateFrame, TurnCompletedFrame, TurnFailedFrame, CredentialRequired;
      FrameKeeps(Model(), f);
      match f
      case Evaluate(r, reachable, sent) => ReadEvaluate(r, reachable, sent);
      case Confirmation(r, at, sent) => ReadConfirmation(r, at, sent);
      case IssueFrame(r, id, c, t, e, reachable, sent) => ReadIssue(r, id, c, t, e, reachable, sent);
      case Revalidate(r, at, reachable, sent) => ReadRevalidate(r, at, reachable, sent);
      case Credential(r, sent) => HandleCredentialRequired(r, sent);
      case TurnState(session, t, phase) => ReadTurnState(session, t, phase);
      case TurnCompleted(session, t, message) => ReadTurnCompleted(session, t, message);
      case TurnFailed(session, t, phase, code) => ReadTurnFailed(session, t, phase, code);
    }

    method EndReading()
      requires Valid()
      modifies this`reading
      ensures Model() == ReaderFails(old(Model())) && Valid()
    {
      hide Generation;
      ReaderFailsKeeps(Model());
      reading := false;
    }

    /** The request id check; an id in bounds enters the replay window. */
    method AdmitRequest(requestId: Id, window: RequestReplayWindow) returns (admitted: bool)
      requires window.Valid()
      modifies window
      ensures admitted == (RequestIdInBounds(requestId) && requestId !in old(window.order))
      ensures window.Valid()
      ensures window.offers == old(window.offers) + if RequestIdInBounds(requestId) then [requestId] else []
    {
      if !RequestIdInBounds(requestId) {
        assert window.offers + [] == window.offers;
        return false;
      }
      admitted := window.Accept(requestId);
    }

    method Dispatch(m: Message)
      requires Valid() && (m.Handled? ==> FrameEnabled(Model(), m.frame))
      modifies this
      ensures Model() == DispatchStep(old(Model()), m) && Valid()
    {
      hide Generation, FrameStep, FrameEnabled;
      match m
      case Handled(f) => ReadFrame(f);
      case Lifecycle(sessionId) =>
        if sessionId != config.sessionId {
          EndReading();
        }
      case OutOfPhase => EndReading();
    }

    /** The body of the reader loop. */
    method ReadMessage(requestId: Id, m: Message, window: RequestReplayWindow)
      requires Valid() && window.Valid() && ReaderIsFree(Model()) && (m.Handled? ==> FrameEnabled(Model(), m.frame))
      modifies this, window
      ensures Model() == MessageStep(old(Model()), requestId, old(window.order), m) && Valid()
      ensures var refused := || requestId == "" || ByteLength(requestId) > 128 || requestId in old(window.order) || m.OutOfPhase?
                             || (m.Lifecycle? && m.sessionId != config.sessionId);
              Model() == if refused then old(Model()).(reading := false)
                         else if m.Handled? then Next(old(Model()), OnFrame(m.frame)) else old(Model())
      ensures window.Valid()
      ensures window.offers == old(window.offers) + if RequestIdInBounds(requestId) then [requestId] else []
    {
      hide Generation, MessageStep, DispatchStep, FrameEnabled, RequestIdInBounds, Next;
      MessageExactly(Model(), requestId, window.order, m);
      MessageCases(Model(), requestId, window.order, m);
      var admitted := AdmitRequest(requestId, window);
      if admitted {
        Dispatch(m);
      } else {
        EndReading();
      }
    }

    // ---- Commands ---------------------------------------------------------------------------

    method BeginTurn(turnId: Id, admitted: bool) returns (begun: bool)
      requires Fresh(Model(), turnId) && command.NoCommand?
      modifies this`authority, this`text, this`error, this`command, this`usedIds, this`trace
      ensures var n := StartTurn(old(Model()), turnId, admitted);
              authority == n.authority && text == n.text && error == n.error
              && command == n.command && usedIds == n.usedIds && trace == n.trace
      ensures begun ==> authority.Active? && authority.turn.turnId == turnId
    {
      if closed || !authority.Idle? || !admitted || config.provider.None? || provider != config.provider {
        return false;
      }
      authority := Active(NewTurn(config, turnId));
      text, error := None, None;
      command := StartSending(turnId);
      usedIds := usedIds + {turnId};
      trace := trace + [TurnBegun(turnId)];
      return true;
    }

    /** The ledgers hold the evidence of other turns only; the turn's own actions are owed Cancel. */
    predicate EvidenceLeft(p: map<Id, Pending>, o: map<Id, Owed>, a: map<string, Approval>, g: map<Id, StoredGrant>, turnId: Id)
      reads this`pending, this`owed, this`approvals, this`grants
    {
      && pending == PendingOfOthers(p, turnId) && owed == o + CancelledOf(p, turnId)
      && approvals == ApprovalsOfOthers(a, turnId) && grants == GrantsOfOthers(g, turnId)
    }

    /** An active turn is cancelling now, on record, and a cancelling turn has no evidence; any other
        authority is as it was. */
    predicate TakesHold(a: Authority, p: map<Id, Pending>, o: map<Id, Owed>, c: map<string, Approval>, g: map<Id, StoredGrant>, tr: Trace)
      reads this`authority, this`pending, this`owed, this`approvals, this`grants, this`trace
    {
      match a
      case Active(turn) =>
        && authority == Cancelling(turn) && trace == tr + [CancelBegun(turn.turnId)]
        && EvidenceLeft(p, o, c, g, turn.turnId)
      case Cancelling(turn) => authority == a && trace == tr && EvidenceLeft(p, o, c, g, turn.turnId)
      case _ => authority == a && trace == tr && pending == p && owed == o && approvals == c && grants == g
    }

    method BeginCancellation()
      modifies this`authority, this`pending, this`owed, this`approvals, this`grants, this`command, this`trace
      ensures var n := HostSteps.BeginCancellation(old(Model()));
              authority == n.authority && pending == n.pending && owed == n.owed
              && approvals == n.approvals && grants == n.grants && command == n.command && trace == n.trace
      ensures TakesHold(old(authority), old(pending), old(owed), old(approvals), old(grants), old(trace))
    {
      hide OfTurn, Without, Owing, ApprovalsNotOf, GrantsNotOf, PendingOfOthers, CancelledOf, ApprovalsOfOthers, GrantsOfOthers;
      if authority.Active? || authority.Cancelling? {
        SameEvidence(pending, approvals, grants, authority.turn.turnId);
      }
      if authority.Active? {
        var turn := authority.turn;
        ClearTurnEvidence(turn.turnId);
        authority := Cancelling(turn);
        trace := trace + [CancelBegun(turn.turnId)];
      } else if authority.Cancelling? {
        ClearTurnEvidence(authority.turn.turnId);
      }
      command := CancelTail;
    }

    /** `start_turn` after its frame was written, or not: a turn that cannot be announced fails. */
    method FinishStart(sent: bool)
      requires command.StartSending?
      modifies this`authority, this`pending, this`owed, this`approvals, this`grants, this`trace, this`command
      ensures var turnId := old(command).turnId;
              && EndsTurn(old(authority), old(pending), old(owed), old(approvals), old(grants), old(trace),
                          !sent && TurnIs(old(authority), turnId), turnId, Failed)
              && command == NoCommand
    {
      if !sent {
        var ended := TerminalizeTurn(command.turnId, Failed);
      }
      command := NoCommand;
    }

    /** One round of the cancelling command's loop: whatever is in the slot goes. */
    method TakeAnyForCancel(id: Id, at: Millis)
      requires id in pending
      modifies this`pending, this`owed, this`now
      ensures var n := CancelTakeAny(old(Model()), id, at); pending == n.pending && owed == n.owed && now == n.now
    {
      hide Without, Owing;
      var decision := if pending[id].expiresAt <= at then Deny else Cancel;
      now := at;
      owed := owed + Owing(pending, {id}, decision, false);
      pending := Without(pending, {id});
    }

    /** Takes the action out of the slot on behalf of the deciding command. */
    method TakePending(id: Id, decision: Decision)
      requires id in pending && command.NoCommand?
      modifies this`pending, this`command
      ensures Model() == HostSteps.TakePending(old(Model()), id, decision)
    {
      command := Deciding(pending[id], decision, false);
      pending := Without(pending, {id});
    }

    method ClearTicket(t: Ticket)
      modifies this`timer
      ensures timer == TimerWithout(old(timer), t)
    {
      if timer == Some(t) {
        timer := None;
      }
    }

    method ClearTakenTicket()
      requires command.Deciding?
      modifies this`timer, this`command
      ensures Model() == ClearTaken(old(Model()))
    {
      ClearTicket(TicketFor(config, command.pending));
      command := Deciding(command.pending, command.decision, true);
    }

    method DecidePending(confirmationId: Id, at: Millis, reachable: bool, sent: bool)
      requires command.Deciding?
      modifies this`approvals, this`command, this`now, this`usedIds, this`trace
      ensures var n := HostSteps.DecidePending(old(Model()), confirmationId, at, reachable, sent);
              approvals == n.approvals && command == n.command && now == n.now && usedIds == n.usedIds
              && trace == n.trace
    {
      hide DecideOutcome, ApprovalKey, NewApproval, DecideReply;
      var p := command.pending;
      var v := DecideOutcome(Model(), p, command.decision, at, reachable);
      now, command := at, NoCommand;
      if v.Approve? {
        var key := ApprovalKey(p.hostTurnId, p.binding);
        approvals := approvals[key := NewApproval(p, v.revision, confirmationId)];
        usedIds := usedIds + {confirmationId};
        if !sent {
          approvals := approvals - {key};
        }
      }
      trace := trace + [DecideReply(p, v, confirmationId, sent, at)];
    }

    /** `decide_pending_for_session` run by one thread without interference. */
    method DecideAndAnswer(id: Id, decision: Decision, confirmationId: Id, at: Millis, reachable: bool, sent: bool)
      requires id in pending && command.NoCommand?
      modifies this`pending, this`command, this`timer, this`approvals, this`now, this`usedIds, this`trace
      ensures Model() == HostSteps.DecidePending(ClearTaken(HostSteps.TakePending(old(Model()), id, decision)),
                                                 confirmationId, at, reachable, sent)
    {
      TakePending(id, decision);
      ClearTakenTicket();
      DecidePending(confirmationId, at, reachable, sent);
    }

    method RunStart(turnId: Id, admitted: bool)
      requires Fresh(Model(), turnId) && command.NoCommand?
      modifies this
      ensures Model() == StartTurn(old(Model()), turnId, admitted)
    {
      var begun := BeginTurn(turnId, admitted);
    }

    method RunFinish(sent: bool)
      requires command.StartSending?
      modifies this
      ensures Model() == StartSent(old(Model()), sent)
    {
      hide OfTurn, Without, Owing, ApprovalsNotOf, GrantsNotOf, TurnIs;
      FinishStart(sent);
    }

    method RunCancellation()
      modifies this
      ensures Model() == HostSteps.BeginCancellation(old(Model()))
    {
      hide TakesHold, OfTurn, Without, Owing, ApprovalsNotOf, GrantsNotOf;
      BeginCancellation();
    }

    method RunCancelTake(id: Id, at: Millis)
      requires id in pending
      modifies this
      ensures Model() == CancelTakeAny(old(Model()), id, at)
    {
      hide Without, Owing;
      TakeAnyForCancel(id, at);
    }

    method RunDecision(confirmationId: Id, at: Millis, reachable: bool, sent: bool)
      requires command.Deciding?
      modifies this
      ensures Model() == HostSteps.DecidePending(old(Model()), confirmationId, at, reachable, sent)
    {
      hide DecideOutcome, ApprovalKey, NewApproval, DecideReply;
      DecidePending(confirmationId, at, reachable, sent);
    }

    /** `stop` takes the session out of the coordinator. */
    method GiveUp()
      modifies this`stopped
      ensures stopped
    {
      stopped := true;
    }

    /** One critical section of the command that holds the coordinator lock. */
    method RunCommand(a: Act)
      requires Valid() && ActEnabled(Model(), a)
      modifies this
      ensures Model() == ActStep(old(Model()), a) && Valid()
    {
      hide Generation, StartTurn, StartSent, HostSteps.BeginCancellation, CancelTakeAny;
      hide HostSteps.TakePending, ClearTaken, HostSteps.DecidePending;
      ActKeeps(Model(), a);
      match a
      case StartTurnAct(id, admitted) => RunStart(id, admitted);
      case StartSentAct(sent) => RunFinish(sent);
      case BeginCancellationAct => RunCancellation();
      case CancelTakeAnyAct(id, at) => RunCancelTake(id, at);
      case CancelDoneAct => command := NoCommand;
      case TakePendingAct(id, d) => TakePending(id, d);
      case ClearTakenAct => ClearTakenTicket();
      case DecideAct(id, at, reachable, sent) => RunDecision(id, at, reachable, sent);
      case StopAct => GiveUp();
    }

    // ---- Expiry -----------------------------------------------------------------------------

    method Schedule()
      requires scheduling.Some?
      modifies this`timer, this`scheduling
      ensures Model() == HostSteps.Schedule(old(Model()))
    {
      if !timerStopped {
        timer := scheduling;
      }
      scheduling := None;
    }

    /** Removes every action whose deadline passed; each is then cleared and answered. */
    method ExpirePending(at: Millis)
      modifies this`pending, this`owed, this`now
      ensures Model() == TakeOut(old(Model()).(now := at), Expired(old(pending), at), Deny, false)
    {
      hide Without, Owing, Expired;
      var gone := Expired(pending, at);
      now := at;
      owed := owed + Owing(pending, gone, Deny, false);
      pending := Without(pending, gone);
    }

    method ExpirePendingTicket()
      requires worker.Some?
      modifies this`pending, this`owed, this`worker
      ensures Model() == WorkerFire(old(Model()))
    {
      hide Without, Owing, Matching;
      var t := worker.value;
      worker := None;
      if closed || t.sessionId != config.sessionId {
        return;
      }
      var gone := Matching(pending, t, now);
      owed := owed + Owing(pending, gone, Deny, true);
      pending := Without(pending, gone);
    }

    method WorkerTakes()
      requires timer.Some?
      modifies this`timer, this`worker
      ensures timer.None? && worker == old(timer)
    {
      timer, worker := None, timer;
    }

    /** Whoever removed an action drops its ticket, then answers it. */
    method ClearOwedTicket(id: Id)
      requires id in owed
      modifies this`timer, this`owed
      ensures Model() == ClearForOwed(old(Model()), id)
    {
      var o := owed[id];
      ClearTicket(TicketFor(config, o.pending));
      owed := owed[id := Owed(o.pending, o.decision, true)];
    }

    method AnswerOwed(id: Id, delivered: bool)
      requires id in owed
      modifies this`owed, this`trace
      ensures Model() == ReplyOwed(old(Model()), id, delivered)
    {
      var o := owed[id];
      owed := owed - {id};
      trace := trace + [Replied(o.pending, o.decision, None, delivered, now)];
    }

    method RunAdmission(id: Id, sent: bool)
      requires waiting.Some? && waiting.value.AtConfirmation?
      modifies this
      ensures Model() == HostSteps.AdmitConfirmation(old(Model()), id, sent)
    {
      hide AdmissionVerdict, AdmissionReply, AdmittedPending;
      AdmitConfirmation(id, sent);
    }

    /** One critical section of the reader's accepted request, the timer, its worker, or a thread that
        owes an answer. */
    method RunTick(t: Tick)
      requires Valid() && TickEnabled(Model(), t)
      modifies this
      ensures Model() == TickStep(old(Model()), t) && Valid()
    {
      hide Generation, HostSteps.Schedule, WorkerFire, ClearForOwed, ReplyOwed, TakeOut;
      hide HostSteps.AdmitConfirmation, HostSteps.AnswerCredential;
      TickKeeps(Model(), t);
      match t
      case AdmitTick(id, sent) => RunAdmission(id, sent);
      case CredentialTick(stored, sent) => AnswerCredential(stored, sent);
      case ScheduleTick => Schedule();
      case ExpirePass(at) => ExpirePending(at);
      case WorkerTake => WorkerTakes();
      case WorkerFireTick => ExpirePendingTicket();
      case ClearOwed(id) => ClearOwedTicket(id);
      case ReplyOwedTick(id, delivered) => AnswerOwed(id, delivered);
    }

    // ---- Retirement ---------------------------------------------------------------------------

    method ForceTerminalCancelled()
      modifies this`authority, this`trace
      ensures authority == ForcedAuthority(old(authority)) && trace == ForcedTrace(old(authority), old(trace))
    {
      match authority
      case Idle =>
      case Active(turn) =>
        authority := Terminal(turn.turnId, Cancelled);
        trace := trace + [ForcedTerminal(turn.turnId)];
      case Cancelling(turn) =>
        authority := Terminal(turn.turnId, Cancelled);
        trace := trace + [ForcedTerminal(turn.turnId)];
      case Terminal(turnId, _) => authority := Terminal(turnId, Cancelled);
    }

    method Retire()
      modifies this`closed, this`pending, this`owed, this`approvals, this`grants, this`timer,
               this`timerStopped, this`authority, this`trace
      ensures closed && pending == map[] && approvals == map[] && grants == map[] && timer.None? && timerStopped
      ensures owed == old(owed) + Owing(old(pending), old(pending).Keys, Deny, true)
      ensures authority == ForcedAuthority(old(authority)) && trace == ForcedTrace(old(authority), old(trace))
    {
      hide Owing, ForcedAuthority, ForcedTrace;
      closed := true;
      owed := owed + Owing(pending, pending.Keys, Deny, true);
      pending := map[];
      approvals := map[];
      grants := map[];
      timer, timerStopped := None, true;
      ForceTerminalCancelled();
    }

    /** The caller has the whole of `retire` behind it. */
    method CountPieces(who: Caller)
      modifies this`stopDone, this`readerDone
      ensures stopDone == if who.ByStop? then old(stopDone) + PIECES else old(stopDone)
      ensures readerDone == if who.ByReader? then old(readerDone) + PIECES else old(readerDone)
    {
      stopDone := if who.ByStop? then stopDone + PIECES else stopDone;
      readerDone := if who.ByReader? then readerDone + PIECES else readerDone;
    }

    method RetireFor(who: Caller)
      modifies this
      ensures Model() == RetiredState(old(Model()), who)
    {
      hide Owing, ForcedAuthority, ForcedTrace;
      Retire();
      CountPieces(who);
    }

    /** `retire` from a valid session leaves a valid one. */
    method RunRetire(who: Caller)
      requires Valid() && Retires(Model(), who)
      modifies this
      ensures Model() == After(old(Model()), RetireLabels(who)) && Valid()
    {
      hide Generation, RetireAll, RetireLabels, After, Next, RetireStep, RetiredState;
      RetireAllRuns(Model(), who);
      RetireAllIs(Model(), who);
      RetireAllKeeps(Model(), who);
      RetireFor(who);
    }

    /** `retire` also forgets the replay window. */
    method RetireSession(who: Caller, window: RequestReplayWindow)
      requires Valid() && Retires(Model(), who)
      modifies this, window
      ensures Model() == After(old(Model()), RetireLabels(who)) && Valid()
      ensures pending == map[] && approvals == map[] && grants == map[] && !authority.Active?
      ensures window.Valid() && window.offers == []
    {
      hide Generation, RetireAll, RetireLabels;
      RetireAllRuns(Model(), who);
      RetireAllIs(Model(), who);
      RunRetire(who);
      window.Clear();
    }
  }
}
