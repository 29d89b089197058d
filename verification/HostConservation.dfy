/** Conservation of confirmations: every admitted action is, at every moment of every run, in
    exactly one place - stored, held by its decider, owed an answer, or answered once. */
module HostConservation {
  import opened Common
  import opened HostTypes
  import opened HostSteps
  import opened HostGeneration
  import opened HostGenerationProof
  import opened HostEvolution
  import opened HostEvolutionProof
  import opened HostTimer

  function Admissions(tr: Trace, id: Id): nat
  {
    if tr == [] then 0
    else Admissions(tr[..|tr|-1], id) + AdmittedBy(tr[|tr|-1], id)
  }

  function AdmittedBy(e: Event, id: Id): nat
  {
    if e.Admitted? && e.pending.pendingId == id then 1 else 0
  }

  function Replies(tr: Trace, id: Id): nat
  {
    if tr == [] then 0
    else Replies(tr[..|tr|-1], id) + AnsweredBy(tr[|tr|-1], id)
  }

  function AnsweredBy(e: Event, id: Id): nat
  {
    if e.Replied? && e.pending.pendingId == id then 1 else 0
  }

  /** How many places hold the action. */
  function HeldIn(pending: map<Id, Pending>, owed: map<Id, Owed>, c: Command, id: Id): nat
  {
    (if id in pending then 1 else 0) + (if id in owed then 1 else 0)
    + (if c.Deciding? && c.pending.pendingId == id then 1 else 0)
  }

  function Held(s: State, id: Id): nat
  {
    HeldIn(s.pending, s.owed, s.command, id)
  }

  ghost predicate Conserved(s: State) {
    forall id :: Balanced(s, id)
  }

  ghost predicate Balanced(s: State, id: Id) {
    && Admissions(s.trace, id) == Replies(s.trace, id) + Held(s, id)
    && Admissions(s.trace, id) <= 1
    && (Admissions(s.trace, id) == 1 ==> id in s.usedIds)
  }

  /** One step moves the action between places; only admission creates and only an answer ends. */
  ghost predicate Moves(s: State, t: State, id: Id) {
    if Emits(s, t) then
      Held(t, id) + AnsweredBy(t.trace[|s.trace|], id) == Held(s, id) + AdmittedBy(t.trace[|s.trace|], id)
    else Held(t, id) == Held(s, id)
  }

  lemma TakingHolds(pending: map<Id, Pending>, owed: map<Id, Owed>, c: Command, gone: set<Id>,
                    d: Decision, cleared: bool, id: Id)
    requires OwedApart(owed, pending)
    ensures HeldIn(Without(pending, gone), owed + Owing(pending, gone, d, cleared), c, id)
            == HeldIn(pending, owed, c, id)
  {
  }

  lemma {:induction false} TurnStateMoves(s: State, session: Id, t: Id, phase: Phase, id: Id)
    requires Apart(s)
    ensures Moves(s, TurnStateFrame(s, session, t, phase), id)
  {
    TakingHolds(s.pending, s.owed, s.command, OfTurn(s.pending, t), Cancel, false, id);
  }

  lemma {:induction false} TurnCompletedMoves(s: State, session: Id, t: Id, text: string, id: Id)
    requires Apart(s)
    ensures Moves(s, TurnCompletedFrame(s, session, t, text), id)
  {
    TakingHolds(s.pending, s.owed, s.command, OfTurn(s.pending, t), Cancel, false, id);
  }

  lemma {:induction false} TurnFailedMoves(s: State, session: Id, t: Id, phase: Phase, code: string, id: Id)
    requires Apart(s)
    ensures Moves(s, TurnFailedFrame(s, session, t, phase, code), id)
  {
    TakingHolds(s.pending, s.owed, s.command, OfTurn(s.pending, t), Cancel, false, id);
  }

  lemma {:induction false} AdmissionMoves(s: State, key: Id, sent: bool, id: Id)
    requires Generation(s) && TickEnabled(s, AdmitTick(key, sent))
    ensures Moves(s, AdmitConfirmation(s, key, sent), id)
  {
  }

  lemma {:induction false} IssueMoves(s: State, r: IssueRequest, g: Id, c: Millis, t: Millis, e: Millis, reachable: bool, sent: bool, id: Id)
    ensures Moves(s, IssueGrant(s, r, g, c, t, e, reachable, sent), id)
  {
    hide IssueDecision, Live, ApprovalKey, NewGrant;
  }

  lemma {:induction false} RevalidateMoves(s: State, r: RevalidateRequest, at: Millis, reachable: bool, sent: bool, id: Id)
    ensures Moves(s, RevalidateGrant(s, r, at, reachable, sent), id)
  {
    hide RevalidateVerdict;
  }

  lemma {:induction false} EvaluateMoves(s: State, r: EvaluateRequest, reachable: bool, sent: bool, id: Id)
    ensures Moves(s, AuthorityEvaluate(s, r, reachable, sent), id)
  {
    hide EvaluateVerdict;
  }

  lemma {:induction false} ConfirmationMoves(s: State, r: ConfirmationRequest, at: Millis, sent: bool, id: Id)
    ensures Moves(s, ConfirmationRequired(s, r, at, sent), id)
  {
    hide ArrivalVerdict;
  }

  lemma {:induction false} CredentialMoves(s: State, r: CredentialRequest, sent: bool, id: Id)
    ensures Moves(s, CredentialRequired(s, r, sent), id)
  {
    hide CredentialArrives;
  }

  lemma {:induction false} FrameMoves(s: State, f: Frame, id: Id)
    requires Apart(s) && FrameEnabled(s, f)
    ensures Moves(s, FrameStep(s, f), id)
  {
    hide Moves, Apart, AuthorityEvaluate, ConfirmationRequired, IssueGrant, RevalidateGrant, CredentialRequired;
    hide TurnStateFrame, TurnCompletedFrame, TurnFailedFrame;
    match f
    case Evaluate(r, reachable, sent) => EvaluateMoves(s, r, reachable, sent, id);
    case Confirmation(r, at, sent) => ConfirmationMoves(s, r, at, sent, id);
    case IssueFrame(r, g, c, t, e, reachable, sent) => IssueMoves(s, r, g, c, t, e, reachable, sent, id);
    case Revalidate(r, at, reachable, sent) => RevalidateMoves(s, r, at, reachable, sent, id);
    case Credential(r, sent) => CredentialMoves(s, r, sent, id);
    case TurnState(session, t, phase) => TurnStateMoves(s, session, t, phase, id);
    case TurnCompleted(session, t, text) => TurnCompletedMoves(s, session, t, text, id);
    case TurnFailed(session, t, phase, code) => TurnFailedMoves(s, session, t, phase, code, id);
  }

  lemma {:induction false} StartSentMoves(s: State, sent: bool, id: Id)
    requires Apart(s) && s.command.StartSending?
    ensures Moves(s, StartSent(s, sent), id)
  {
    TakingHolds(s.pending, s.owed, s.command, OfTurn(s.pending, s.command.turnId), Cancel, false, id);
  }

  lemma {:induction false} CancellationMoves(s: State, id: Id)
    requires Apart(s) && s.command.NoCommand?
    ensures Moves(s, BeginCancellation(s), id)
  {
    if s.authority.Active? || s.authority.Cancelling? {
      TakingHolds(s.pending, s.owed, s.command, OfTurn(s.pending, s.authority.turn.turnId), Cancel, false, id);
    }
  }

  lemma {:induction false} TakePendingMoves(s: State, key: Id, d: Decision, id: Id)
    requires Generation(s) && s.command.NoCommand? && key in s.pending
    ensures Moves(s, TakePending(s, key, d), id)
  {
  }

  lemma {:induction false} CancelTakeAnyMoves(s: State, key: Id, at: Millis, id: Id)
    requires Apart(s) && key in s.pending
    ensures Moves(s, CancelTakeAny(s, key, at), id)
  {
    TakingHolds(s.pending, s.owed, s.command, {key}, if s.pending[key].expiresAt <= at then Deny else Cancel, false, id);
  }

  lemma {:induction false} DecideMoves(s: State, cid: Id, at: Millis, reachable: bool, sent: bool, id: Id)
    requires s.command.Deciding?
    ensures Moves(s, DecidePending(s, cid, at, reachable, sent), id)
  {
  }

  lemma {:induction false} ActMoves(s: State, a: Act, id: Id)
    requires Apart(s) && Generation(s) && ActEnabled(s, a)
    ensures Moves(s, ActStep(s, a), id)
  {
    match a
    case StartTurnAct(_, _) =>
    case StartSentAct(sent) => StartSentMoves(s, sent, id);
    case BeginCancellationAct => CancellationMoves(s, id);
    case CancelTakeAnyAct(key, at) => CancelTakeAnyMoves(s, key, at, id);
    case CancelDoneAct =>
    case TakePendingAct(key, d) => TakePendingMoves(s, key, d, id);
    case ClearTakenAct =>
    case DecideAct(cid, at, reachable, sent) => DecideMoves(s, cid, at, reachable, sent, id);
    case StopAct =>
  }

  lemma {:induction false} CredentialAnswerMoves(s: State, stored: bool, sent: bool, id: Id)
    requires TickEnabled(s, CredentialTick(stored, sent))
    ensures Moves(s, AnswerCredential(s, stored, sent), id)
  {
    hide CredentialVerdict;
  }

  lemma {:induction false} ExpireMoves(s: State, at: Millis, id: Id)
    requires Apart(s)
    ensures Moves(s, TakeOut(s.(now := at), Expired(s.pending, at), Deny, false), id)
  {
    hide Expired;
    TakingHolds(s.pending, s.owed, s.command, Expired(s.pending, at), Deny, false, id);
  }

  lemma {:induction false} FireMoves(s: State, id: Id)
    requires Apart(s) && s.worker.Some?
    ensures Moves(s, WorkerFire(s), id)
  {
    hide Matching;
    TakingHolds(s.pending, s.owed, s.command, Matching(s.pending, s.worker.value, s.now), Deny, true, id);
  }

  lemma {:induction false} ClearOwedMoves(s: State, key: Id, id: Id)
    requires key in s.owed
    ensures Moves(s, ClearForOwed(s, key), id)
  {
  }

  lemma {:induction false} ReplyOwedMoves(s: State, key: Id, sent: bool, id: Id)
    requires Generation(s) && key in s.owed
    ensures Moves(s, ReplyOwed(s, key, sent), id)
  {
  }

  lemma {:induction false} TickMoves(s: State, t: Tick, id: Id)
    requires Apart(s) && Generation(s) && TickEnabled(s, t)
    ensures Moves(s, TickStep(s, t), id)
  {
    hide AdmitConfirmation, AnswerCredential, TakeOut, WorkerFire, ClearForOwed, ReplyOwed, Generation, Apart;
    match t
    case AdmitTick(key, sent) => AdmissionMoves(s, key, sent, id);
    case CredentialTick(stored, sent) => CredentialAnswerMoves(s, stored, sent, id);
    case ScheduleTick =>
    case ExpirePass(at) => ExpireMoves(s, at, id);
    case WorkerTake =>
    case WorkerFireTick => FireMoves(s, id);
    case ClearOwed(key) => ClearOwedMoves(s, key, id);
    case ReplyOwedTick(key, sent) => ReplyOwedMoves(s, key, sent, id);
  }

  lemma {:induction false} RetireMoves(s: State, who: Caller, r: Retirement, id: Id)
    requires Apart(s)
    ensures Moves(s, RetireStep(s, who, r), id)
  {
    TakingHolds(s.pending, s.owed, s.command, s.pending.Keys, Deny, true, id);
  }

  lemma {:induction false} ChangeMoves(s: State, c: Change, id: Id)
    ensures Moves(s, ChangeStep(s, c), id)
  {
  }

  lemma {:induction false} StepMoves(s: State, l: Label, id: Id)
    requires Apart(s) && Generation(s)
    ensures Moves(s, Next(s, l), id)
  {
    match l
    case OnFrame(f) => if FrameEnabled(s, f) { FrameMoves(s, f, id); }
    case OnAct(a) => if ActEnabled(s, a) { ActMoves(s, a, id); }
    case OnTick(t) => if TickEnabled(s, t) { TickMoves(s, t, id); }
    case OnRetire(who, r) => if RetireEnabled(s, who, r) { RetireMoves(s, who, r, id); }
    case OnChange(c) => if ChangeEnabled(s, c) { ChangeMoves(s, c, id); }
  }

  /** An admitted identifier was fresh, so it is admitted once. */
  lemma AdmissionIsFresh(s: State, t: State, e: Event)
    requires Evolves(s, t) && t.trace == s.trace + [e] && e.Admitted?
    ensures Fresh(s, e.pending.pendingId) && e.pending.pendingId in t.usedIds
  {
    assert t.trace[|s.trace|] == e;
  }

  lemma BalancedStep(s: State, t: State, id: Id)
    requires Balanced(s, id) && Evolves(s, t) && Moves(s, t, id)
    ensures Balanced(t, id)
  {
    if Emits(s, t) {
      var e := t.trace[|s.trace|];
      assert t.trace == s.trace + [e] && t.trace[..|t.trace|-1] == s.trace;
      if e.Admitted? { AdmissionIsFresh(s, t, e); }
    }
  }

  /** Main result: in every reachable state each action is admitted at most once, and an admitted
      one is either answered exactly once or in exactly one place. */
  lemma {:induction false} ConfirmationsAreConserved(config: Config, labels: seq<Label>)
    ensures Conserved(Reach(config, labels))
    decreases |labels|
  {
    if labels != [] {
      var n := |labels| - 1;
      var s := Reach(config, labels[..n]);
      GenerationHolds(config, labels[..n]);
      TimerAgreesHolds(config, labels[..n]);
      ConfirmationsAreConserved(config, labels[..n]);
      StepEvolves(s, labels[n]);
      forall id ensures Balanced(Next(s, labels[n]), id) {
        StepMoves(s, labels[n], id);
        BalancedStep(s, Next(s, labels[n]), id);
      }
    }
  }
}
