/** What a run can rely on a step for: a cancellation takes hold for good, every binding in play is
    this session's own, and every removed action is answered by the decision its removal calls for. */
module HostOutcomes {
  import opened Common
  import opened HostTypes
  import opened HostSteps
  import opened HostVerdicts
  import opened HostEffects
  import opened HostGeneration
  import opened HostGenerationProof
  import opened HostEvolution
  import opened HostEvolutionProof
  import opened HostFence
  import opened HostTimer
  import opened HostConservation
  import opened HostProgress

  // ---- Runs ------------------------------------------------------------------------------------------

  /** The trace of a run is a record: what comes later only adds to it. */
  lemma {:induction false} TraceOnlyGrows(config: Config, labels: seq<Label>, more: seq<Label>)
    ensures var s, t := Reach(config, labels), After(Reach(config, labels), more);
            |s.trace| <= |t.trace| && t.trace[..|s.trace|] == s.trace && t.config == config
    decreases |more|
  {
    hide Next, Generation, Evolves;
    if more == [] {
      ConfigStays(config, labels);
    } else {
      var n := |more| - 1;
      var u := After(Reach(config, labels), more[..n]);
      TraceOnlyGrows(config, labels, more[..n]);
      AfterBoth(Initial(config), labels, more[..n]);
      GenerationHolds(config, labels + more[..n]);
      StepEvolves(u, more[n]);
      StepOnlyAdds(u, Next(u, more[n]));
      var s, t := Reach(config, labels), Next(u, more[n]);
      assert t.trace[..|s.trace|] == t.trace[..|u.trace|][..|s.trace|];
    }
  }

  lemma StepOnlyAdds(s: State, t: State)
    requires Evolves(s, t)
    ensures |s.trace| <= |t.trace| <= |s.trace| + 1 && t.trace[..|s.trace|] == s.trace && t.config == s.config
  {
  }

  lemma {:induction false} ConfigStays(config: Config, labels: seq<Label>)
    ensures Reach(config, labels).config == config
    decreases |labels|
  {
    hide Next, Generation, Evolves;
    if labels != [] {
      var n := |labels| - 1;
      ConfigStays(config, labels[..n]);
      GenerationHolds(config, labels[..n]);
      StepEvolves(Reach(config, labels[..n]), labels[n]);
      StepOnlyAdds(Reach(config, labels[..n]), Reach(config, labels));
    }
  }

  // ---- Cancellation ----------------------------------------------------------------------------------

  const CANCEL: Label := OnAct(BeginCancellationAct)

  /** Main result: from every reachable state in which a cancelling command may begin, it moves an
      active turn to Cancelling, records that, and leaves no evidence; and whatever happens next,
      nothing ever empowers that turn again.  Any other authority, and the record, stay as they are. */
  lemma {:induction false} CancellationTakesHold(config: Config, labels: seq<Label>, more: seq<Label>)
    requires Reach(config, labels).command.NoCommand? && !Reach(config, labels).stopped
    ensures var s, t := Reach(config, labels), Next(Reach(config, labels), CANCEL);
            if s.authority.Active? then
              var turn := s.authority.turn;
              && t.authority == Authority.Cancelling(turn) && t.trace == s.trace + [CancelBegun(turn.turnId)]
              && t.pending == map[] && t.approvals == map[] && t.grants == map[]
              && forall k :: |s.trace| <= k < |After(t, more).trace| ==> !Empowers(After(t, more).trace[k], turn.turnId)
            else t.authority == s.authority && t.trace == s.trace
  {
    hide After, Next, Generation, WithoutTurn, Empowers;
    var s, t := Reach(config, labels), Next(Reach(config, labels), CANCEL);
    CancelEffect(s);
    CancellationKeeps(s);
    if s.authority.Active? {
      AfterOne(s, CANCEL);
      AfterBoth(Initial(config), labels, [CANCEL]);
      GenerationHolds(config, labels + [CANCEL]);
      CancellingIsBare(t);
      AfterBoth(Initial(config), labels + [CANCEL], more);
      TraceOnlyGrows(config, labels + [CANCEL], more);
      var tr := After(t, more).trace;
      assert tr[|s.trace|] == tr[..|t.trace|][|s.trace|] == CancelBegun(s.authority.turn.turnId);
      forall k | |s.trace| <= k < |tr| ensures !Empowers(tr[k], s.authority.turn.turnId) {
        if k > |s.trace| {
          CancellationIsAFence(config, labels + [CANCEL] + more, |s.trace|, k, s.authority.turn.turnId);
        } else {
          BeginningEmpowersNothing(s.authority.turn.turnId);
        }
      }
    }
  }

  lemma CancellationKeeps(s: State)
    requires MayAct(s, BeginCancellationAct)
    ensures forall turnId :: WithoutTurn(s, turnId).authority == s.authority && WithoutTurn(s, turnId).trace == s.trace
  {
  }

  lemma CancellingIsBare(s: State)
    requires Generation(s) && s.authority.Cancelling?
    ensures s.pending == map[] && s.approvals == map[] && s.grants == map[]
  {
  }

  lemma BeginningEmpowersNothing(turnId: Id)
    ensures !Empowers(CancelBegun(turnId), turnId)
  {
  }

  // ---- Bindings --------------------------------------------------------------------------------------

  /** The process an event acts for, if it empowers one. */
  function ProcessOf(e: Event): Option<ProcessBinding>
  {
    match e
    case ScopeAllowed(_, b, _) => Some(b)
    case Admitted(p, _, _) => Some(p.binding)
    case Replied(p, d, _, _, _) => if d.Confirm? then Some(p.binding) else None
    case GrantIssued(g, _) => Some(g.grant.binding)
    case GrantRevalidated(g, _) => Some(g.grant.binding)
    case _ => None
  }

  predicate OwnProcess(c: Config, e: Event) {
    ProcessOf(e).Some? ==> ExactProcess(c, ProcessOf(e).value)
  }

  lemma SoundIsOwn(s: State, t: State, e: Event)
    requires Evolves(s, t) && t.trace == s.trace + [e]
    ensures OwnProcess(s.config, e)
  {
    hide ExactProcess;
    assert t.trace[|s.trace|] == e;
  }

  ghost predicate AllOwn(s: State) {
    forall k :: 0 <= k < |s.trace| ==> OwnProcess(s.config, s.trace[k])
  }

  lemma {:induction false} AllOwnHolds(config: Config, labels: seq<Label>)
    ensures AllOwn(Reach(config, labels)) && Reach(config, labels).config == config
    decreases |labels|
  {
    hide Next, Generation, OwnProcess, Evolves;
    ConfigStays(config, labels);
    if labels != [] {
      var n := |labels| - 1;
      var s, t := Reach(config, labels[..n]), Reach(config, labels);
      GenerationHolds(config, labels[..n]);
      AllOwnHolds(config, labels[..n]);
      StepEvolves(s, labels[n]);
      StepOnlyAdds(s, t);
      forall k | 0 <= k < |t.trace| ensures OwnProcess(t.config, t.trace[k]) {
        if k < |s.trace| {
          assert t.trace[k] == t.trace[..|s.trace|][k] == s.trace[k];
        } else {
          assert t.trace == s.trace + [t.trace[k]];
          SoundIsOwn(s, t, t.trace[k]);
        }
      }
    }
  }

  /** Main result: in every run, whatever is allowed, admitted, confirmed, granted or used is the one
      process of this session, life and task, in the session's own workspace. */
  lemma EveryProcessIsOwn(config: Config, labels: seq<Label>, k: nat)
    requires k < |Reach(config, labels).trace| && ProcessOf(Reach(config, labels).trace[k]).Some?
    ensures var b := ProcessOf(Reach(config, labels).trace[k]).value;
            && b.sessionId == config.sessionId && b.lifeId == config.lifeId && b.taskId == config.taskId
            && b.capabilityId == "vita.process.workspace.git_status"
            && b.programId == "d29h7c.git.status.v1" && b.profileId == "d29h7c.git.status.v1"
            && b.workspaceIdentity == config.workspaceIdentity
            && |b.gitFenceHash| == 64
            && forall i :: 0 <= i < 64 ==> '0' <= b.gitFenceHash[i] <= '9' || 'a' <= b.gitFenceHash[i] <= 'f'
  {
    AllOwnHolds(config, labels);
    assert OwnProcess(config, Reach(config, labels).trace[k]);
  }

  // ---- Answers ---------------------------------------------------------------------------------------

  /** What an action that leaves the slot in this step is owed: what the user decided is up to its
      decider, an overdue or drained one is owed Deny, and one whose turn is retired Cancel. */
  predicate AnsweredFor(s: State, l: Label, t: State, id: Id)
    requires id in s.pending
  {
    match l
    case OnAct(TakePendingAct(_, d)) => t.command == Command.Deciding(s.pending[id], d, false)
    case OnAct(CancelTakeAnyAct(_, at)) => id in t.owed && t.owed[id] == Owed(s.pending[id], if s.pending[id].expiresAt <= at then Deny else Cancel, false)
    case OnTick(ExpirePass(at)) => id in t.owed && t.owed[id] == Owed(s.pending[id], Deny, false) && s.pending[id].expiresAt <= at
    case OnTick(WorkerFireTick) => id in t.owed && t.owed[id] == Owed(s.pending[id], Deny, true) && s.pending[id].expiresAt <= s.now
    case OnRetire(_, Drain) => id in t.owed && t.owed[id] == Owed(s.pending[id], Deny, true)
    case OnFrame(_) => id in t.owed && t.owed[id] == Owed(s.pending[id], Cancel, false)
    case OnAct(StartSentAct(_)) => id in t.owed && t.owed[id] == Owed(s.pending[id], Cancel, false)
    case OnAct(BeginCancellationAct) => id in t.owed && t.owed[id] == Owed(s.pending[id], Cancel, false)
    case _ => false
  }

  lemma {:induction false} RequestKeepsSlot(s: State, f: Frame)
    requires MayFrame(s, f) && !f.TurnState? && !f.TurnCompleted? && !f.TurnFailed?
    ensures Next(s, OnFrame(f)).pending == s.pending
  {
    hide EvaluateVerdict, ArrivalVerdict, CredentialArrives, IssueDecision, RevalidateVerdict, Live, ApprovalKey;
  }

  lemma TurnRemoves(s: State, turnId: Id, id: Id)
    requires id in s.pending && id !in PendingOfOthers(s.pending, turnId)
    ensures var t := WithoutTurn(s, turnId); id in t.owed && t.owed[id] == Owed(s.pending[id], Cancel, false)
  {
  }

  lemma {:induction false} FrameRemoves(s: State, f: Frame, id: Id)
    requires MayFrame(s, f) && id in s.pending && id !in Next(s, OnFrame(f)).pending
    ensures AnsweredFor(s, OnFrame(f), Next(s, OnFrame(f)), id)
  {
    hide Next, PendingOfOthers, CancelledOf, ApprovalsOfOthers, GrantsOfOthers, LiveTurn;
    match f
    case TurnState(session, turnId, phase) => ReportEffect(s, session, turnId, phase); TurnRemoves(s, turnId, id);
    case TurnCompleted(session, turnId, m) => CompletionEffect(s, session, turnId, m); TurnRemoves(s, turnId, id);
    case TurnFailed(session, turnId, phase, code) => FailureEffect(s, session, turnId, phase, code); TurnRemoves(s, turnId, id);
    case _ => RequestKeepsSlot(s, f);
  }

  lemma {:induction false} CommandRemoves(s: State, a: Act, id: Id)
    requires MayAct(s, a) && (a.CancelTakeAnyAct? || a.CancelDoneAct? || a.TakePendingAct? || a.ClearTakenAct? || a.StopAct?)
    requires id in s.pending && id !in Next(s, OnAct(a)).pending
    ensures AnsweredFor(s, OnAct(a), Next(s, OnAct(a)), id)
  {
    hide Next;
    CommandEffect(s, a);
  }

  lemma {:induction false} ActRemoves(s: State, a: Act, id: Id)
    requires MayAct(s, a) && id in s.pending && id !in Next(s, OnAct(a)).pending
    ensures AnsweredFor(s, OnAct(a), Next(s, OnAct(a)), id)
  {
    hide Next, KeyOf, DecisionAnswer, PendingOfOthers, CancelledOf, ApprovalsOfOthers, GrantsOfOthers;
    match a
    case StartTurnAct(x, admitted) => StartEffect(s, x, admitted);
    case StartSentAct(sent) => AnnounceEffect(s, sent); TurnRemoves(s, s.command.turnId, id);
    case BeginCancellationAct =>
      CancelEffect(s);
      if s.authority.Active? || s.authority.Cancelling? { TurnRemoves(s, s.authority.turn.turnId, id); }
    case DecideAct(x, at, reachable, sent) => DecideEffect(s, x, at, reachable, sent);
    case _ => CommandRemoves(s, a, id);
  }

  lemma {:induction false} AdmissionKeepsSlot(s: State, x: Id, sent: bool, id: Id)
    requires MayTick(s, AdmitTick(x, sent)) && id in s.pending
    ensures id in Next(s, OnTick(AdmitTick(x, sent))).pending
  {
    hide Next, LiveCall;
    AdmissionEffect(s, x, sent);
  }

  lemma {:induction false} OtherTickKeepsSlot(s: State, t: Tick)
    requires !t.AdmitTick? && !t.ExpirePass? && !t.WorkerFireTick?
    ensures Next(s, OnTick(t)).pending == s.pending
  {
    hide CredentialVerdict;
  }

  lemma {:induction false} TickRemoves(s: State, t: Tick, id: Id)
    requires MayTick(s, t) && id in s.pending && id !in Next(s, OnTick(t)).pending
    ensures AnsweredFor(s, OnTick(t), Next(s, OnTick(t)), id)
  {
    hide Next;
    match t
    case AdmitTick(x, sent) => AdmissionKeepsSlot(s, x, sent, id);
    case ExpirePass(at) => ExpiryEffect(s, at);
    case WorkerFireTick => FireEffect(s);
    case _ => OtherTickKeepsSlot(s, t);
  }

  /** Main result: every step that removes an action from the slot hands it to its decider with the
      user's decision, or owes it exactly the answer its removal calls for. */
  lemma {:induction false} RemovalIsAnswered(s: State, l: Label, id: Id)
    requires id in s.pending && id !in Next(s, l).pending
    ensures AnsweredFor(s, l, Next(s, l), id)
  {
    hide Next, AnsweredFor, MayFrame, MayAct, MayTick, MayPiece, MayChange;
    if !May(s, l) {
      OtherwiseNothing(s, l);
    }
    match l
    case OnFrame(f) => FrameRemoves(s, f, id);
    case OnAct(a) => ActRemoves(s, a, id);
    case OnTick(t) => TickRemoves(s, t, id);
    case OnRetire(who, r) => RetireRemoves(s, who, r, id);
    case OnChange(c) => ChangeEffect(s, c);
  }

  lemma {:induction false} RetireRemoves(s: State, who: Caller, r: Retirement, id: Id)
    requires MayPiece(s, who, r) && id in s.pending && id !in Next(s, OnRetire(who, r)).pending
    ensures AnsweredFor(s, OnRetire(who, r), Next(s, OnRetire(who, r)), id)
  {
    hide Next;
    RetireEffect(s, who, r);
  }

  /** An action owed an answer stays owed the same one. */
  predicate StaysOwed(s: State, t: State, id: Id)
    requires id in s.owed
  {
    id in t.owed && t.owed[id].pending == s.owed[id].pending && t.owed[id].decision == s.owed[id].decision
  }

  lemma RetiringTurnKeepsOwed(s: State, retires: bool, turnId: Id, id: Id)
    requires OwedApart(s.owed, s.pending) && id in s.owed
    ensures StaysOwed(s, RetireEvidence(s, retires, turnId), id)
  {
  }

  lemma {:induction false} RequestKeepsOwed(s: State, f: Frame, id: Id)
    requires id in s.owed && !f.TurnState? && !f.TurnCompleted? && !f.TurnFailed?
    ensures StaysOwed(s, Next(s, OnFrame(f)), id)
  {
    hide EvaluateVerdict, ArrivalVerdict, CredentialArrives, IssueDecision, RevalidateVerdict, Live, ApprovalKey;
  }

  lemma {:induction false} FrameKeepsOwed(s: State, f: Frame, id: Id)
    requires OwedApart(s.owed, s.pending) && id in s.owed
    ensures StaysOwed(s, Next(s, OnFrame(f)), id)
  {
    hide EvaluateVerdict, ArrivalVerdict, CredentialArrives, IssueDecision, RevalidateVerdict, Live, ApprovalKey, RetireEvidence;
    match f
    case TurnState(_, turnId, phase) => RetiringTurnKeepsOwed(s, f.sessionId == s.config.sessionId && AcceptsPhase(s.authority, turnId, phase) && TerminalPhase(phase), turnId, id);
    case TurnCompleted(_, turnId, _) => RetiringTurnKeepsOwed(s, f.sessionId == s.config.sessionId && AcceptsPhase(s.authority, turnId, Completed) && TerminalPhase(Completed), turnId, id);
    case TurnFailed(_, turnId, phase, _) => RetiringTurnKeepsOwed(s, f.sessionId == s.config.sessionId && FailurePhase(phase) && AcceptsPhase(s.authority, turnId, phase), turnId, id);
    case _ => RequestKeepsOwed(s, f, id);
  }

  lemma {:induction false} ActKeepsOwed(s: State, a: Act, id: Id)
    requires OwedApart(s.owed, s.pending) && id in s.owed
    ensures StaysOwed(s, Next(s, OnAct(a)), id)
  {
    hide DecideOutcome, ApprovalKey, RetireEvidence;
    match a
    case StartSentAct(sent) =>
      if s.command.StartSending? { RetiringTurnKeepsOwed(s, !sent && TurnIs(s.authority, s.command.turnId), s.command.turnId, id); }
    case BeginCancellationAct =>
      var found := s.authority.Active? || s.authority.Cancelling?;
      RetiringTurnKeepsOwed(s, found, if found then s.authority.turn.turnId else s.config.sessionId, id);
    case _ =>
  }

  lemma {:induction false} RemovalKeepsOwed(s: State, t: Tick, id: Id)
    requires OwedApart(s.owed, s.pending) && id in s.owed && (t.ExpirePass? || t.WorkerFireTick?)
    ensures StaysOwed(s, Next(s, OnTick(t)), id)
  {
    hide Next;
    if !MayTick(s, t) {
      OtherwiseNothing(s, OnTick(t));
    } else if t.ExpirePass? {
      ExpiryEffect(s, t.at);
    } else {
      FireEffect(s);
    }
  }

  lemma {:induction false} OtherTickKeepsOwed(s: State, t: Tick, id: Id)
    requires id in s.owed && !t.ExpirePass? && !t.WorkerFireTick? && !(t.ReplyOwedTick? && t.id == id)
    ensures StaysOwed(s, Next(s, OnTick(t)), id)
  {
    hide AdmissionVerdict, CredentialVerdict, Without, Owing;
  }

  lemma {:induction false} TickKeepsOwed(s: State, t: Tick, id: Id)
    requires OwedApart(s.owed, s.pending) && id in s.owed && !(t.ReplyOwedTick? && t.id == id)
    ensures StaysOwed(s, Next(s, OnTick(t)), id)
  {
    match t
    case ExpirePass(_) => RemovalKeepsOwed(s, t, id);
    case WorkerFireTick => RemovalKeepsOwed(s, t, id);
    case _ => OtherTickKeepsOwed(s, t, id);
  }

  lemma {:induction false} PieceOwes(s: State, who: Caller, r: Retirement)
    ensures RetireStep(s, who, r).owed == if r.Drain? then s.owed + Owing(s.pending, s.pending.Keys, Deny, true) else s.owed
  {
    hide Without, Owing;
  }

  lemma {:induction false} RetireKeepsOwed(s: State, who: Caller, r: Retirement, id: Id)
    requires OwedApart(s.owed, s.pending) && id in s.owed
    ensures StaysOwed(s, Next(s, OnRetire(who, r)), id)
  {
    hide RetireStep, RetireEnabled;
    PieceOwes(s, who, r);
  }

  lemma {:induction false} ChangeKeepsOwed(s: State, c: Change, id: Id)
    requires id in s.owed
    ensures StaysOwed(s, Next(s, OnChange(c)), id)
  {
  }

  /** Only its own answer takes an action out of what is owed. */
  lemma {:induction false} StepKeepsOwed(s: State, l: Label, id: Id)
    requires Apart(s) && id in s.owed
    ensures StaysOwed(s, Next(s, l), id) || (l.OnTick? && l.tick.ReplyOwedTick? && l.tick.id == id)
  {
    hide Next, StaysOwed;
    match l
    case OnFrame(f) => FrameKeepsOwed(s, f, id);
    case OnAct(a) => ActKeepsOwed(s, a, id);
    case OnTick(t) => if !(t.ReplyOwedTick? && t.id == id) { TickKeepsOwed(s, t, id); }
    case OnRetire(who, r) => RetireKeepsOwed(s, who, r, id);
    case OnChange(c) => ChangeKeepsOwed(s, c, id);
  }

  predicate Answers(e: Event, id: Id) {
    e.Replied? && e.pending.pendingId == id
  }

  lemma {:induction false} ReplyTickAnswers(s: State, id: Id, sent: bool)
    requires id in s.owed
    ensures var t := Next(s, OnTick(ReplyOwedTick(id, sent)));
            t == s || t.trace == s.trace + [Replied(s.owed[id].pending, s.owed[id].decision, None, sent, s.now)]
  {
    hide Next;
    if s.owed[id].cleared { TickEffect(s, ReplyOwedTick(id, sent)); } else { OtherwiseNothing(s, OnTick(ReplyOwedTick(id, sent))); }
  }

  /** While it stays owed no step answers it: it is held once and admitted once. */
  lemma KeptIsUnanswered(s: State, t: State, id: Id)
    requires Balanced(s, id) && Moves(s, t, id) && id in s.owed && StaysOwed(s, t, id)
    ensures Emits(s, t) ==> !Answers(t.trace[|s.trace|], id)
  {
    hide Admissions, Replies;
  }

  /** The answer of an owed action carries its decision, and no other step answers it. */
  lemma {:induction false} OwedIsAnswered(s: State, l: Label, id: Id)
    requires Generation(s) && Apart(s) && Balanced(s, id) && id in s.owed
    ensures var t := Next(s, l);
            Emits(s, t) && Answers(t.trace[|s.trace|], id) ==>
              t.trace[|s.trace|].decision == s.owed[id].decision && t.trace[|s.trace|].approval.None?
    ensures StaysOwed(s, Next(s, l), id) || (Emits(s, Next(s, l)) && Answers(Next(s, l).trace[|s.trace|], id))
  {
    hide Next, Generation, StaysOwed, Balanced, Moves, Apart;
    StepMoves(s, l, id);
    StepKeepsOwed(s, l, id);
    StaysItself(s, id);
    if StaysOwed(s, Next(s, l), id) {
      KeptIsUnanswered(s, Next(s, l), id);
    } else {
      ReplyTickAnswers(s, id, l.tick.sent);
      OwedIsKeyed(s, id);
    }
  }

  lemma StaysItself(s: State, id: Id)
    requires id in s.owed
    ensures StaysOwed(s, s, id)
  {
  }

  lemma OwedIsKeyed(s: State, id: Id)
    requires Generation(s) && id in s.owed
    ensures s.owed[id].pending.pendingId == id
  {
  }

  /** Main result: once an action was removed and is owed an answer, whatever happens next, every answer
      it gets carries the decision it was removed with, and no approval. */
  lemma {:induction false} OwedAnswersAreKept(config: Config, labels: seq<Label>, id: Id, more: seq<Label>)
    requires id in Reach(config, labels).owed
    ensures var s, t := Reach(config, labels), After(Reach(config, labels), more);
            && (forall k :: |s.trace| <= k < |t.trace| && Answers(t.trace[k], id) ==>
                  t.trace[k].decision == s.owed[id].decision && t.trace[k].approval.None?)
            && ((id in t.owed && t.owed[id].decision == s.owed[id].decision) || Replies(t.trace, id) >= 1)
    decreases |more|
  {
    hide Next, Generation, Evolves, Apart, Replies, Admissions, Held;
    if more != [] {
      var n := |more| - 1;
      var s, u, t := Reach(config, labels), After(Reach(config, labels), more[..n]), After(Reach(config, labels), more);
      OwedAnswersAreKept(config, labels, id, more[..n]);
      AfterBoth(Initial(config), labels, more[..n]);
      AfterBoth(Initial(config), labels, more);
      GenerationHolds(config, labels + more[..n]);
      TimerAgreesHolds(config, labels + more[..n]);
      ConfirmationsAreConserved(config, labels + more[..n]);
      ConfirmationsAreConserved(config, labels + more);
      StepEvolves(u, more[n]);
      StepOnlyAdds(u, t);
      assert forall k :: 0 <= k < |u.trace| ==> t.trace[k] == t.trace[..|u.trace|][k];
      RepliesGrow(u.trace, t.trace, id);
      assert Balanced(u, id) && Balanced(t, id);
      if id in u.owed && u.owed[id].decision == s.owed[id].decision {
        OwedIsAnswered(u, more[n], id);
      }
    }
  }

  lemma RepliesGrow(before: Trace, after: Trace, id: Id)
    requires |before| <= |after| <= |before| + 1 && after[..|before|] == before
    ensures Replies(after, id) == Replies(before, id) + if |after| > |before| && Answers(after[|before|], id) then 1 else 0
  {
    if |after| == |before| {
      assert after == before;
    }
  }
}
