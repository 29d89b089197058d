/** What every step puts into the pending slot, the approvals and the grants, what it takes out,
    and hence what each of them holds after any run. */
module HostLedgers {
  import opened Common
  import opened HostTypes
  import opened HostSteps

  // ---- What lands in a ledger, and what leaves it -------------------------------------------------

  /** The turn whose evidence a step retires: it ends, or its cancellation begins or is repeated. */
  function RetiredTurn(s: State, l: Label): Option<Id>
  {
    match l
    case OnFrame(f) => if FrameEnabled(s, f) then FrameRetires(s, f) else None
    case OnAct(StartSentAct(sent)) =>
      if s.command.StartSending? && !sent && TurnIs(s.authority, s.command.turnId) then Some(s.command.turnId) else None
    case OnAct(BeginCancellationAct) =>
      if CoordinatorIsFree(s) && (s.authority.Active? || s.authority.Cancelling?) then Some(s.authority.turn.turnId) else None
    case _ => None
  }

  function FrameRetires(s: State, f: Frame): Option<Id>
  {
    match f
    case TurnState(session, t, phase) =>
      if session == s.config.sessionId && AcceptsPhase(s.authority, t, phase) && TerminalPhase(phase) then Some(t) else None
    case TurnCompleted(session, t, _) =>
      if session == s.config.sessionId && AcceptsPhase(s.authority, t, Completed) then Some(t) else None
    case TurnFailed(session, t, phase, _) =>
      if session == s.config.sessionId && FailurePhase(phase) && AcceptsPhase(s.authority, t, phase) then Some(t) else None
    case _ => None
  }

  /** The key a Confirm is about: the decider's call, when its final check succeeds. */
  function ConfirmedKey(s: State, l: Label): Option<string>
  {
    match l
    case OnAct(DecideAct(id, at, reachable, sent)) =>
      if ActEnabled(s, l.act) && DecideOutcome(s, s.command.pending, s.command.decision, at, reachable).Approve?
      then Some(ApprovalKey(s.command.pending.hostTurnId, s.command.pending.binding)) else None
    case _ => None
  }

  /** A delivered Confirm stores its approval. */
  function StoredKey(s: State, l: Label): Option<string>
  {
    if l.OnAct? && l.act.DecideAct? && l.act.sent then ConfirmedKey(s, l) else None
  }

  /** An issue request spends it, its turn is retired, a Confirm for the same call goes undelivered,
      or the ledger is cleared. */
  predicate ClearsApproval(s: State, l: Label, k: string) {
    || (RetiredTurn(s, l).Some? && k in s.approvals && s.approvals[k].hostTurnId == RetiredTurn(s, l).value)
    || match l
       case OnFrame(IssueFrame(r, id, c, t, e, reachable, sent)) =>
         FrameEnabled(s, l.frame) && IssueDecision(s, r, c, reachable).Spends() && k == ApprovalKey(r.hostTurnId, r.binding)
       case OnAct(DecideAct(_, _, _, sent)) => !sent && ConfirmedKey(s, l) == Some(k)
       case OnRetire(who, DropApprovals) => RetireEnabled(s, who, DropApprovals)
       case _ => false
  }

  /** A mint stores its grant, whether or not its frame can be written. */
  function MintedId(s: State, l: Label): Option<Id>
  {
    match l
    case OnFrame(IssueFrame(r, id, c, t, e, reachable, sent)) =>
      if FrameEnabled(s, l.frame) && IssueDecision(s, r, c, reachable).Issue? then Some(id) else None
    case _ => None
  }

  /** A use consumes it, an issue request reaps it as expired, its turn is retired, or the ledger is
      cleared. */
  predicate ClearsGrant(s: State, l: Label, g: Id) {
    || (RetiredTurn(s, l).Some? && g in s.grants && s.grants[g].hostTurnId == RetiredTurn(s, l).value)
    || match l
       case OnFrame(IssueFrame(r, id, c, t, e, reachable, sent)) =>
         FrameEnabled(s, l.frame) && IssueDecision(s, r, c, reachable).Reaps() && g !in Live(s.grants, c)
       case OnFrame(Revalidate(r, at, reachable, sent)) =>
         FrameEnabled(s, l.frame) && RevalidateVerdict(s, r, at, reachable).Ok? && g == r.grant.grantId
       case OnRetire(who, DropGrants) => RetireEnabled(s, who, DropGrants)
       case _ => false
  }

  /** An admission under the authority lock puts its action into the slot. */
  function AdmittedId(s: State, l: Label): Option<Id>
  {
    match l
    case OnTick(AdmitTick(id, _)) =>
      if TickEnabled(s, l.tick) && AdmissionVerdict(s, s.waiting.value.confirmation).Admit? then Some(id) else None
    case _ => None
  }

  /** Its turn is retired, a command takes it, it expires, or the slot is drained. */
  predicate ClearsSlot(s: State, l: Label, id: Id) {
    || (RetiredTurn(s, l).Some? && id in s.pending && s.pending[id].hostTurnId == RetiredTurn(s, l).value)
    || match l
       case OnAct(CancelTakeAnyAct(x, _)) => ActEnabled(s, l.act) && x == id
       case OnAct(TakePendingAct(x, _)) => ActEnabled(s, l.act) && x == id
       case OnTick(ExpirePass(at)) => s.now <= at && id in s.pending && s.pending[id].expiresAt <= at
       case OnTick(WorkerFireTick) =>
         && s.worker.Some? && !s.closed && s.worker.value.sessionId == s.config.sessionId
         && id in s.pending && TicketMatches(s.pending[id], s.worker.value, s.now)
       case OnRetire(who, Drain) => RetireEnabled(s, who, Drain)
       case _ => false
  }

  // ---- One step -----------------------------------------------------------------------------------

  predicate ApprovalsFollow(s: State, t: State, l: Label, k: string) {
    k in t.approvals <==> StoredKey(s, l) == Some(k) || (k in s.approvals && !ClearsApproval(s, l, k))
  }

  predicate GrantsFollow(s: State, t: State, l: Label, g: Id) {
    g in t.grants <==> MintedId(s, l) == Some(g) || (g in s.grants && !ClearsGrant(s, l, g))
  }

  predicate SlotFollows(s: State, t: State, l: Label, id: Id) {
    id in t.pending <==> AdmittedId(s, l) == Some(id) || (id in s.pending && !ClearsSlot(s, l, id))
  }

  predicate EvidenceFollows(s: State, t: State, l: Label, k: string, g: Id) {
    ApprovalsFollow(s, t, l, k) && GrantsFollow(s, t, l, g)
  }

  lemma LiveIsStored(grants: map<Id, StoredGrant>, now: Millis, g: Id)
    ensures g in Live(grants, now) ==> g in grants
  {
  }

  lemma {:induction false} IssueFollows(s: State, f: Frame, k: string, g: Id)
    requires f.IssueFrame? && FrameEnabled(s, f)
    ensures EvidenceFollows(s, FrameStep(s, f), OnFrame(f), k, g)
  {
    hide IssueDecision, Live, ApprovalKey;
    LiveIsStored(s.grants, f.checkedAt, g);
  }

  lemma {:induction false} TurnFrameFollows(s: State, f: Frame, k: string, g: Id)
    requires (f.TurnState? || f.TurnCompleted? || f.TurnFailed?) && FrameEnabled(s, f)
    ensures EvidenceFollows(s, FrameStep(s, f), OnFrame(f), k, g)
  {
    hide OfTurn, Without, Owing;
  }

  lemma {:induction false} FrameFollows(s: State, f: Frame, k: string, g: Id)
    requires FrameEnabled(s, f)
    ensures EvidenceFollows(s, FrameStep(s, f), OnFrame(f), k, g)
  {
    hide EvaluateVerdict, ArrivalVerdict, CredentialArrives, RevalidateVerdict;
    if f.IssueFrame? {
      IssueFollows(s, f, k, g);
    } else if f.TurnState? || f.TurnCompleted? || f.TurnFailed? {
      TurnFrameFollows(s, f, k, g);
    }
  }

  lemma {:induction false} DecideFollows(s: State, a: Act, k: string, g: Id)
    requires a.DecideAct? && ActEnabled(s, a)
    ensures EvidenceFollows(s, ActStep(s, a), OnAct(a), k, g)
  {
    hide DecideOutcome, ApprovalKey;
  }

  lemma {:induction false} StartSentFollows(s: State, sent: bool, k: string, g: Id)
    requires s.command.StartSending?
    ensures EvidenceFollows(s, StartSent(s, sent), OnAct(StartSentAct(sent)), k, g)
  {
    hide OfTurn, Without, Owing;
  }

  lemma {:induction false} CancellationFollows(s: State, k: string, g: Id)
    requires CoordinatorIsFree(s)
    ensures EvidenceFollows(s, BeginCancellation(s), OnAct(BeginCancellationAct), k, g)
  {
    hide OfTurn, Without, Owing;
  }

  lemma {:induction false} ActFollows(s: State, a: Act, k: string, g: Id)
    requires ActEnabled(s, a)
    ensures EvidenceFollows(s, ActStep(s, a), OnAct(a), k, g)
  {
    hide DecideOutcome, ApprovalKey, StartSent, BeginCancellation, DecidePending, Without, Owing;
    match a
    case StartTurnAct(_, _) =>
    case StartSentAct(sent) => StartSentFollows(s, sent, k, g);
    case BeginCancellationAct => CancellationFollows(s, k, g);
    case CancelTakeAnyAct(_, _) =>
    case CancelDoneAct =>
    case TakePendingAct(_, _) =>
    case ClearTakenAct =>
    case DecideAct(_, _, _, _) => DecideFollows(s, a, k, g);
    case StopAct =>
  }

  lemma {:induction false} TickFollows(s: State, t: Tick, k: string, g: Id)
    requires TickEnabled(s, t)
    ensures EvidenceFollows(s, TickStep(s, t), OnTick(t), k, g)
  {
    hide Without, Owing, Matching, Expired, AdmissionVerdict, CredentialVerdict;
    match t
    case AdmitTick(_, _) =>
    case CredentialTick(_, _) =>
    case ScheduleTick =>
    case ExpirePass(_) =>
    case WorkerTake =>
    case WorkerFireTick =>
    case ClearOwed(_) =>
    case ReplyOwedTick(_, _) =>
  }

  lemma {:induction false} RetireFollows(s: State, who: Caller, r: Retirement, k: string, g: Id)
    requires RetireEnabled(s, who, r)
    ensures EvidenceFollows(s, RetireStep(s, who, r), OnRetire(who, r), k, g)
  {
    hide Without, Owing;
    match r
    case Close =>
    case Drain =>
    case DropApprovals =>
    case DropGrants =>
    case StopTimer =>
    case Force =>
  }

  lemma {:induction false} ChangeFollows(s: State, c: Change, k: string, g: Id)
    ensures EvidenceFollows(s, ChangeStep(s, c), OnChange(c), k, g)
  {
    match c
    case ReaderEnds =>
    case Clock(_) =>
    case Authorize(_) =>
    case SetProvider(_) =>
  }

  predicate LabelEnabled(s: State, l: Label) {
    match l
    case OnFrame(f) => FrameEnabled(s, f)
    case OnAct(a) => ActEnabled(s, a)
    case OnTick(t) => TickEnabled(s, t)
    case OnRetire(who, r) => RetireEnabled(s, who, r)
    case OnChange(c) => ChangeEnabled(s, c)
  }

  lemma {:induction false} StandingFollows(s: State, l: Label, k: string, g: Id, id: Id)
    requires !LabelEnabled(s, l)
    ensures StoredKey(s, l).None? && !ClearsApproval(s, l, k) && MintedId(s, l).None? && !ClearsGrant(s, l, g)
    ensures AdmittedId(s, l).None? && !ClearsSlot(s, l, id)
  {
    hide IssueDecision, RevalidateVerdict, DecideOutcome, AdmissionVerdict, Live, ApprovalKey, TicketMatches;
  }

  lemma {:induction false} EvidenceOfStep(s: State, l: Label, k: string, g: Id)
    requires LabelEnabled(s, l)
    ensures EvidenceFollows(s, Next(s, l), l, k, g)
  {
    hide FrameStep, ActStep, TickStep, RetireStep, ChangeStep, FrameEnabled, ActEnabled, TickEnabled, RetireEnabled, ChangeEnabled;
    hide EvidenceFollows;
    match l
    case OnFrame(f) => FrameFollows(s, f, k, g);
    case OnAct(a) => ActFollows(s, a, k, g);
    case OnTick(t) => TickFollows(s, t, k, g);
    case OnRetire(who, r) => RetireFollows(s, who, r, k, g);
    case OnChange(c) => ChangeFollows(s, c, k, g);
  }

  // The slot, likewise.

  lemma {:induction false} FrameSlot(s: State, f: Frame, id: Id)
    requires FrameEnabled(s, f)
    ensures SlotFollows(s, FrameStep(s, f), OnFrame(f), id)
  {
    hide EvaluateVerdict, ArrivalVerdict, CredentialArrives, RevalidateVerdict, IssueDecision, Live, ApprovalKey;
    hide ApprovalsNotOf, GrantsNotOf, Owing;
  }

  lemma {:induction false} ActSlot(s: State, a: Act, id: Id)
    requires ActEnabled(s, a)
    ensures SlotFollows(s, ActStep(s, a), OnAct(a), id)
  {
    hide DecideOutcome, ApprovalKey, ApprovalsNotOf, GrantsNotOf, Owing;
    match a
    case StartTurnAct(_, _) =>
    case StartSentAct(_) =>
    case BeginCancellationAct =>
    case CancelTakeAnyAct(_, _) =>
    case CancelDoneAct =>
    case TakePendingAct(_, _) =>
    case ClearTakenAct =>
    case DecideAct(_, _, _, _) =>
    case StopAct =>
  }

  lemma {:induction false} TickSlot(s: State, t: Tick, id: Id)
    requires TickEnabled(s, t)
    ensures SlotFollows(s, TickStep(s, t), OnTick(t), id)
  {
    hide Owing, CredentialVerdict;
    match t
    case AdmitTick(_, _) =>
    case CredentialTick(_, _) =>
    case ScheduleTick =>
    case ExpirePass(_) =>
    case WorkerTake =>
    case WorkerFireTick =>
    case ClearOwed(_) =>
    case ReplyOwedTick(_, _) =>
  }

  lemma {:induction false} RetireSlot(s: State, who: Caller, r: Retirement, id: Id)
    requires RetireEnabled(s, who, r)
    ensures SlotFollows(s, RetireStep(s, who, r), OnRetire(who, r), id)
  {
    hide Owing;
  }

  lemma {:induction false} ChangeSlot(s: State, c: Change, id: Id)
    ensures SlotFollows(s, ChangeStep(s, c), OnChange(c), id)
  {
  }

  lemma {:induction false} SlotOfStep(s: State, l: Label, id: Id)
    requires LabelEnabled(s, l)
    ensures SlotFollows(s, Next(s, l), l, id)
  {
    hide FrameStep, ActStep, TickStep, RetireStep, ChangeStep, FrameEnabled, ActEnabled, TickEnabled, RetireEnabled, ChangeEnabled;
    hide SlotFollows;
    match l
    case OnFrame(f) => FrameSlot(s, f, id);
    case OnAct(a) => ActSlot(s, a, id);
    case OnTick(t) => TickSlot(s, t, id);
    case OnRetire(who, r) => RetireSlot(s, who, r, id);
    case OnChange(c) => ChangeSlot(s, c, id);
  }

  /** In every step of every thread, an approval, a grant or a pending action is in its ledger
      afterwards exactly when the step put it there, or it was there and the step does not clear it. */
  lemma {:induction false} StepFollows(s: State, l: Label, k: string, g: Id, id: Id)
    ensures ApprovalsFollow(s, Next(s, l), l, k)
    ensures GrantsFollow(s, Next(s, l), l, g)
    ensures SlotFollows(s, Next(s, l), l, id)
  {
    hide StoredKey, ClearsApproval, MintedId, ClearsGrant, AdmittedId, ClearsSlot, Next, LabelEnabled;
    if LabelEnabled(s, l) {
      EvidenceOfStep(s, l, k, g);
      SlotOfStep(s, l, id);
    } else {
      StandingFollows(s, l, k, g, id);
      StandsStill(s, l);
    }
  }

  lemma StandsStill(s: State, l: Label)
    requires !LabelEnabled(s, l)
    ensures Next(s, l) == s
  {
    hide FrameStep, ActStep, TickStep, RetireStep, ChangeStep;
  }

  // ---- Runs -----------------------------------------------------------------------------------------

  /** Something put in at one moment was cleared at no later one. */
  predicate PutAndKept(puts: seq<bool>, clears: seq<bool>) {
    exists i :: 0 <= i < |puts| && puts[i] && forall j :: i < j < |clears| ==> !clears[j]
  }

  predicate Never(clears: seq<bool>) {
    forall j :: 0 <= j < |clears| ==> !clears[j]
  }

  lemma OneMoreMoment(puts: seq<bool>, clears: seq<bool>, put: bool, clear: bool)
    requires |puts| == |clears|
    ensures PutAndKept(puts + [put], clears + [clear]) <==> put || (PutAndKept(puts, clears) && !clear)
    ensures Never(clears + [clear]) <==> Never(clears) && !clear
  {
    var n, allPuts, allClears := |puts|, puts + [put], clears + [clear];
    assert forall i :: 0 <= i < n ==> allPuts[i] == puts[i] && allClears[i] == clears[i];
    if put {
      assert allPuts[n];
    }
    if PutAndKept(puts, clears) && !clear {
      var i :| 0 <= i < n && puts[i] && forall j :: i < j < n ==> !clears[j];
      assert allPuts[i] && forall j :: i < j < |allClears| ==> !allClears[j];
    }
    assert allClears[n] == clear;
  }

  /** For each step of a run, whether it stored an approval under the key, or cleared that key. */
  function Stores(s: State, labels: seq<Label>, k: string): (r: seq<bool>)
    ensures |r| == |labels|
  {
    if labels == [] then []
    else
      var n := |labels| - 1;
      Stores(s, labels[..n], k) + [StoredKey(After(s, labels[..n]), labels[n]) == Some(k)]
  }

  function ApprovalClears(s: State, labels: seq<Label>, k: string): (r: seq<bool>)
    ensures |r| == |labels|
  {
    if labels == [] then []
    else
      var n := |labels| - 1;
      ApprovalClears(s, labels[..n], k) + [ClearsApproval(After(s, labels[..n]), labels[n], k)]
  }

  function Mints(s: State, labels: seq<Label>, g: Id): (r: seq<bool>)
    ensures |r| == |labels|
  {
    if labels == [] then []
    else
      var n := |labels| - 1;
      Mints(s, labels[..n], g) + [MintedId(After(s, labels[..n]), labels[n]) == Some(g)]
  }

  function GrantClears(s: State, labels: seq<Label>, g: Id): (r: seq<bool>)
    ensures |r| == |labels|
  {
    if labels == [] then []
    else
      var n := |labels| - 1;
      GrantClears(s, labels[..n], g) + [ClearsGrant(After(s, labels[..n]), labels[n], g)]
  }

  function Admits(s: State, labels: seq<Label>, id: Id): (r: seq<bool>)
    ensures |r| == |labels|
  {
    if labels == [] then []
    else
      var n := |labels| - 1;
      Admits(s, labels[..n], id) + [AdmittedId(After(s, labels[..n]), labels[n]) == Some(id)]
  }

  function SlotClears(s: State, labels: seq<Label>, id: Id): (r: seq<bool>)
    ensures |r| == |labels|
  {
    if labels == [] then []
    else
      var n := |labels| - 1;
      SlotClears(s, labels[..n], id) + [ClearsSlot(After(s, labels[..n]), labels[n], id)]
  }

  /** A delivered Confirm in the run stored an approval that no later step spent or cleared. */
  predicate ApprovalLeft(s: State, labels: seq<Label>, k: string) {
    PutAndKept(Stores(s, labels, k), ApprovalClears(s, labels, k))
  }

  /** The run minted a grant that no later step used, reaped or cleared. */
  predicate GrantLeft(s: State, labels: seq<Label>, g: Id) {
    PutAndKept(Mints(s, labels, g), GrantClears(s, labels, g))
  }

  /** The run admitted an action that no later step took, expired or cleared. */
  predicate ActionLeft(s: State, labels: seq<Label>, id: Id) {
    PutAndKept(Admits(s, labels, id), SlotClears(s, labels, id))
  }

  /** Over every run an approval is present exactly when a step stored it and none cleared it since,
      or it was there from the start and no step cleared it; likewise a grant and a pending action. */
  lemma {:induction false} LedgersOfRun(s: State, labels: seq<Label>, k: string, g: Id, id: Id)
    ensures k in After(s, labels).approvals <==>
              ApprovalLeft(s, labels, k) || (k in s.approvals && Never(ApprovalClears(s, labels, k)))
    ensures g in After(s, labels).grants <==>
              GrantLeft(s, labels, g) || (g in s.grants && Never(GrantClears(s, labels, g)))
    ensures id in After(s, labels).pending <==>
              ActionLeft(s, labels, id) || (id in s.pending && Never(SlotClears(s, labels, id)))
    decreases |labels|
  {
    hide StoredKey, ClearsApproval, MintedId, ClearsGrant, AdmittedId, ClearsSlot, Next, PutAndKept, Never;
    if labels == [] {
      NothingYet();
    } else {
      var n := |labels| - 1;
      var before := After(s, labels[..n]);
      LedgersOfRun(s, labels[..n], k, g, id);
      StepFollows(before, labels[n], k, g, id);
      OneMoreMoment(Stores(s, labels[..n], k), ApprovalClears(s, labels[..n], k),
                    StoredKey(before, labels[n]) == Some(k), ClearsApproval(before, labels[n], k));
      OneMoreMoment(Mints(s, labels[..n], g), GrantClears(s, labels[..n], g),
                    MintedId(before, labels[n]) == Some(g), ClearsGrant(before, labels[n], g));
      OneMoreMoment(Admits(s, labels[..n], id), SlotClears(s, labels[..n], id),
                    AdmittedId(before, labels[n]) == Some(id), ClearsSlot(before, labels[n], id));
    }
  }

  lemma NothingYet()
    ensures !PutAndKept([], []) && Never([])
  {
  }
}
