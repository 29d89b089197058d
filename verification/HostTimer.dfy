/** The one-slot expiry timer agrees with the pending slot under every interleaving. */
module HostTimer {
  import opened Common
  import opened HostTypes
  import opened HostSteps
  import opened HostGeneration
  import opened HostGenerationProof
  import opened HostEvolution
  import opened HostEvolutionProof

  /** The slot, the timer and the two threads that carry tickets. */
  datatype Slot = Slot(
    config: Config, pending: map<Id, Pending>, timer: Option<Ticket>, worker: Option<Ticket>,
    scheduling: Option<Ticket>, now: Millis, open: bool)

  function SlotOf(s: State): Slot
  {
    Slot(s.config, s.pending, s.timer, s.worker, s.scheduling, s.now, !s.closed)
  }

  /** Someone will expire the action: the timer, a worker holding it already due, or the reader. */
  predicate Covered(v: Slot, p: Pending) {
    var t := TicketFor(v.config, p);
    v.timer == Some(t) || (v.worker == Some(t) && t.expiresAt <= v.now) || v.scheduling == Some(t)
  }

  ghost predicate Agrees(v: Slot) {
    && (v.open ==> forall id :: id in v.pending ==> Covered(v, v.pending[id]))
    && (v.scheduling.Some? ==> forall id :: id in v.pending ==> TicketFor(v.config, v.pending[id]) == v.scheduling.value)
    && (v.worker.Some? ==> v.worker.value.expiresAt <= v.now)
    && OwnTicket(v.config, v.timer) && OwnTicket(v.config, v.worker) && OwnTicket(v.config, v.scheduling)
  }

  predicate OwnTicket(c: Config, t: Option<Ticket>) {
    t.Some? ==> t.value.sessionId == c.sessionId
  }

  predicate StopsOnlyClosed(s: State) {
    s.timerStopped ==> s.closed
  }

  /** Removed actions are gone from the slot; their identifiers never return to it. */
  ghost predicate Apart(s: State) {
    && OwedApart(s.owed, s.pending)
    && (s.command.Deciding? ==> s.command.pending.pendingId !in s.pending)
  }

  ghost predicate OwedApart(owed: map<Id, Owed>, pending: map<Id, Pending>) {
    forall id :: id in owed ==> id !in pending
  }

  ghost predicate TimerAgrees(s: State) {
    Agrees(SlotOf(s)) && StopsOnlyClosed(s) && Apart(s)
  }

  /** Losing actions, letting time pass and closing keep the agreement. */
  predicate Loses(v: Slot, w: Slot) {
    && w.config == v.config && w.timer == v.timer && w.worker == v.worker && w.scheduling == v.scheduling
    && v.now <= w.now && (w.open ==> v.open)
    && forall id :: id in w.pending ==> id in v.pending && w.pending[id] == v.pending[id]
  }

  lemma LosingAgrees(v: Slot, w: Slot)
    requires Agrees(v) && Loses(v, w)
    ensures Agrees(w)
  {
  }

  lemma AdmittingAgrees(v: Slot, p: Pending)
    requires Agrees(v) && v.pending == map[]
    ensures Agrees(v.(pending := v.pending[p.pendingId := p], scheduling := Some(TicketFor(v.config, p))))
  {
  }

  lemma SchedulingAgrees(v: Slot)
    requires Agrees(v) && v.scheduling.Some? && v.open
    ensures Agrees(v.(timer := v.scheduling, scheduling := None))
  {
  }

  lemma TakingAgrees(v: Slot)
    requires Agrees(v) && v.worker.None? && v.timer.Some? && v.timer.value.expiresAt <= v.now
    ensures Agrees(v.(timer := None, worker := v.timer))
  {
  }

  lemma ClearingAgrees(v: Slot, removed: Pending)
    requires Agrees(v) && removed.pendingId !in v.pending && PendingIds(v.pending)
    ensures Agrees(v.(timer := TimerWithout(v.timer, TicketFor(v.config, removed))))
  {
  }

  ghost predicate PendingIds(pending: map<Id, Pending>) {
    forall id :: id in pending ==> pending[id].pendingId == id
  }

  /** Firing removes nothing but the very action the ticket was made for, and that one is due. */
  lemma FiringIsExact(pending: map<Id, Pending>, c: Config, t: Ticket, now: Millis, id: Id)
    requires id in Matching(pending, t, now) && t.sessionId == c.sessionId
    ensures TicketFor(c, pending[id]) == t && pending[id].expiresAt <= now
  {
  }

  lemma FiringAgrees(v: Slot)
    requires Agrees(v) && v.worker.Some? && PendingIds(v.pending)
    ensures Agrees(v.(worker := None, pending := Without(v.pending, Matching(v.pending, v.worker.value, v.now))))
  {
  }

  // ---- Preservation -----------------------------------------------------------------------------

  lemma {:induction false} FrameLoses(s: State, f: Frame)
    requires FrameEnabled(s, f)
    ensures Loses(SlotOf(s), SlotOf(FrameStep(s, f)))
  {
    hide ArrivalVerdict, EvaluateVerdict, IssueDecision, RevalidateVerdict, Live, ApprovalKey;
  }

  lemma {:induction false} FrameAgrees(s: State, f: Frame)
    requires Agrees(SlotOf(s)) && FrameEnabled(s, f)
    ensures Agrees(SlotOf(FrameStep(s, f)))
  {
    hide FrameStep;
    FrameLoses(s, f);
    LosingAgrees(SlotOf(s), SlotOf(FrameStep(s, f)));
  }

  lemma {:induction false} AdmissionFillsSlot(s: State, id: Id, sent: bool)
    requires TickEnabled(s, AdmitTick(id, sent))
    ensures var v := SlotOf(s); var p := AdmittedPending(s.waiting.value, id);
            SlotOf(AdmitConfirmation(s, id, sent))
              == if AdmissionVerdict(s, s.waiting.value.confirmation).Admit?
                 then v.(pending := v.pending[id := p], scheduling := Some(TicketFor(s.config, p))) else v
    ensures AdmissionVerdict(s, s.waiting.value.confirmation).Admit? ==> s.pending == map[]
  {
    hide BindingMatches;
  }

  lemma {:induction false} AdmissionAgrees(s: State, id: Id, sent: bool)
    requires Agrees(SlotOf(s)) && TickEnabled(s, AdmitTick(id, sent))
    ensures Agrees(SlotOf(AdmitConfirmation(s, id, sent)))
  {
    hide Agrees, AdmitConfirmation, AdmissionVerdict;
    AdmissionFillsSlot(s, id, sent);
    if AdmissionVerdict(s, s.waiting.value.confirmation).Admit? {
      AdmittingAgrees(SlotOf(s), AdmittedPending(s.waiting.value, id));
    }
  }

  lemma {:induction false} OtherActLoses(s: State, a: Act)
    requires !a.ClearTakenAct? && ActEnabled(s, a)
    ensures Loses(SlotOf(s), SlotOf(ActStep(s, a)))
  {
  }

  lemma {:induction false} ActAgrees(s: State, a: Act)
    requires Agrees(SlotOf(s)) && Apart(s) && Generation(s) && ActEnabled(s, a)
    ensures Agrees(SlotOf(ActStep(s, a)))
  {
    if a.ClearTakenAct? {
      ClearingAgrees(SlotOf(s), s.command.pending);
    } else {
      OtherActLoses(s, a);
      LosingAgrees(SlotOf(s), SlotOf(ActStep(s, a)));
    }
  }

  lemma {:induction false} FireAgrees(s: State)
    requires Agrees(SlotOf(s)) && Generation(s) && s.worker.Some?
    ensures Agrees(SlotOf(WorkerFire(s)))
  {
    FiringAgrees(SlotOf(s));
  }

  lemma {:induction false} TickAgrees(s: State, t: Tick)
    requires TimerAgrees(s) && Generation(s) && TickEnabled(s, t)
    ensures Agrees(SlotOf(TickStep(s, t)))
  {
    match t
    case AdmitTick(id, sent) => AdmissionAgrees(s, id, sent);
    case CredentialTick(_, _) =>
    case ScheduleTick =>
      if !s.closed { SchedulingAgrees(SlotOf(s)); }
    case ExpirePass(at) => LosingAgrees(SlotOf(s), SlotOf(TickStep(s, t)));
    case WorkerTake => TakingAgrees(SlotOf(s));
    case WorkerFireTick => FireAgrees(s);
    case ClearOwed(id) => ClearingAgrees(SlotOf(s), s.owed[id].pending);
    case ReplyOwedTick(_, _) =>
  }

  lemma {:induction false} RetireAgrees(s: State, who: Caller, r: Retirement)
    requires Agrees(SlotOf(s)) && RetireEnabled(s, who, r)
    ensures Agrees(SlotOf(RetireStep(s, who, r)))
  {
  }

  lemma TakingOutStaysApart(owed: map<Id, Owed>, pending: map<Id, Pending>, gone: set<Id>, d: Decision, cleared: bool)
    requires OwedApart(owed, pending)
    ensures OwedApart(owed + Owing(pending, gone, d, cleared), Without(pending, gone))
  {
  }

  lemma {:induction false} FrameStaysApart(s: State, f: Frame)
    requires Apart(s) && Generation(s) && FrameEnabled(s, f)
    ensures Apart(FrameStep(s, f))
  {
  }

  lemma {:induction false} ActStaysApart(s: State, a: Act)
    requires Apart(s) && Generation(s) && ActEnabled(s, a)
    ensures Apart(ActStep(s, a))
  {
  }

  /** A fresh identifier is owed nothing and held by nobody. */
  lemma {:induction false} AdmissionStaysApart(s: State, id: Id, sent: bool)
    requires Apart(s) && Generation(s) && TickEnabled(s, AdmitTick(id, sent))
    ensures Apart(AdmitConfirmation(s, id, sent))
  {
  }

  lemma {:induction false} TickStaysApart(s: State, t: Tick)
    requires Apart(s) && Generation(s) && TickEnabled(s, t)
    ensures Apart(TickStep(s, t))
  {
    hide Generation, AdmitConfirmation, CredentialVerdict;
    match t
    case AdmitTick(id, sent) => AdmissionStaysApart(s, id, sent);
    case ExpirePass(at) => TakingOutStaysApart(s.owed, s.pending, Expired(s.pending, at), Deny, false);
    case WorkerFireTick =>
      TakingOutStaysApart(s.owed, s.pending, Matching(s.pending, s.worker.value, s.now), Deny, true);
    case _ =>
  }

  lemma {:induction false} RetireStaysApart(s: State, who: Caller, r: Retirement)
    requires Apart(s)
    ensures Apart(RetireStep(s, who, r))
  {
    if r.Drain? { TakingOutStaysApart(s.owed, s.pending, s.pending.Keys, Deny, true); }
  }

  lemma StopStaysClosed(s: State, t: State)
    requires StopsOnlyClosed(s) && Evolves(s, t)
    ensures StopsOnlyClosed(t)
  {
  }

  lemma {:induction false} ChangeAgrees(s: State, c: Change)
    requires Agrees(SlotOf(s)) && Apart(s) && ChangeEnabled(s, c)
    ensures Agrees(SlotOf(ChangeStep(s, c))) && Apart(ChangeStep(s, c))
  {
    LosingAgrees(SlotOf(s), SlotOf(ChangeStep(s, c)));
  }

  lemma {:induction false} TimerAgreesStep(s: State, l: Label)
    requires TimerAgrees(s) && Generation(s)
    ensures TimerAgrees(Next(s, l))
  {
    hide Agrees, Apart, Generation, Evolves, StopsOnlyClosed;
    StepEvolves(s, l);
    StopStaysClosed(s, Next(s, l));
    match l
    case OnFrame(f) => if FrameEnabled(s, f) { FrameAgrees(s, f); FrameStaysApart(s, f); }
    case OnAct(a) => if ActEnabled(s, a) { ActAgrees(s, a); ActStaysApart(s, a); }
    case OnTick(t) => if TickEnabled(s, t) { TickAgrees(s, t); TickStaysApart(s, t); }
    case OnRetire(who, r) => if RetireEnabled(s, who, r) { RetireAgrees(s, who, r); RetireStaysApart(s, who, r); }
    case OnChange(c) => if ChangeEnabled(s, c) { ChangeAgrees(s, c); }
  }

  /** Main result: in every reachable state of an open session, whoever must expire the stored
      action holds exactly its ticket. */
  lemma {:induction false} TimerAgreesHolds(config: Config, labels: seq<Label>)
    ensures TimerAgrees(Reach(config, labels))
    decreases |labels|
  {
    if labels != [] {
      GenerationHolds(config, labels[..|labels|-1]);
      TimerAgreesHolds(config, labels[..|labels|-1]);
      TimerAgreesStep(Reach(config, labels[..|labels|-1]), labels[|labels|-1]);
    }
  }

  /** A late clear keeps the ticket of whatever is stored, in every reachable state. */
  lemma LateClearKeepsNewerTicket(config: Config, labels: seq<Label>, id: Id, removed: Id)
    requires id in Reach(config, labels).pending && removed in Reach(config, labels).owed
    ensures var s := Reach(config, labels);
            var t := TicketFor(s.config, s.pending[id]);
            s.timer == Some(t) ==>
              TimerWithout(s.timer, TicketFor(s.config, s.owed[removed].pending)) == Some(t)
  {
    GenerationHolds(config, labels);
    TimerAgreesHolds(config, labels);
  }

  /** A worker firing an older ticket leaves the stored action in place: what it removes is the
      one action whose ticket it holds, already due. */
  lemma FiringIsNeverStale(config: Config, labels: seq<Label>, id: Id)
    requires var s := Reach(config, labels);
             s.worker.Some? && id in s.pending && id !in WorkerFire(s).pending
    ensures var s := Reach(config, labels);
            TicketFor(s.config, s.pending[id]) == s.worker.value && s.pending[id].expiresAt <= s.now
  {
    var s := Reach(config, labels);
    TimerAgreesHolds(config, labels);
    FiringIsExact(s.pending, s.config, s.worker.value, s.now, id);
  }

  /** The worker fires the ticket it holds, if any. */
  function FireHeld(s: State): State
  {
    if s.worker.Some? then WorkerFire(s) else s
  }

  lemma FireKeepsTimer(s: State, id: Id)
    requires s.worker.Some?
    ensures var u := WorkerFire(s);
            && u.timer == s.timer && u.worker.None? && u.now == s.now && u.closed == s.closed
            && u.config == s.config && u.timerStopped == s.timerStopped
            && (id in u.pending ==> id in s.pending && u.pending[id] == s.pending[id])
  {
  }

  /** The worker takes the timer's ticket, if it may. */
  function TakeDue(s: State): State
  {
    if TickEnabled(s, WorkerTake) then s.(timer := None, worker := s.timer) else s
  }

  lemma FiringKeepsTimer(s: State, id: Id)
    ensures var u := FireHeld(s);
            && u.timer == s.timer && u.worker.None? && u.now == s.now && u.closed == s.closed
            && u.config == s.config && u.timerStopped == s.timerStopped
            && (id in u.pending ==> id in s.pending && u.pending[id] == s.pending[id])
  {
    if s.worker.Some? { FireKeepsTimer(s, id); }
  }

  lemma FiringRemovesItsAction(s: State, id: Id)
    requires !s.closed && id in s.pending && s.pending[id].expiresAt <= s.now
    requires s.worker == Some(TicketFor(s.config, s.pending[id]))
    ensures id !in FireHeld(s).pending
  {
    assert id in Matching(s.pending, s.worker.value, s.now);
  }

  /** No wake-up is lost: in an open session, an action past its deadline whose ticket has been
      scheduled is removed by the worker alone, in at most three of its own moves. */
  lemma WorkerRemovesExpired(config: Config, labels: seq<Label>, id: Id)
    requires var s := Reach(config, labels);
             !s.closed && s.scheduling.None? && id in s.pending && s.pending[id].expiresAt <= s.now
    ensures id !in FireHeld(TakeDue(FireHeld(Reach(config, labels)))).pending
  {
    var s := Reach(config, labels);
    TimerAgreesHolds(config, labels);
    assert Covered(SlotOf(s), s.pending[id]);
    var u := FireHeld(s);
    var w := TakeDue(u);
    FiringKeepsTimer(s, id);
    FiringKeepsTimer(w, id);
    if s.worker == Some(TicketFor(s.config, s.pending[id])) {
      FiringRemovesItsAction(s, id);
    } else if id in u.pending {
      FiringRemovesItsAction(w, id);
    }
  }
}
