/** The chain is not only necessary but sufficient: a confirmed call under an unchanged
    authorization is granted and passes its revalidation.  The same steps give the runs that
    show where a stated bound ends. */
module HostProgress {
  import opened Common
  import opened HostTypes
  import opened HostSteps
  import opened HostChain
  import opened HostChainProof
  import opened HostTheorems

  /** An active turn whose sidecar is served and whose authorization stands. */
  predicate Working(s: State, turnId: Id, b: ProcessBinding) {
    && ReaderIsFree(s)
    && s.authority.Active? && s.authority.turn.turnId == turnId
    && ValidBinding(s.config, b)
    && s.authorization.enabled
  }

  /** The turn's Codex turn is not known yet, or is the call's. */
  predicate MayLearn(s: State, b: ProcessBinding)
    requires s.authority.Active?
  {
    s.authority.turn.codexTurn.None? || s.authority.turn.codexTurn == Some(b.turnId)
  }

  predicate Exact(s: State, r: ConfirmationRequest) {
    r.sessionId == s.config.sessionId && r.lifeId == s.config.lifeId && r.taskId == s.config.taskId
    && r.capabilityId == CAPABILITY_ID
  }

  function EvaluateOf(s: State, turnId: Id, b: ProcessBinding): Label
  {
    OnFrame(Evaluate(EvaluateRequest(s.config.sessionId, turnId, b), true, true))
  }

  lemma {:induction false} EvaluationSucceeds(s: State, turnId: Id, b: ProcessBinding)
    requires Working(s, turnId, b) && MayLearn(s, b)
    ensures var t := Next(s, EvaluateOf(s, turnId, b));
            && Working(t, turnId, b) && BindingMatches(t.authority, turnId, b)
            && t == s.(authority := t.authority, trace := s.trace + [ScopeAllowed(turnId, b, s.authorization.revision)])
  {
    hide ValidBinding;
  }

  /** The action a request puts into the slot. */
  function ActionOf(s: State, r: ConfirmationRequest, pendingId: Id): Pending
  {
    var expiry := EffectiveExpiry(s.now, r.expiresAt);
    Pending(pendingId, r.requestId, r.hostTurnId, r.binding, if expiry.Some? then expiry.value else s.now)
  }

  /** An exact request in time waits for the authority lock. */
  lemma {:induction false} ArrivalSucceeds(s: State, r: ConfirmationRequest, pendingId: Id)
    requires ReaderIsFree(s) && Exact(s, r) && ValidBinding(s.config, r.binding) && !s.closed
    requires s.now < r.expiresAt && s.now < U64_MAX
    ensures var p := ActionOf(s, r, pendingId);
            && s.now < p.expiresAt
            && Next(s, OnFrame(Confirmation(r, s.now, true))) == s.(waiting := Some(AtConfirmation(r, s.now, p.expiresAt)))
  {
    hide ValidBinding;
  }

  /** Under the lock it is admitted, whether or not the session was closed meanwhile. */
  lemma {:induction false} EntrySucceeds(s: State, w: Waiting, pendingId: Id)
    requires s.reading && s.waiting == Some(w) && w.AtConfirmation?
    requires BindingMatches(s.authority, w.confirmation.hostTurnId, w.confirmation.binding)
    requires s.pending == map[] && Fresh(s, pendingId)
    ensures var p := AdmittedPending(w, pendingId);
            Next(s, OnTick(AdmitTick(pendingId, true)))
              == s.(waiting := None, pending := map[pendingId := p], scheduling := Some(TicketFor(s.config, p)),
                    usedIds := s.usedIds + {pendingId}, trace := s.trace + [Admitted(p, w.at, w.confirmation.expiresAt)])
  {
  }

  lemma {:induction false} AdmissionSucceeds(s: State, r: ConfirmationRequest, pendingId: Id)
    requires Working(s, r.hostTurnId, r.binding) && BindingMatches(s.authority, r.hostTurnId, r.binding)
    requires Exact(s, r) && !s.closed && Fresh(s, pendingId)
    requires s.pending == map[] && s.now < r.expiresAt && s.now < U64_MAX
    ensures var p := ActionOf(s, r, pendingId);
            var t := Next(Next(s, OnFrame(Confirmation(r, s.now, true))), OnTick(AdmitTick(pendingId, true)));
            && s.now < p.expiresAt
            && t == s.(pending := map[pendingId := p], scheduling := Some(TicketFor(s.config, p)),
                       usedIds := s.usedIds + {pendingId}, trace := s.trace + [Admitted(p, s.now, r.expiresAt)])
  {
    hide ValidBinding, Next, EffectiveExpiry;
    ArrivalSucceeds(s, r, pendingId);
    var w := AtConfirmation(r, s.now, ActionOf(s, r, pendingId).expiresAt);
    EntrySucceeds(s.(waiting := Some(w)), w, pendingId);
  }

  lemma {:induction false} SchedulingSucceeds(s: State)
    requires s.scheduling.Some?
    ensures var t := Next(s, OnTick(ScheduleTick)); t == s.(timer := t.timer, scheduling := None)
  {
  }

  /** The user confirms: the decider takes the action and drops its ticket. */
  lemma {:induction false} TakeSucceeds(s: State, id: Id)
    requires id in s.pending && CoordinatorIsFree(s)
    ensures var t := Next(Next(s, OnAct(TakePendingAct(id, Confirm))), OnAct(ClearTakenAct));
            t == s.(pending := Without(s.pending, {id}), command := Deciding(s.pending[id], Confirm, true), timer := t.timer)
  {
  }

  /** The final check of the decider succeeds whether or not the session was closed meanwhile. */
  lemma {:induction false} DecisionSucceeds(s: State, confirmationId: Id)
    requires s.command.Deciding? && s.command.decision.Confirm? && s.command.cleared && Fresh(s, confirmationId)
    requires s.authority.Active? && s.authority.turn.turnId == s.command.pending.hostTurnId
    requires ValidBinding(s.config, s.command.pending.binding) && s.authorization.enabled
    requires s.now < s.command.pending.expiresAt
    ensures var p := s.command.pending;
            var a := NewApproval(p, s.authorization.revision, confirmationId);
            Next(s, OnAct(DecideAct(confirmationId, s.now, true, true)))
              == s.(command := NoCommand, usedIds := s.usedIds + {confirmationId},
                    approvals := s.approvals[ApprovalKey(p.hostTurnId, p.binding) := a],
                    trace := s.trace + [Replied(p, Confirm, Some(a), true, s.now)])
  {
    hide ValidBinding, ApprovalKey;
  }

  predicate Approved(s: State, r: IssueRequest) {
    var key := ApprovalKey(r.hostTurnId, r.binding);
    && key in s.approvals
    && s.approvals[key].hostTurnId == r.hostTurnId && s.approvals[key].binding == r.binding
    && s.approvals[key].revision == r.revision && s.now < s.approvals[key].expiresAt
  }

  lemma {:induction false} IssueSucceeds(s: State, r: IssueRequest, grantId: Id, stampedAt: Millis, expiryFrom: Millis)
    requires Working(s, r.hostTurnId, r.binding) && BindingMatches(s.authority, r.hostTurnId, r.binding)
    requires r.sessionId == s.config.sessionId && r.revision == s.authorization.revision
    requires Approved(s, r) && |Live(s.grants, s.now)| < MAX_GRANTS && Fresh(s, grantId)
    requires s.now <= stampedAt <= expiryFrom
    ensures var key := ApprovalKey(r.hostTurnId, r.binding);
            var g := NewGrant(s.config, r, s.approvals[key], grantId, stampedAt, expiryFrom);
            Next(s, OnFrame(IssueFrame(r, grantId, s.now, stampedAt, expiryFrom, true, true)))
              == s.(now := expiryFrom, grants := Live(s.grants, s.now)[grantId := g], approvals := s.approvals - {key},
                    usedIds := s.usedIds + {grantId}, trace := s.trace + [GrantIssued(g, s.now)])
  {
    hide ValidBinding, ApprovalKey, Live, NewGrant;
    assert IssueDecision(s, r, s.now, true).Issue?;
  }

  /** A use of a stored grant. */
  function UseOf(s: State, g: StoredGrant, at: Millis): Label
  {
    OnFrame(Revalidate(RevalidateRequest(s.config.sessionId, g.hostTurnId, g.grant.binding, g.grant), at, true, true))
  }

  predicate Usable(s: State, g: StoredGrant) {
    && Working(s, g.hostTurnId, g.grant.binding) && BindingMatches(s.authority, g.hostTurnId, g.grant.binding)
    && g.grant.sessionId == s.config.sessionId && g.grant.grantId in s.grants && s.grants[g.grant.grantId] == g
    && g.grant.singleUse && !g.grant.used && g.grant.revision == s.authorization.revision
  }

  /** A stored grant of the active turn can be used at a time exactly when it has not expired then. */
  lemma {:induction false} UseSucceedsExactly(s: State, g: StoredGrant, at: Millis)
    requires Usable(s, g) && s.now <= at
    ensures var t := Next(s, UseOf(s, g, at));
            (t.trace == s.trace + [GrantRevalidated(g, at)]) <==> at < g.grant.expiresAt
  {
    hide ValidBinding;
    var t := Next(s, UseOf(s, g, at));
    assert t.trace[|s.trace|] == if at < g.grant.expiresAt then GrantRevalidated(g, at) else RevalidationDenied(AuthorityDenied);
  }

  // ---- The whole chain as a run -------------------------------------------------------------------

  /** The identifiers a chain draws, and the clock readings of its grant handler and its use. */
  datatype Draw = Draw(pendingId: Id, confirmationId: Id, grantId: Id)
  datatype Times = Times(stampedAt: Millis, expiryFrom: Millis, usedAt: Millis)

  predicate AllFresh(s: State, d: Draw) {
    && Fresh(s, d.pendingId) && Fresh(s, d.confirmationId) && Fresh(s, d.grantId)
    && d.pendingId != d.confirmationId && d.pendingId != d.grantId && d.confirmationId != d.grantId
  }

  function IssueOf(s: State, r: ConfirmationRequest): IssueRequest
  {
    IssueRequest(s.config.sessionId, r.hostTurnId, r.binding, s.authorization.revision)
  }

  function ApprovalOf(s: State, r: ConfirmationRequest, d: Draw): Approval
  {
    NewApproval(ActionOf(s, r, d.pendingId), s.authorization.revision, d.confirmationId)
  }

  function GrantOf(s: State, r: ConfirmationRequest, d: Draw, w: Times): StoredGrant
  {
    NewGrant(s.config, IssueOf(s, r), ApprovalOf(s, r, d), d.grantId, w.stampedAt, w.expiryFrom)
  }

  /** Evaluate, admit, schedule, and the decider's take: everything before the answer. */
  function AskLabels(s: State, r: ConfirmationRequest, d: Draw): seq<Label>
  {
    [EvaluateOf(s, r.hostTurnId, r.binding), OnFrame(Confirmation(r, s.now, true)),
     OnTick(AdmitTick(d.pendingId, true)), OnTick(ScheduleTick),
     OnAct(TakePendingAct(d.pendingId, Confirm)), OnAct(ClearTakenAct)]
  }

  function ConfirmLabel(s: State, d: Draw): Label
  {
    OnAct(DecideAct(d.confirmationId, s.now, true, true))
  }

  function MintLabel(s: State, r: ConfirmationRequest, d: Draw, w: Times): Label
  {
    OnFrame(IssueFrame(IssueOf(s, r), d.grantId, s.now, w.stampedAt, w.expiryFrom, true, true))
  }

  function ChainLabels(s: State, r: ConfirmationRequest, d: Draw, w: Times): seq<Label>
  {
    AskLabels(s, r, d) + [ConfirmLabel(s, d), MintLabel(s, r, d, w), UseOf(s, GrantOf(s, r, d, w), w.usedAt)]
  }

  lemma {:induction false} AfterBoth(s: State, first: seq<Label>, second: seq<Label>)
    ensures After(s, first + second) == After(After(s, first), second)
    decreases |second|
  {
    if second == [] {
      assert first + second == first;
    } else {
      var n := |second| - 1;
      assert (first + second)[..|first + second| - 1] == first + second[..n];
      AfterBoth(s, first, second[..n]);
    }
  }

  lemma AfterOne(s: State, l: Label)
    ensures After(s, [l]) == Next(s, l)
  {
    assert [l][..0] == [];
  }

  lemma AfterTwo(s: State, l: Label, m: Label)
    ensures After(s, [l, m]) == Next(Next(s, l), m)
  {
    AfterBoth(s, [l], [m]);
    AfterOne(s, l);
    AfterOne(Next(s, l), m);
    assert [l] + [m] == [l, m];
  }

  predicate Asks(s: State, r: ConfirmationRequest, d: Draw) {
    && Working(s, r.hostTurnId, r.binding) && MayLearn(s, r.binding) && CoordinatorIsFree(s) && !s.closed
    && Exact(s, r) && AllFresh(s, d)
    && s.pending == map[] && s.now < r.expiresAt && s.now < U64_MAX
  }

  /** What asking changes: the learned Codex turn, the ticket, the command, and the trace. */
  lemma {:induction false} AskingSucceeds(s: State, r: ConfirmationRequest, d: Draw)
    requires Asks(s, r, d)
    ensures var t := After(s, AskLabels(s, r, d)); var p := ActionOf(s, r, d.pendingId);
            && Working(t, r.hostTurnId, r.binding) && BindingMatches(t.authority, r.hostTurnId, r.binding)
            && s.now < p.expiresAt
            && t == s.(authority := t.authority, timer := t.timer, command := Deciding(p, Confirm, true),
                       usedIds := s.usedIds + {d.pendingId},
                       trace := s.trace + [ScopeAllowed(r.hostTurnId, r.binding, s.authorization.revision)]
                                        + [Admitted(p, s.now, r.expiresAt)])
  {
    hide Next, ValidBinding, After;
    var s1 := Next(s, EvaluateOf(s, r.hostTurnId, r.binding));
    EvaluationSucceeds(s, r.hostTurnId, r.binding);
    var arrival, admission := OnFrame(Confirmation(r, s.now, true)), OnTick(AdmitTick(d.pendingId, true));
    var s2 := Next(Next(s1, arrival), admission);
    AdmissionSucceeds(s1, r, d.pendingId);
    var s3 := Next(s2, OnTick(ScheduleTick));
    SchedulingSucceeds(s2);
    TakeSucceeds(s3, d.pendingId);
    assert Without(s3.pending, {d.pendingId}) == map[];
    var first := [EvaluateOf(s, r.hostTurnId, r.binding)];
    AfterOne(s, first[0]);
    AfterTwo(s1, arrival, admission);
    AfterBoth(s, first, [arrival, admission]);
    AfterOne(s2, OnTick(ScheduleTick));
    AfterBoth(s, first + [arrival, admission], [OnTick(ScheduleTick)]);
    AfterTwo(s3, OnAct(TakePendingAct(d.pendingId, Confirm)), OnAct(ClearTakenAct));
    AfterBoth(s, first + [arrival, admission] + [OnTick(ScheduleTick)],
              [OnAct(TakePendingAct(d.pendingId, Confirm)), OnAct(ClearTakenAct)]);
    assert AskLabels(s, r, d) == first + [arrival, admission] + [OnTick(ScheduleTick)]
                                 + [OnAct(TakePendingAct(d.pendingId, Confirm)), OnAct(ClearTakenAct)];
  }

  /** After the ask, the answer and the mint. */
  lemma {:induction false} GrantingSucceeds(s: State, r: ConfirmationRequest, d: Draw, w: Times)
    requires Asks(s, r, d) && |Live(s.grants, s.now)| < MAX_GRANTS
    requires s.now <= w.stampedAt <= w.expiryFrom
    ensures var t := After(s, AskLabels(s, r, d) + [ConfirmLabel(s, d), MintLabel(s, r, d, w)]);
            var p, g := ActionOf(s, r, d.pendingId), GrantOf(s, r, d, w);
            && Usable(t, g) && t.now == w.expiryFrom && t.config == s.config
            && t.trace == s.trace + [ScopeAllowed(r.hostTurnId, r.binding, s.authorization.revision)]
                                  + [Admitted(p, s.now, r.expiresAt)]
                                  + [Replied(p, Confirm, Some(ApprovalOf(s, r, d)), true, s.now)]
                                  + [GrantIssued(g, s.now)]
  {
    hide Next, ValidBinding, After, ApprovalKey, Live, EffectiveExpiry;
    var asked := After(s, AskLabels(s, r, d));
    AskingSucceeds(s, r, d);
    DecisionSucceeds(asked, d.confirmationId);
    var decided := Next(asked, ConfirmLabel(s, d));
    IssueSucceeds(decided, IssueOf(s, r), d.grantId, w.stampedAt, w.expiryFrom);
    AfterTwo(asked, ConfirmLabel(s, d), MintLabel(s, r, d, w));
    AfterBoth(s, AskLabels(s, r, d), [ConfirmLabel(s, d), MintLabel(s, r, d, w)]);
  }

  /** Main result: from any state with an active turn that may learn the call's Codex turn, the
      undisturbed chain is a run that ends in an allowed revalidation, at every time before the
      grant expires. */
  lemma {:induction false} FullChainSucceeds(s: State, r: ConfirmationRequest, d: Draw, w: Times)
    requires Asks(s, r, d) && |Live(s.grants, s.now)| < MAX_GRANTS
    requires s.now <= w.stampedAt <= w.expiryFrom <= w.usedAt < SaturatingAdd(w.expiryFrom, GRANT_LIFETIME_MS)
    ensures var p, g := ActionOf(s, r, d.pendingId), GrantOf(s, r, d, w);
            After(s, ChainLabels(s, r, d, w)).trace
              == s.trace + [ScopeAllowed(r.hostTurnId, r.binding, s.authorization.revision)]
                         + [Admitted(p, s.now, r.expiresAt)]
                         + [Replied(p, Confirm, Some(ApprovalOf(s, r, d)), true, s.now)]
                         + [GrantIssued(g, s.now)] + [GrantRevalidated(g, w.usedAt)]
  {
    hide Next, ValidBinding, After, ApprovalKey, Live, EffectiveExpiry;
    var granting := AskLabels(s, r, d) + [ConfirmLabel(s, d), MintLabel(s, r, d, w)];
    var g := GrantOf(s, r, d, w);
    GrantingSucceeds(s, r, d, w);
    UseSucceedsExactly(After(s, granting), g, w.usedAt);
    AfterOne(After(s, granting), UseOf(s, g, w.usedAt));
    AfterBoth(s, granting, [UseOf(s, g, w.usedAt)]);
    assert ChainLabels(s, r, d, w) == granting + [UseOf(s, g, w.usedAt)];
  }

  /** No use of the grant, in any continuation of the run, comes at the bound or later. */
  ghost predicate UsesComeBefore(t: State, g: StoredGrant, bound: nat) {
    forall more: seq<Label>, k: nat |
      k < |After(t, more).trace| && After(t, more).trace[k].GrantRevalidated? && After(t, more).trace[k].grant == g ::
      After(t, more).trace[k].at < bound
  }

  /** Main result: when the bound of 60 s after admission holds.  Take any reachable state in which a
      grant can be used, and the chain it was minted on.  Every use of the grant, whatever happens
      next, lies less than 60 s after the admission of that chain exactly when the expiry stamp does
      not lie beyond, which the handler could check as it mints. */
  lemma {:induction false} UsesAreTimelyExactly(config: Config, labels: seq<Label>, g: StoredGrant, l: Links)
    requires var t := Reach(config, labels); Usable(t, g) && t.now < g.grant.expiresAt
    requires var tr := Reach(config, labels).trace; Granted(tr, l) && tr[l.issued].grant == g
    ensures var t := Reach(config, labels);
            var bound := t.trace[l.admitted].at + 60_000;
            UsesComeBefore(t, g, bound) <==> g.grant.expiresAt <= bound
  {
    hide After, Usable, Next, Granted;
    var t := Reach(config, labels);
    forall more: seq<Label>, k: nat |
      k < |After(t, more).trace| && After(t, more).trace[k].GrantRevalidated? && After(t, more).trace[k].grant == g
      ensures After(t, more).trace[k].at < g.grant.expiresAt
    {
      UseIsUnexpired(config, labels, more, k);
    }
    var last: Millis := g.grant.expiresAt - 1;
    UseSucceedsExactly(t, g, last);
    var more := [UseOf(t, g, last)];
    AfterOne(t, UseOf(t, g, last));
    assert After(t, more).trace[|t.trace|] == GrantRevalidated(g, last);
  }

  lemma {:induction false} UseIsUnexpired(config: Config, labels: seq<Label>, more: seq<Label>, k: nat)
    requires k < |After(Reach(config, labels), more).trace| && After(Reach(config, labels), more).trace[k].GrantRevalidated?
    ensures var e := After(Reach(config, labels), more).trace[k]; e.at < e.grant.grant.expiresAt
  {
    hide After, Chained;
    var tr := After(Reach(config, labels), more).trace;
    AfterBoth(Initial(config), labels, more);
    ChainedHolds(config, labels + more);
    TraceIsJustified(After(Reach(config, labels), more));
    assert Rests(tr[..k], tr[k]);
  }

  lemma TraceIsJustified(s: State)
    requires Chained(s)
    ensures Justified(s.trace)
  {
  }

  predicate Uses(s: State, g: StoredGrant, at: Millis) {
    Next(s, UseOf(s, g, at)).trace == s.trace + [GrantRevalidated(g, at)]
  }

  /** However late the mint is stamped after the check, the grant is usable for its whole lifetime
      from the expiry stamp's clock reading on. */
  lemma {:induction false} LateMintIsUsableLate(s: State, r: IssueRequest, grantId: Id, w: Times)
    requires Working(s, r.hostTurnId, r.binding) && BindingMatches(s.authority, r.hostTurnId, r.binding)
    requires r.sessionId == s.config.sessionId && r.revision == s.authorization.revision
    requires Approved(s, r) && |Live(s.grants, s.now)| < MAX_GRANTS && Fresh(s, grantId)
    requires s.now <= w.stampedAt <= w.expiryFrom <= w.usedAt < SaturatingAdd(w.expiryFrom, GRANT_LIFETIME_MS)
    ensures var t := Next(s, OnFrame(IssueFrame(r, grantId, s.now, w.stampedAt, w.expiryFrom, true, true)));
            grantId in t.grants && Uses(t, t.grants[grantId], w.usedAt)
  {
    hide Next, ValidBinding, ApprovalKey, Live;
    IssueSucceeds(s, r, grantId, w.stampedAt, w.expiryFrom);
    var t := Next(s, OnFrame(IssueFrame(r, grantId, s.now, w.stampedAt, w.expiryFrom, true, true)));
    UseSucceedsExactly(t, t.grants[grantId], w.usedAt);
  }

  // ---- A first turn ---------------------------------------------------------------------------------

  /** From the start: a provider is chosen, the authorization enabled, and a turn begun. */
  function StartLabels(provider: Provider, turnId: Id): seq<Label>
  {
    [OnChange(SetProvider(Some(provider))), OnChange(Authorize(Authorization(true, 1))),
     OnAct(StartTurnAct(turnId, true)), OnAct(StartSentAct(true))]
  }

  function Started(config: Config, provider: Provider, turnId: Id): State
  {
    Initial(config).(
      provider := Some(provider), authorization := Authorization(true, 1), usedIds := {turnId},
      authority := Active(Turn(turnId, provider, ProviderBinding(config.sessionId, turnId, provider), None)),
      trace := [AuthorizationChanged(1), TurnBegun(turnId)])
  }

  lemma {:induction false} StartSucceeds(config: Config, provider: Provider, turnId: Id)
    requires config.provider == Some(provider)
    ensures Reach(config, StartLabels(provider, turnId)) == Started(config, provider, turnId)
  {
    hide After;
    var s0 := Initial(config);
    var l := StartLabels(provider, turnId);
    var s2 := Next(Next(s0, l[0]), l[1]);
    assert s2 == s0.(provider := Some(provider), authorization := Authorization(true, 1), trace := [AuthorizationChanged(1)]);
    AfterTwo(s0, l[0], l[1]);
    AfterTwo(s2, l[2], l[3]);
    AfterBoth(s0, [l[0], l[1]], [l[2], l[3]]);
    assert l == [l[0], l[1]] + [l[2], l[3]];
    StartsTurn(s2, provider, turnId);
  }

  lemma {:induction false} StartsTurn(s: State, provider: Provider, turnId: Id)
    requires !s.closed && s.authority.Idle? && s.config.provider == Some(provider) && s.provider == Some(provider)
    requires CoordinatorIsFree(s) && Fresh(s, turnId) && s.text.None? && s.error.None?
    ensures Next(Next(s, OnAct(StartTurnAct(turnId, true))), OnAct(StartSentAct(true)))
              == s.(authority := Active(Turn(turnId, provider, ProviderBinding(s.config.sessionId, turnId, provider), None)),
                    usedIds := s.usedIds + {turnId}, trace := s.trace + [TurnBegun(turnId)])
  {
  }

  // ---- A late use -------------------------------------------------------------------------------------

  function Zeros(n: nat): (r: string)
    ensures |r| == n && forall i :: 0 <= i < n ==> r[i] == '0'
  {
    if n == 0 then "" else "0" + Zeros(n - 1)
  }

  const PROVIDER := Provider("profile", "chat", "openai_compatible", "https://provider")
  const CONFIG := Config("session", "life", "task", "workspace", Some(PROVIDER))
  const CALL := ProcessBinding("session", "life", "task", CAPABILITY_ID, PROFILE_ID, PROFILE_ID, "workspace", Zeros(64),
                               "call", "codex", "policy")
  const REQUEST := ConfirmationRequest("session", "request", "turn", "life", "task", CAPABILITY_ID, CALL, 30_000)
  const DRAW := Draw("pending", "confirmation", "grant")
  const STARTED := Started(CONFIG, PROVIDER, "turn")

  /** The mint is stamped 30 s after the check, the use follows just before the expiry. */
  const LATE := Times(30_001, 30_001, 60_000)

  lemma AsksAtStart()
    ensures Asks(STARTED, REQUEST, DRAW) && |Live(STARTED.grants, STARTED.now)| < MAX_GRANTS
    ensures STARTED.now == 0
  {
    assert Live(map[], 0) == map[];
    assert "pending" != "turn" && "confirmation" != "turn" && "grant" != "turn" by {
      assert |"pending"| != |"turn"| && |"confirmation"| != |"turn"| && |"grant"| != |"turn"|;
    }
    assert |"pending"| != |"confirmation"| && |"pending"| != |"grant"| && |"confirmation"| != |"grant"|;
  }

  /** A counterexample to the bound of 60 s: in this run the use lies a full 60 s after the
      admission, because the mint was stamped well after the expiry check. */
  lemma {:induction false} UseMayBeLate()
    ensures var tr := Reach(CONFIG, StartLabels(PROVIDER, "turn") + ChainLabels(STARTED, REQUEST, DRAW, LATE)).trace;
            |tr| == 7 && tr[3].Admitted? && tr[6].GrantRevalidated? && tr[6].at == tr[3].at + 60_000
  {
    hide After, Next, ChainLabels, StartLabels, Started;
    StartSucceeds(CONFIG, PROVIDER, "turn");
    AsksAtStart();
    FullChainSucceeds(STARTED, REQUEST, DRAW, LATE);
    AfterBoth(Initial(CONFIG), StartLabels(PROVIDER, "turn"), ChainLabels(STARTED, REQUEST, DRAW, LATE));
    StartedTrace();
  }

  lemma StartedTrace()
    ensures |STARTED.trace| == 2
  {
  }
}
