/** The authority chain over whole runs: every allowed revalidation rests on an allowed grant,
    a delivered Confirm, an admitted confirmation and an allowed evaluation, in that order, and
    no confirmation or grant is ever used twice. */
module HostChain {
  import opened Common
  import opened HostTypes
  import opened HostSteps
  import opened HostGeneration
  import opened HostEvolution

  // ---- What a trace records -------------------------------------------------------------------

  ghost predicate WasScoped(tr: Trace, turnId: Id, codexTurn: Id) {
    exists b, revision :: ScopeAllowed(turnId, b, revision) in tr && b.turnId == codexTurn
  }

  ghost predicate WasAdmitted(tr: Trace, p: Pending) {
    exists at, deadline :: Admitted(p, at, deadline) in tr
  }

  ghost predicate WasConfirmed(tr: Trace, a: Approval) {
    exists p, at :: Replied(p, Confirm, Some(a), true, at) in tr
  }

  ghost predicate WasIssued(tr: Trace, g: StoredGrant) {
    exists checkedAt :: GrantIssued(g, checkedAt) in tr
  }

  ghost predicate Spent(tr: Trace, confirmationId: Id) {
    exists g, checkedAt :: GrantIssued(g, checkedAt) in tr && g.grant.confirmationId == confirmationId
  }

  ghost predicate Consumed(tr: Trace, grantId: Id) {
    exists g, at :: GrantRevalidated(g, at) in tr && g.grant.grantId == grantId
  }

  /** The earlier events an event rests on. */
  ghost predicate Rests(tr: Trace, e: Event) {
    match e
    case GrantRevalidated(g, at) => WasIssued(tr, g) && at < g.grant.expiresAt
    case GrantIssued(g, checkedAt) =>
      && checkedAt <= g.grant.issuedAt && SaturatingAdd(g.grant.issuedAt, GRANT_LIFETIME_MS) <= g.grant.expiresAt
      && exists a :: WasConfirmed(tr, a) && Backs(a, g, checkedAt)
    case Replied(p, decision, approval, _, at) =>
      decision.Confirm? ==>
        && WasAdmitted(tr, p) && at < p.expiresAt
        && approval.Some? && approval.value == NewApproval(p, approval.value.revision, approval.value.confirmationId)
    case Admitted(p, at, deadline) =>
      && WasScoped(tr, p.hostTurnId, p.binding.turnId)
      && at < p.expiresAt <= at + HOST_CONFIRMATION_TTL_MS && p.expiresAt <= deadline
    case _ => true
  }

  ghost predicate Justified(tr: Trace) {
    forall k :: 0 <= k < |tr| ==> Rests(tr[..k], tr[k])
  }

  /** One-shot evidence: no two events use the same confirmation, or the same grant, twice. */
  predicate Distinct(e: Event, f: Event) {
    && (e.GrantIssued? && f.GrantIssued? ==>
          && e.grant.grant.grantId != f.grant.grant.grantId
          && e.grant.grant.confirmationId != f.grant.grant.confirmationId)
    && (e.GrantRevalidated? && f.GrantRevalidated? ==> e.grant.grant.grantId != f.grant.grant.grantId)
    && (Confirms(e) && Confirms(f) ==> e.approval.value.confirmationId != f.approval.value.confirmationId)
  }

  predicate Confirms(e: Event) {
    e.Replied? && e.decision.Confirm? && e.approval.Some?
  }

  ghost predicate OneShot(tr: Trace) {
    forall i, j :: 0 <= i < j < |tr| ==> Distinct(tr[i], tr[j])
  }

  /** Every evidence identifier a trace mentions was drawn. */
  predicate Drawn(e: Event, used: set<Id>) {
    && (e.GrantIssued? ==> e.grant.grant.grantId in used && e.grant.grant.confirmationId in used)
    && (e.GrantRevalidated? ==> e.grant.grant.grantId in used)
    && (Confirms(e) ==> e.approval.value.confirmationId in used)
  }

  ghost predicate AllDrawn(tr: Trace, used: set<Id>) {
    forall k :: 0 <= k < |tr| ==> Drawn(tr[k], used)
  }

  // ---- The invariant ----------------------------------------------------------------------------

  ghost predicate PendingBacked(pending: map<Id, Pending>, tr: Trace) {
    forall id :: id in pending ==> WasAdmitted(tr, pending[id])
  }


  ghost predicate ApprovalsBacked(approvals: map<string, Approval>, tr: Trace, used: set<Id>) {
    forall k :: k in approvals ==>
      && WasConfirmed(tr, approvals[k]) && !Spent(tr, approvals[k].confirmationId)
      && approvals[k].confirmationId in used
  }

  ghost predicate ApprovalsDistinct(approvals: map<string, Approval>) {
    forall k, j :: k in approvals && j in approvals && k != j ==>
      approvals[k].confirmationId != approvals[j].confirmationId
  }

  ghost predicate GrantsBacked(grants: map<Id, StoredGrant>, tr: Trace) {
    forall id :: id in grants ==> WasIssued(tr, grants[id])
  }

  ghost predicate GrantsUnused(grants: map<Id, StoredGrant>, tr: Trace) {
    forall id :: id in grants ==> !Consumed(tr, id)
  }

  ghost predicate Chained(s: State) {
    && PendingBacked(s.pending, s.trace)
    && (s.command.Deciding? ==> WasAdmitted(s.trace, s.command.pending))
    && ApprovalsBacked(s.approvals, s.trace, s.usedIds)
    && ApprovalsDistinct(s.approvals)
    && (s.reading ==> GrantsBacked(s.grants, s.trace))
    && GrantsUnused(s.grants, s.trace)
    && (s.reading && s.authority.Active? && s.authority.turn.codexTurn.Some? ==>
          WasScoped(s.trace, s.authority.turn.turnId, s.authority.turn.codexTurn.value))
    && Justified(s.trace)
    && OneShot(s.trace)
    && AllDrawn(s.trace, s.usedIds)
  }
}

module HostChainProof {
  import opened Common
  import opened HostTypes
  import opened HostSteps
  import opened HostGeneration
  import opened HostGenerationProof
  import opened HostEvolution
  import opened HostEvolutionProof
  import opened HostChain

  lemma JustifiedExtends(tr: Trace, e: Event)
    requires Justified(tr) && Rests(tr, e)
    ensures Justified(tr + [e])
  {
    var ext := tr + [e];
    forall k | 0 <= k < |ext| ensures Rests(ext[..k], ext[k]) {
      if k < |tr| { assert ext[..k] == tr[..k]; } else { assert ext[..k] == tr; }
    }
  }

  lemma OneShotExtends(tr: Trace, e: Event)
    requires OneShot(tr) && forall i :: 0 <= i < |tr| ==> Distinct(tr[i], e)
    ensures OneShot(tr + [e])
  {
  }

  /** What happened stays on record. */
  lemma RecordGrows(before: Trace, after: Trace)
    requires Grows(before, after)
    ensures forall e :: e in before ==> e in after
    ensures forall e :: e in after ==> e in before || after == before + [e]
  {
    if after != before { assert after == before + [after[|before|]]; }
  }

  lemma PendingStaysBacked(s: State, t: State)
    requires Evolves(s, t) && Chained(s)
    ensures PendingBacked(t.pending, t.trace)
    ensures t.command.Deciding? ==> WasAdmitted(t.trace, t.command.pending)
  {
    RecordGrows(s.trace, t.trace);
  }

  lemma GrantsStayBacked(s: State, t: State)
    requires Evolves(s, t) && Chained(s)
    ensures t.reading ==> GrantsBacked(t.grants, t.trace)
  {
    RecordGrows(s.trace, t.trace);
  }

  lemma ScopeStaysBacked(s: State, t: State)
    requires Evolves(s, t) && Chained(s)
    ensures t.reading && t.authority.Active? && t.authority.turn.codexTurn.Some? ==>
              WasScoped(t.trace, t.authority.turn.turnId, t.authority.turn.codexTurn.value)
  {
    RecordGrows(s.trace, t.trace);
  }

  lemma StaysJustified(s: State, t: State)
    requires Evolves(s, t) && Chained(s)
    ensures Justified(t.trace)
  {
    if Emits(s, t) {
      var e := t.trace[|s.trace|];
      assert t.trace == s.trace + [e];
      assert Rests(s.trace, e);
      JustifiedExtends(s.trace, e);
    }
  }

  /** The event that spends a confirmation removes the one approval that carries it. */
  lemma IssueSpends(s: State, t: State, g: StoredGrant, checkedAt: Millis)
    requires Evolves(s, t) && Announces(s, t, GrantIssued(g, checkedAt))
    ensures Issuable(s, g, checkedAt)
    ensures t.approvals == s.approvals - {ApprovalKey(g.hostTurnId, g.grant.binding)}
  {
    assert t.trace[|s.trace|] == GrantIssued(g, checkedAt);
  }

  lemma StaysUnspent(s: State, t: State, k: string)
    requires Evolves(s, t) && ApprovalsBacked(s.approvals, s.trace, s.usedIds) && ApprovalsDistinct(s.approvals)
    requires k in t.approvals && k in s.approvals && s.approvals[k] == t.approvals[k]
    ensures !Spent(t.trace, t.approvals[k].confirmationId)
  {
    hide Sound, ApprovalKey, HeldEvolves, PendingEvolves, GrantsEvolve, ApprovalsEvolve, AuthorityEvolves;
    RecordGrows(s.trace, t.trace);
    forall g, c | GrantIssued(g, c) in t.trace
      ensures g.grant.confirmationId != t.approvals[k].confirmationId
    {
      if GrantIssued(g, c) in s.trace {
        assert !Spent(s.trace, s.approvals[k].confirmationId);
      } else {
        IssueSpends(s, t, g, c);
        assert k != ApprovalKey(g.hostTurnId, g.grant.binding);
      }
    }
  }

  lemma ApprovalsStayBacked(s: State, t: State)
    requires Evolves(s, t) && Chained(s) && ApprovalsKeyed(t.approvals)
    ensures ApprovalsBacked(t.approvals, t.trace, t.usedIds) && ApprovalsDistinct(t.approvals)
  {
    RecordGrows(s.trace, t.trace);
    forall k | k in t.approvals
      ensures WasConfirmed(t.trace, t.approvals[k]) && t.approvals[k].confirmationId in t.usedIds
      ensures !Spent(t.trace, t.approvals[k].confirmationId)
      ensures (k in s.approvals && s.approvals[k] == t.approvals[k]) || Fresh(s, t.approvals[k].confirmationId)
    {
      if k in s.approvals && s.approvals[k] == t.approvals[k] {
        StaysUnspent(s, t, k);
      } else {
        NewApprovalUnspent(s, t, k);
      }
    }
    forall k, j | k in t.approvals && j in t.approvals && k != j
      ensures t.approvals[k].confirmationId != t.approvals[j].confirmationId
    {
      OneNewApproval(s, t, k, j);
    }
  }

  lemma NewApprovalIsFresh(s: State, t: State, k: string)
    requires Evolves(s, t)
    requires k in t.approvals && !(k in s.approvals && s.approvals[k] == t.approvals[k])
    ensures WasConfirmed(t.trace, t.approvals[k]) && t.approvals[k].confirmationId in t.usedIds
    ensures Fresh(s, t.approvals[k].confirmationId)
    ensures forall g, c :: GrantIssued(g, c) in t.trace ==> GrantIssued(g, c) in s.trace
  {
    var at :| Announces(s, t, Replied(s.command.pending, Confirm, Some(t.approvals[k]), true, at));
    var e := Replied(s.command.pending, Confirm, Some(t.approvals[k]), true, at);
    assert t.trace[|s.trace|] == e && e in t.trace;
  }

  lemma SpentWasDrawn(tr: Trace, used: set<Id>, g: StoredGrant, checkedAt: Millis)
    requires AllDrawn(tr, used) && GrantIssued(g, checkedAt) in tr
    ensures g.grant.confirmationId in used
  {
  }

  lemma NewApprovalUnspent(s: State, t: State, k: string)
    requires Evolves(s, t) && AllDrawn(s.trace, s.usedIds)
    requires k in t.approvals && !(k in s.approvals && s.approvals[k] == t.approvals[k])
    ensures WasConfirmed(t.trace, t.approvals[k]) && t.approvals[k].confirmationId in t.usedIds
    ensures Fresh(s, t.approvals[k].confirmationId) && !Spent(t.trace, t.approvals[k].confirmationId)
  {
    NewApprovalIsFresh(s, t, k);
    forall g, c | GrantIssued(g, c) in t.trace
      ensures g.grant.confirmationId != t.approvals[k].confirmationId
    {
      SpentWasDrawn(s.trace, s.usedIds, g, c);
    }
  }

  lemma OneNewApproval(s: State, t: State, k: string, j: string)
    requires Evolves(s, t) && ApprovalsKeyed(t.approvals) && AllDrawn(s.trace, s.usedIds)
    requires ApprovalsDistinct(s.approvals) && ApprovalsBacked(s.approvals, s.trace, s.usedIds)
    requires k in t.approvals && j in t.approvals && k != j
    ensures t.approvals[k].confirmationId != t.approvals[j].confirmationId
  {
    var oldK := k in s.approvals && s.approvals[k] == t.approvals[k];
    var oldJ := j in s.approvals && s.approvals[j] == t.approvals[j];
    if !oldK { NewApprovalUnspent(s, t, k); }
    if !oldJ { NewApprovalUnspent(s, t, j); }
    if !oldK && !oldJ {
      SameAnnouncement(s, t, k, j);
    }
  }

  /** One announcement approves one call, and the call determines the key. */
  lemma SameAnnouncement(s: State, t: State, k: string, j: string)
    requires Evolves(s, t) && ApprovalsKeyed(t.approvals)
    requires k in t.approvals && !(k in s.approvals && s.approvals[k] == t.approvals[k])
    requires j in t.approvals && !(j in s.approvals && s.approvals[j] == t.approvals[j])
    ensures k == j
  {
    var a :| Announces(s, t, Replied(s.command.pending, Confirm, Some(t.approvals[k]), true, a));
    var b :| Announces(s, t, Replied(s.command.pending, Confirm, Some(t.approvals[j]), true, b));
    assert t.trace[|s.trace|] == Replied(s.command.pending, Confirm, Some(t.approvals[k]), true, a);
    assert t.trace[|s.trace|] == Replied(s.command.pending, Confirm, Some(t.approvals[j]), true, b);
  }

  lemma GrantsStayUnused(s: State, t: State)
    requires Generation(s) && Evolves(s, t) && Chained(s)
    ensures GrantsUnused(t.grants, t.trace)
  {
    hide Justified, OneShot, PendingBacked, GrantsBacked, ApprovalsBacked, ApprovalsDistinct, WasScoped;
    hide PendingEvolves, HeldEvolves, ApprovalsEvolve, AuthorityEvolves;
    RecordGrows(s.trace, t.trace);
  }

  lemma ConsumeSpends(s: State, t: State, g: StoredGrant, at: Millis)
    requires Evolves(s, t) && Announces(s, t, GrantRevalidated(g, at))
    ensures g.grant.grantId in s.grants
  {
    assert t.trace[|s.trace|] == GrantRevalidated(g, at);
  }

  lemma ConfirmIsFresh(s: State, t: State, e: Event)
    requires Evolves(s, t) && t.trace == s.trace + [e] && Confirms(e)
    ensures Fresh(s, e.approval.value.confirmationId)
  {
    assert t.trace[|s.trace|] == e;
  }

  lemma NewEventDistinct(s: State, t: State, e: Event, i: nat)
    requires Evolves(s, t) && t.trace == s.trace + [e] && i < |s.trace|
    requires ApprovalsBacked(s.approvals, s.trace, s.usedIds) && GrantsUnused(s.grants, s.trace)
    requires AllDrawn(s.trace, s.usedIds)
    ensures Distinct(s.trace[i], e)
  {
    hide Evolves, Sound, ApprovalKey;
    var f := s.trace[i];
    assert Drawn(f, s.usedIds) && f in s.trace;
    match e
    case GrantIssued(g, c) =>
      IssueSpends(s, t, g, c);
      if f.GrantIssued? {
        assert GrantIssued(f.grant, f.checkedAt) in s.trace;
        assert !Spent(s.trace, g.grant.confirmationId);
      }
    case GrantRevalidated(g, at) =>
      ConsumeSpends(s, t, g, at);
      if f.GrantRevalidated? {
        assert GrantRevalidated(f.grant, f.at) in s.trace;
        assert !Consumed(s.trace, g.grant.grantId);
      }
    case Replied(_, _, _, _, _) =>
      if Confirms(e) { ConfirmIsFresh(s, t, e); }
    case _ =>
  }

  lemma StaysOneShot(s: State, t: State)
    requires Generation(s) && Evolves(s, t) && Chained(s)
    ensures OneShot(t.trace)
  {
    hide Distinct, Justified, PendingBacked, GrantsBacked, ApprovalsBacked, ApprovalsDistinct, GrantsUnused, AllDrawn, WasScoped, Generation;
    hide Sound, PendingEvolves, HeldEvolves, ApprovalsEvolve, GrantsEvolve, AuthorityEvolves, EnvironmentEvolves;
    if Emits(s, t) {
      var e := t.trace[|s.trace|];
      assert t.trace == s.trace + [e];
      forall i | 0 <= i < |s.trace| ensures Distinct(s.trace[i], e) { NewEventDistinct(s, t, e, i); }
      OneShotExtends(s.trace, e);
    }
  }

  lemma StaysDrawn(s: State, t: State)
    requires Generation(s) && Evolves(s, t) && Chained(s)
    ensures AllDrawn(t.trace, t.usedIds)
  {
    hide Justified, OneShot, PendingBacked, GrantsBacked, GrantsUnused, WasScoped, ApprovalsBacked, ApprovalsDistinct;
    hide Drawn, Sound, PendingEvolves, HeldEvolves, ApprovalsEvolve, GrantsEvolve, AuthorityEvolves, Generation;
    forall k | 0 <= k < |t.trace| ensures Drawn(t.trace[k], t.usedIds) {
      if k < |s.trace| {
        assert t.trace[k] == s.trace[k];
        StaysDrawnEvent(s.trace[k], s.usedIds, t.usedIds);
      } else {
        assert k == |s.trace| && t.trace == s.trace + [t.trace[k]];
        NewEventDrawn(s, t, t.trace[k]);
      }
    }
  }

  lemma StaysDrawnEvent(e: Event, used: set<Id>, more: set<Id>)
    requires Drawn(e, used) && used <= more
    ensures Drawn(e, more)
  {
  }

  /** A new event mentions identifiers of evidence it spends, or drew them in the same step. */
  lemma NewEventDrawn(s: State, t: State, e: Event)
    requires Generation(s) && Evolves(s, t) && t.trace == s.trace + [e]
    requires ApprovalsBacked(s.approvals, s.trace, s.usedIds)
    ensures Drawn(e, t.usedIds)
  {
    hide ApprovalKey, PendingEvolves, HeldEvolves, ApprovalsEvolve, GrantsEvolve, AuthorityEvolves;
    assert t.trace[|s.trace|] == e;
  }

  lemma ChainedStep(s: State, l: Label)
    requires Generation(s) && Chained(s)
    ensures Chained(Next(s, l))
  {
    hide Next, Evolves, Generation;
    var t := Next(s, l);
    StepEvolves(s, l);
    GenerationStep(s, l);
    PendingStaysBacked(s, t);
    GrantsStayBacked(s, t);
    ScopeStaysBacked(s, t);
    StaysJustified(s, t);
    ApprovalsStayBacked(s, t);
    GrantsStayUnused(s, t);
    StaysOneShot(s, t);
    StaysDrawn(s, t);
  }

  lemma {:induction false} ChainedHolds(config: Config, labels: seq<Label>)
    ensures Chained(Reach(config, labels))
    decreases |labels|
  {
    if labels != [] {
      var before := Reach(config, labels[..|labels|-1]);
      GenerationHolds(config, labels[..|labels|-1]);
      ChainedHolds(config, labels[..|labels|-1]);
      ChainedStep(before, labels[|labels|-1]);
    }
  }
}
