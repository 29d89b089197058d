/** Whole-run consequences of the chained trace: the authority chain itself, its injectivity and
    counting form, its time bound, and the absence of an authorization change along it. */
module HostTheorems {
  import opened Common
  import opened HostTypes
  import opened HostSteps
  import opened HostEvolution
  import opened HostChain
  import opened HostChainProof

  /** Positions of the four events behind one allowed revalidation. */
  datatype Links = Links(scope: nat, admitted: nat, confirmed: nat, issued: nat)

  /** The mint at `l.issued` with what it rests on. */
  predicate Granted(tr: Trace, l: Links) {
    && l.scope < l.admitted < l.confirmed < l.issued < |tr|
    && tr[l.scope].ScopeAllowed? && tr[l.admitted].Admitted?
    && Confirms(tr[l.confirmed]) && tr[l.confirmed].delivered
    && tr[l.issued].GrantIssued?
    && var p := tr[l.admitted].pending;
       var a := tr[l.confirmed].approval.value;
       var g := tr[l.issued].grant;
       && tr[l.scope].turnId == p.hostTurnId
       && tr[l.scope].binding.turnId == p.binding.turnId
       && tr[l.confirmed].pending == p
       && a == NewApproval(p, a.revision, a.confirmationId)
       && g.hostTurnId == p.hostTurnId
       && g.grant.binding == p.binding
       && g.grant.revision == a.revision
       && g.grant.confirmationId == a.confirmationId
       // when: admission, confirmation, check and mint
       && tr[l.admitted].at < p.expiresAt <= tr[l.admitted].at + HOST_CONFIRMATION_TTL_MS
       && p.expiresAt <= tr[l.admitted].deadline
       && tr[l.confirmed].at < p.expiresAt
       && tr[l.issued].checkedAt < p.expiresAt
       && tr[l.issued].checkedAt <= g.grant.issuedAt
       && SaturatingAdd(g.grant.issuedAt, GRANT_LIFETIME_MS) <= g.grant.expiresAt
  }

  predicate Chain(tr: Trace, l: Links, k: nat) {
    && Granted(tr, l) && l.issued < k < |tr|
    && tr[k].GrantRevalidated? && tr[k].grant == tr[l.issued].grant
    && tr[k].at < tr[k].grant.grant.expiresAt
  }

  /** Main result: in every run, every allowed revalidation ends such a chain. */
  lemma AuthorityChain(config: Config, labels: seq<Label>, k: nat) returns (l: Links)
    requires k < |Reach(config, labels).trace| && Reach(config, labels).trace[k].GrantRevalidated?
    ensures Chain(Reach(config, labels).trace, l, k)
  {
    var tr := Reach(config, labels).trace;
    ChainedHolds(config, labels);
    l := ChainOf(tr, k);
  }

  lemma IssueBehind(tr: Trace, k: nat) returns (i: nat)
    requires Justified(tr) && k < |tr| && tr[k].GrantRevalidated?
    ensures i < k && tr[i].GrantIssued? && tr[i].grant == tr[k].grant
    ensures tr[k].at < tr[k].grant.grant.expiresAt
  {
    assert Rests(tr[..k], tr[k]);
    var c :| GrantIssued(tr[k].grant, c) in tr[..k];
    i :| 0 <= i < k && tr[i] == GrantIssued(tr[k].grant, c);
  }

  lemma ApprovalBehind(tr: Trace, i: nat) returns (a: Approval)
    requires Justified(tr) && i < |tr| && tr[i].GrantIssued?
    ensures WasConfirmed(tr[..i], a) && Backs(a, tr[i].grant, tr[i].checkedAt)
    ensures tr[i].checkedAt <= tr[i].grant.grant.issuedAt
    ensures SaturatingAdd(tr[i].grant.grant.issuedAt, GRANT_LIFETIME_MS) <= tr[i].grant.grant.expiresAt
  {
    assert Rests(tr[..i], tr[i]);
    a :| WasConfirmed(tr[..i], a) && Backs(a, tr[i].grant, tr[i].checkedAt);
  }

  lemma ConfirmationBehind(tr: Trace, k: nat, a: Approval) returns (i: nat)
    requires Justified(tr) && k < |tr| && WasConfirmed(tr[..k], a)
    ensures i < k && Confirms(tr[i]) && tr[i].delivered && tr[i].approval == Some(a)
    ensures a == NewApproval(tr[i].pending, a.revision, a.confirmationId)
    ensures tr[i].at < tr[i].pending.expiresAt && WasAdmitted(tr[..i], tr[i].pending)
  {
    var p, at :| Replied(p, Confirm, Some(a), true, at) in tr[..k];
    i :| 0 <= i < k && tr[i] == Replied(p, Confirm, Some(a), true, at);
    assert Rests(tr[..i], tr[i]);
  }

  lemma AdmissionBehind(tr: Trace, k: nat, p: Pending) returns (i: nat, scope: nat)
    requires Justified(tr) && k < |tr| && WasAdmitted(tr[..k], p)
    ensures scope < i < k && tr[i].Admitted? && tr[i].pending == p
    ensures tr[i].at < p.expiresAt <= tr[i].at + HOST_CONFIRMATION_TTL_MS && p.expiresAt <= tr[i].deadline
    ensures tr[scope].ScopeAllowed? && tr[scope].turnId == p.hostTurnId
    ensures tr[scope].binding.turnId == p.binding.turnId
  {
    var since, deadline :| Admitted(p, since, deadline) in tr[..k];
    i :| 0 <= i < k && tr[i] == Admitted(p, since, deadline);
    assert Rests(tr[..i], tr[i]);
    var b, r :| ScopeAllowed(p.hostTurnId, b, r) in tr[..i] && b.turnId == p.binding.turnId;
    scope :| 0 <= scope < i && tr[scope] == ScopeAllowed(p.hostTurnId, b, r);
  }

  lemma GrantChain(tr: Trace, issued: nat) returns (l: Links)
    requires Justified(tr) && issued < |tr| && tr[issued].GrantIssued?
    ensures Granted(tr, l) && l.issued == issued
  {
    hide Justified, WasConfirmed, WasAdmitted;
    var a := ApprovalBehind(tr, issued);
    var confirmed := ConfirmationBehind(tr, issued, a);
    var admitted, scope := AdmissionBehind(tr, confirmed, tr[confirmed].pending);
    l := Links(scope, admitted, confirmed, issued);
  }

  lemma ChainOf(tr: Trace, k: nat) returns (l: Links)
    requires Justified(tr) && k < |tr| && tr[k].GrantRevalidated?
    ensures Chain(tr, l, k)
  {
    hide Justified, Granted;
    var issued := IssueBehind(tr, k);
    l := GrantChain(tr, issued);
  }

  /** In every reachable state with a live reader, each stored grant was minted on such a chain. */
  lemma StoredGrantIsChained(config: Config, labels: seq<Label>, id: Id) returns (l: Links)
    requires Reach(config, labels).reading && id in Reach(config, labels).grants
    ensures var s := Reach(config, labels); Granted(s.trace, l) && s.trace[l.issued].grant == s.grants[id]
  {
    var s := Reach(config, labels);
    ChainedHolds(config, labels);
    var c :| GrantIssued(s.grants[id], c) in s.trace;
    var i :| 0 <= i < |s.trace| && s.trace[i] == GrantIssued(s.grants[id], c);
    l := GrantChain(s.trace, i);
  }

  /** Two allowed revalidations never share a grant, nor a confirmation. */
  lemma ChainsAreDisjoint(config: Config, labels: seq<Label>, l: Links, k: nat, m: Links, j: nat)
    requires Chain(Reach(config, labels).trace, l, k) && Chain(Reach(config, labels).trace, m, j)
    requires k != j
    ensures l.issued != m.issued && l.confirmed != m.confirmed
  {
    var tr := Reach(config, labels).trace;
    ChainedHolds(config, labels);
    if k < j { assert Distinct(tr[k], tr[j]); } else { assert Distinct(tr[j], tr[k]); }
    if l.issued < m.issued { assert Distinct(tr[l.issued], tr[m.issued]); }
    else if m.issued < l.issued { assert Distinct(tr[m.issued], tr[l.issued]); }
  }

  // ---- Counting -----------------------------------------------------------------------------

  function Count(tr: Trace, f: Event -> bool): nat
  {
    if tr == [] then 0 else Count(tr[..|tr|-1], f) + if f(tr[|tr|-1]) then 1 else 0
  }

  function Where(tr: Trace, f: Event -> bool): set<nat>
  {
    set k: nat | k < |tr| && f(tr[k])
  }

  lemma {:induction false} CountIsSize(tr: Trace, f: Event -> bool)
    ensures Count(tr, f) == |Where(tr, f)|
    decreases |tr|
  {
    if tr == [] {
      assert Where(tr, f) == {};
    } else {
      var n := |tr| - 1;
      CountIsSize(tr[..n], f);
      assert forall k: nat :: k < n ==> tr[..n][k] == tr[k];
      assert Where(tr, f) == Where(tr[..n], f) + if f(tr[n]) then {n} else {};
    }
  }

  /** An injection between finite sets, given as a map, orders their sizes. */
  lemma {:induction false} InjectionSize(m: map<nat, nat>, range: set<nat>)
    requires forall k :: k in m ==> m[k] in range
    requires forall k, j :: k in m && j in m && k != j ==> m[k] != m[j]
    ensures |m.Keys| <= |range|
    decreases |m.Keys|
  {
    if m.Keys != {} {
      var k :| k in m.Keys;
      var rest := map j | j in m && j != k :: m[j];
      assert rest.Keys == m.Keys - {k};
      InjectionSize(rest, range - {m[k]});
    }
  }

  predicate IsUse(e: Event) { e.GrantRevalidated? }
  predicate IsGrant(e: Event) { e.GrantIssued? }
  predicate IsConfirm(e: Event) { Confirms(e) && e.delivered }

  ghost function GrantBehind(tr: Trace, k: nat): (i: nat)
    requires Justified(tr) && k < |tr| && IsUse(tr[k])
    ensures i < k && IsGrant(tr[i]) && tr[i].grant == tr[k].grant
  {
    assert Rests(tr[..k], tr[k]);
    var c :| GrantIssued(tr[k].grant, c) in tr[..k];
    var i: nat :| i < k && tr[i] == GrantIssued(tr[k].grant, c);
    i
  }

  ghost function ConfirmBehind(tr: Trace, k: nat): (i: nat)
    requires Justified(tr) && k < |tr| && IsGrant(tr[k])
    ensures i < k && IsConfirm(tr[i]) && tr[i].approval.value.confirmationId == tr[k].grant.grant.confirmationId
  {
    assert Rests(tr[..k], tr[k]);
    var a :| WasConfirmed(tr[..k], a) && Backs(a, tr[k].grant, tr[k].checkedAt);
    var p, at :| Replied(p, Confirm, Some(a), true, at) in tr[..k];
    var i: nat :| i < k && tr[i] == Replied(p, Confirm, Some(a), true, at);
    i
  }

  lemma UsesBounded(tr: Trace)
    requires Justified(tr) && OneShot(tr)
    ensures |Where(tr, IsUse)| <= |Where(tr, IsGrant)|
  {
    var m := map k | k in Where(tr, IsUse) :: GrantBehind(tr, k);
    forall k, j | k in m && j in m && k != j ensures m[k] != m[j] {
      assert if k < j then Distinct(tr[k], tr[j]) else Distinct(tr[j], tr[k]);
    }
    InjectionSize(m, Where(tr, IsGrant));
    assert m.Keys == Where(tr, IsUse);
  }

  lemma GrantsBounded(tr: Trace)
    requires Justified(tr) && OneShot(tr)
    ensures |Where(tr, IsGrant)| <= |Where(tr, IsConfirm)|
  {
    var m := map k | k in Where(tr, IsGrant) :: ConfirmBehind(tr, k);
    forall k, j | k in m && j in m && k != j ensures m[k] != m[j] {
      assert if k < j then Distinct(tr[k], tr[j]) else Distinct(tr[j], tr[k]);
    }
    InjectionSize(m, Where(tr, IsConfirm));
    assert m.Keys == Where(tr, IsGrant);
  }

  /** In every run: allowed revalidations <= grants issued <= delivered Confirm replies. */
  lemma UsesGrantsConfirms(config: Config, labels: seq<Label>)
    ensures var tr := Reach(config, labels).trace;
            Count(tr, IsUse) <= Count(tr, IsGrant) <= Count(tr, IsConfirm)
  {
    var tr := Reach(config, labels).trace;
    ChainedHolds(config, labels);
    CountIsSize(tr, IsUse);
    CountIsSize(tr, IsGrant);
    CountIsSize(tr, IsConfirm);
    UsesBounded(tr);
    GrantsBounded(tr);
  }

  /** The clock bound: a use falls less than 60 s after the admission, plus the lag of the mint
      behind the expiry check.  The handler reads the clock anew for the expiry stamp, so the lag
      counts from the check to that reading; it is zero under one clock reading per handler. */
  lemma UseIsTimely(config: Config, labels: seq<Label>, k: nat) returns (l: Links)
    requires k < |Reach(config, labels).trace| && Reach(config, labels).trace[k].GrantRevalidated?
    ensures var tr := Reach(config, labels).trace;
            && Chain(tr, l, k)
            && var expiresAt := tr[l.issued].grant.grant.expiresAt;
               var lag := expiresAt - GRANT_LIFETIME_MS - tr[l.issued].checkedAt;
               && tr[k].at < tr[l.admitted].at + 60_000 + lag
               && (expiresAt < U64_MAX ==> lag >= 0)
               && (expiresAt <= tr[l.admitted].at + 60_000 ==> tr[k].at < tr[l.admitted].at + 60_000)
               && tr[l.confirmed].at < tr[l.admitted].at + 30_000
               && tr[l.confirmed].at < tr[l.admitted].deadline
  {
    l := AuthorityChain(config, labels, k);
  }
}
