/** The durable authorization never changes between a Confirm and the use it leads to. */
module HostRevision {
  import opened Common
  import opened HostTypes
  import opened HostSteps
  import opened HostGenerationProof
  import opened HostEvolution
  import opened HostEvolutionProof
  import opened HostChain
  import opened HostTheorems

  /** The revision an event was decided under, if any. */
  function RevisionOf(e: Event): Option<int>
  {
    match e
    case ScopeAllowed(_, _, revision) => Some(revision)
    case Replied(_, _, approval, _, _) =>
      if e.decision.Confirm? && approval.Some? then Some(approval.value.revision) else None
    case GrantIssued(g, _) => Some(g.grant.revision)
    case GrantRevalidated(g, _) => Some(g.grant.revision)
    case _ => None
  }

  /** Of two events in this order, the revisions never run backwards, and a change moves on. */
  predicate InOrder(e: Event, f: Event) {
    && (RevisionOf(e).Some? && f.AuthorizationChanged? ==> RevisionOf(e).value < f.revision)
    && (e.AuthorizationChanged? && RevisionOf(f).Some? ==> e.revision <= RevisionOf(f).value)
  }

  predicate UpTo(e: Event, revision: int) {
    && (RevisionOf(e).Some? ==> RevisionOf(e).value <= revision)
    && (e.AuthorizationChanged? ==> e.revision <= revision)
  }

  ghost predicate Ordered(s: State) {
    && (forall i, j :: 0 <= i < j < |s.trace| ==> InOrder(s.trace[i], s.trace[j]))
    && (forall i :: 0 <= i < |s.trace| ==> UpTo(s.trace[i], s.authorization.revision))
  }

  lemma NewEventUpTo(s: State, t: State, e: Event)
    requires Evolves(s, t) && t.trace == s.trace + [e]
    ensures s.authorization.revision <= t.authorization.revision
    ensures UpTo(e, t.authorization.revision)
    ensures RevisionOf(e).Some? ==> RevisionOf(e).value == s.authorization.revision
    ensures e.AuthorizationChanged? ==> s.authorization.revision < e.revision
  {
    assert t.trace[|s.trace|] == e;
  }

  lemma OrderedStep(s: State, t: State)
    requires Evolves(s, t) && Ordered(s)
    ensures Ordered(t)
  {
    if Emits(s, t) {
      var e := t.trace[|s.trace|];
      assert t.trace == s.trace + [e];
      NewEventUpTo(s, t, e);
      forall i | 0 <= i < |s.trace| ensures InOrder(s.trace[i], e) && UpTo(s.trace[i], t.authorization.revision) {
        assert UpTo(s.trace[i], s.authorization.revision);
      }
    }
  }

  lemma {:induction false} OrderedHolds(config: Config, labels: seq<Label>)
    ensures Ordered(Reach(config, labels))
    decreases |labels|
  {
    if labels != [] {
      var before := Reach(config, labels[..|labels|-1]);
      GenerationHolds(config, labels[..|labels|-1]);
      OrderedHolds(config, labels[..|labels|-1]);
      StepEvolves(before, labels[|labels|-1]);
      OrderedStep(before, Next(before, labels[|labels|-1]));
    }
  }

  /** Main result: no authorization change lies between the Confirm and the use of one chain. */
  lemma AuthorizationIsStable(config: Config, labels: seq<Label>, l: Links, k: nat, j: nat)
    requires Chain(Reach(config, labels).trace, l, k)
    requires l.confirmed < j < k
    ensures !Reach(config, labels).trace[j].AuthorizationChanged?
  {
    var tr := Reach(config, labels).trace;
    OrderedHolds(config, labels);
    assert InOrder(tr[l.confirmed], tr[j]) && InOrder(tr[j], tr[k]);
  }
}
