/** Approval keys join identifiers with ':' although identifiers may contain ':' themselves.
    What makes them unambiguous is that a Host turn learns its Codex turn once. */
module HostKeys {
  import opened Common
  import opened HostTypes
  import opened HostSteps
  import opened HostGeneration
  import opened HostGenerationProof
  import opened HostEvolution
  import opened HostEvolutionProof
  import opened HostFence

  // ---- The key itself -----------------------------------------------------------------------

  lemma SuffixCancels(x: string, y: string, suffix: string)
    ensures x + suffix == y + suffix <==> x == y
  {
    if x + suffix == y + suffix {
      assert |x| == |y|;
      assert x == (x + suffix)[..|x|] && y == (y + suffix)[..|y|];
    }
  }

  lemma PrefixCancels(prefix: string, x: string, y: string)
    ensures prefix + x == prefix + y <==> x == y
  {
    if prefix + x == prefix + y {
      assert x == (prefix + x)[|prefix|..] && y == (prefix + y)[|prefix|..];
    }
  }

  /** Within one Host turn and one Codex turn the key names exactly one tool call. */
  lemma KeyNamesCall(hostTurnId: Id, b: ProcessBinding, c: ProcessBinding)
    requires b.turnId == c.turnId
    ensures ApprovalKey(hostTurnId, b) == ApprovalKey(hostTurnId, c) <==> b.toolCallId == c.toolCallId
  {
    PrefixCancels(hostTurnId + ":", b.toolCallId + ":" + b.turnId, c.toolCallId + ":" + c.turnId);
    SuffixCancels(b.toolCallId, c.toolCallId, ":" + b.turnId);
    assert b.toolCallId + ":" + b.turnId == b.toolCallId + (":" + b.turnId);
    assert c.toolCallId + ":" + c.turnId == c.toolCallId + (":" + c.turnId);
  }

  /** The part of the key that names the call. */
  function Tail(b: ProcessBinding): string
  {
    b.toolCallId + ([':'] + b.turnId)
  }

  /** The same process for another tool call of another Codex turn. */
  function Retargeted(b: ProcessBinding, toolCallId: Id, turnId: Id): ProcessBinding
  {
    b.(toolCallId := toolCallId, turnId := turnId)
  }

  predicate AcceptedIds(b: ProcessBinding) {
    ValidId(b.toolCallId) && ValidId(b.turnId)
  }

  /** The tail has a second separator with text of accepted size on both sides. */
  predicate SplitsElsewhere(b: ProcessBinding, i: nat) {
    var tail := Tail(b);
    && 0 < i < |tail| - 1 && i != |b.toolCallId| && tail[i] == ':'
    && ByteLength(tail[..i]) <= MAX_ID_BYTES && ByteLength(tail[i + 1..]) <= MAX_ID_BYTES
  }

  /** Main result: under one Host turn an accepted call shares its key with a different accepted pair
      of tool call and Codex turn exactly when its two identifiers, joined by ':', contain another
      ':' with text of at most 128 bytes on either side. */
  lemma {:induction false} KeyIsAmbiguousExactly(hostTurnId: Id, b: ProcessBinding)
    requires AcceptedIds(b)
    ensures (exists toolCallId, turnId ::
               && (toolCallId != b.toolCallId || turnId != b.turnId)
               && AcceptedIds(Retargeted(b, toolCallId, turnId))
               && ApprovalKey(hostTurnId, Retargeted(b, toolCallId, turnId)) == ApprovalKey(hostTurnId, b))
            <==> exists i :: SplitsElsewhere(b, i)
  {
    hide ApprovalKey, ValidId;
    if i :| SplitsElsewhere(b, i) {
      OtherSplit(hostTurnId, b, i);
    }
    forall toolCallId, turnId |
      && (toolCallId != b.toolCallId || turnId != b.turnId)
      && AcceptedIds(Retargeted(b, toolCallId, turnId))
      && ApprovalKey(hostTurnId, Retargeted(b, toolCallId, turnId)) == ApprovalKey(hostTurnId, b)
      ensures SplitsElsewhere(b, |toolCallId|)
    {
      KeysAreTails(hostTurnId, Retargeted(b, toolCallId, turnId), b);
      PartnerSplits(b, toolCallId, turnId);
    }
  }

  lemma KeysAreTails(hostTurnId: Id, b: ProcessBinding, c: ProcessBinding)
    ensures ApprovalKey(hostTurnId, b) == ApprovalKey(hostTurnId, c) <==> Tail(b) == Tail(c)
  {
    var x, y := b.toolCallId + ":" + b.turnId, c.toolCallId + ":" + c.turnId;
    assert x == Tail(b) && y == Tail(c);
    PrefixCancels(hostTurnId + ":", x, y);
  }

  lemma PartnerSplits(b: ProcessBinding, toolCallId: Id, turnId: Id)
    requires toolCallId != b.toolCallId || turnId != b.turnId
    requires AcceptedIds(Retargeted(b, toolCallId, turnId)) && toolCallId + ([':'] + turnId) == Tail(b)
    ensures SplitsElsewhere(b, |toolCallId|)
  {
    var tail := toolCallId + ([':'] + turnId);
    assert tail[..|toolCallId|] == toolCallId && tail[|toolCallId| + 1..] == turnId;
    assert Tail(b)[..|b.toolCallId|] == b.toolCallId && Tail(b)[|b.toolCallId| + 1..] == b.turnId;
  }

  /** Cutting at the other separator gives two accepted identifiers. */
  lemma OtherSplit(hostTurnId: Id, b: ProcessBinding, i: nat)
    requires AcceptedIds(b) && SplitsElsewhere(b, i)
    ensures var c := Retargeted(b, Tail(b)[..i], Tail(b)[i + 1..]);
            AcceptedIds(c) && c.toolCallId != b.toolCallId && ApprovalKey(hostTurnId, c) == ApprovalKey(hostTurnId, b)
  {
    hide ApprovalKey;
    var tail := Tail(b);
    assert forall j :: 0 <= j < |tail| ==> !Control(tail[j]) && !Whitespace(tail[j]);
    assert tail == tail[..i] + ([':'] + tail[i + 1..]);
    KeysAreTails(hostTurnId, Retargeted(b, tail[..i], tail[i + 1..]), b);
  }

  /** A concrete such pair: across Codex turns the same key can stand for different calls. */
  lemma KeyAloneIsAmbiguous(b: ProcessBinding)
    ensures var c := b.(toolCallId := "a:b", turnId := "c");
            var d := b.(toolCallId := "a", turnId := "b:c");
            && AcceptedIds(c) && AcceptedIds(d)
            && ApprovalKey("host", c) == ApprovalKey("host", d) && c.toolCallId != d.toolCallId
  {
    assert "a:b" + ":" + "c" == "a:b:c" == "a" + ":" + "b:c";
  }

  // ---- One Codex turn per Host turn -----------------------------------------------------------

  predicate SameCodexTurn(e: Event, f: Event) {
    e.ScopeAllowed? && f.ScopeAllowed? && e.turnId == f.turnId ==> e.binding.turnId == f.binding.turnId
  }

  predicate Learned(e: Event, a: Authority, used: set<Id>) {
    e.ScopeAllowed? ==>
      e.turnId in used && (ActiveFor(a, e.turnId) ==> a.turn.codexTurn == Some(e.binding.turnId))
  }

  ghost predicate LearnsOnce(s: State) {
    && (forall i, j :: 0 <= i < j < |s.trace| ==> SameCodexTurn(s.trace[i], s.trace[j]))
    && (forall i :: 0 <= i < |s.trace| ==> Learned(s.trace[i], s.authority, s.usedIds))
  }

  lemma StaysLearned(s: State, t: State, e: Event)
    requires Evolves(s, t) && Learned(e, s.authority, s.usedIds)
    ensures Learned(e, t.authority, t.usedIds)
  {
    if Emits(s, t) { assert t.trace == s.trace + [t.trace[|s.trace|]]; }
  }

  lemma NewlyLearned(s: State, t: State, f: Event)
    requires Generation(s) && Evolves(s, t) && t.trace == s.trace + [f]
    ensures Learned(f, t.authority, t.usedIds)
    ensures forall e :: Learned(e, s.authority, s.usedIds) ==> SameCodexTurn(e, f)
  {
    assert t.trace[|s.trace|] == f;
    assert Sound(s, f, t);
  }

  lemma LearnsOnceStep(s: State, t: State)
    requires Generation(s) && Evolves(s, t) && LearnsOnce(s)
    ensures LearnsOnce(t)
  {
    hide Evolves, Generation, Sound, Learned, SameCodexTurn;
    TraceGrows(s, t);
    forall i | 0 <= i < |t.trace| ensures Learned(t.trace[i], t.authority, t.usedIds) {
      if i < |s.trace| {
        assert t.trace[i] == s.trace[i];
        StaysLearned(s, t, s.trace[i]);
      } else {
        assert t.trace == s.trace + [t.trace[i]];
        NewlyLearned(s, t, t.trace[i]);
      }
    }
    forall i, j | 0 <= i < j < |t.trace| ensures SameCodexTurn(t.trace[i], t.trace[j]) {
      assert t.trace[i] == s.trace[i];
      if j < |s.trace| {
        assert t.trace[j] == s.trace[j];
      } else {
        assert t.trace == s.trace + [t.trace[j]];
        NewlyLearned(s, t, t.trace[j]);
      }
    }
  }

  lemma {:induction false} LearnsOnceHolds(config: Config, labels: seq<Label>)
    ensures LearnsOnce(Reach(config, labels))
    decreases |labels|
  {
    if labels != [] {
      var before := Reach(config, labels[..|labels|-1]);
      GenerationHolds(config, labels[..|labels|-1]);
      LearnsOnceHolds(config, labels[..|labels|-1]);
      StepEvolves(before, labels[|labels|-1]);
      LearnsOnceStep(before, Next(before, labels[|labels|-1]));
    }
  }

  /** Main result: in no run does one Host turn act under two Codex turns. */
  lemma OneCodexTurnPerHostTurn(config: Config, labels: seq<Label>, i: nat, j: nat)
    requires i < |Reach(config, labels).trace| && j < |Reach(config, labels).trace|
    requires Reach(config, labels).trace[i].ScopeAllowed? && Reach(config, labels).trace[j].ScopeAllowed?
    requires Reach(config, labels).trace[i].turnId == Reach(config, labels).trace[j].turnId
    ensures Reach(config, labels).trace[i].binding.turnId == Reach(config, labels).trace[j].binding.turnId
  {
    LearnsOnceHolds(config, labels);
    var tr := Reach(config, labels).trace;
    assert if i < j then SameCodexTurn(tr[i], tr[j]) else i == j || SameCodexTurn(tr[j], tr[i]);
  }

  /** Main result: in every reachable state, looking up the approval of a call the active turn may
      make finds that call's approval or nothing. */
  lemma LookupFindsItsOwnCall(config: Config, labels: seq<Label>, hostTurnId: Id, b: ProcessBinding)
    requires BindingMatches(Reach(config, labels).authority, hostTurnId, b)
    requires ApprovalKey(hostTurnId, b) in Reach(config, labels).approvals
    ensures var a := Reach(config, labels).approvals[ApprovalKey(hostTurnId, b)];
            && a.hostTurnId == hostTurnId
            && a.binding.toolCallId == b.toolCallId
            && a.binding.turnId == b.turnId
  {
    var s := Reach(config, labels);
    GenerationHolds(config, labels);
    var a := s.approvals[ApprovalKey(hostTurnId, b)];
    assert OwnedBy(s.authority.turn, a.hostTurnId, a.binding);
    KeyNamesCall(hostTurnId, a.binding, b);
  }
}
