/** The reader loop, message by message: what it refuses, what it hands on, and that a replayed request
    within a whole window ends it. */
module HostMessages {
  import opened Common
  import opened HostTypes
  import opened HostSteps
  import opened ReplayWindow

  /** A decoded message: a frame with a handler, a lifecycle answer, or one of another phase. */
  datatype Message =
    | Handled(frame: Frame)
    | Lifecycle(sessionId: Id)
    | OutOfPhase

  predicate RequestIdInBounds(requestId: Id) {
    requestId != [] && ByteLength(requestId) <= MAX_ID_BYTES
  }

  /** A message that is not refused, handled; one of another phase or session ends the loop. */
  function DispatchStep(s: State, m: Message): State
  {
    match m
    case Handled(f) => FrameStep(s, f)
    case Lifecycle(sessionId) => if sessionId == s.config.sessionId then s else ReaderFails(s)
    case OutOfPhase => ReaderFails(s)
  }

  /** One message of the reader loop, given the ids in the replay window: a bad or repeated id ends
      the loop. */
  function MessageStep(s: State, requestId: Id, window: seq<Id>, m: Message): State
  {
    if !RequestIdInBounds(requestId) || requestId in window then ReaderFails(s) else DispatchStep(s, m)
  }

  // ---- One message -------------------------------------------------------------------------------

  /** What the loop does not hand on: a bad or repeated id, or a message that is not for it. */
  predicate Refused(c: Config, requestId: Id, window: seq<Id>, m: Message) {
    || requestId == "" || ByteLength(requestId) > 128 || requestId in window || m.OutOfPhase?
    || (m.Lifecycle? && m.sessionId != c.sessionId)
  }

  /** A refused message ends the loop and changes nothing else; a handled one has its frame's effect. */
  lemma {:induction false} MessageExactly(s: State, requestId: Id, window: seq<Id>, m: Message)
    requires s.reading && s.waiting.None? && s.scheduling.None? && (m.Handled? ==> FrameEnabled(s, m.frame))
    ensures var t := MessageStep(s, requestId, window, m);
            if Refused(s.config, requestId, window, m) then t == s.(reading := false)
            else t == if m.Handled? then Next(s, OnFrame(m.frame)) else s
  {
    hide FrameStep, FrameEnabled;
  }

  lemma MessageCases(s: State, requestId: Id, window: seq<Id>, m: Message)
    ensures MessageStep(s, requestId, window, m)
            == if !RequestIdInBounds(requestId) || requestId in window then ReaderFails(s) else DispatchStep(s, m)
  {
  }

  // ---- Runs of the loop --------------------------------------------------------------------------

  /** What happens around the loop: the sidecar's messages, and everything else. */
  datatype Item = Incoming(requestId: Id, message: Message) | Elsewhere(step: Label)

  /** The session, and every id in bounds that was offered to the window. */
  datatype Loop = Loop(session: State, offers: seq<Id>)

  /** The loop takes a message only between two others. */
  predicate Takes(l: Loop, i: Item) {
    && i.Incoming? && l.session.reading && l.session.waiting.None? && l.session.scheduling.None?
    && (i.message.Handled? ==> FrameEnabled(l.session, i.message.frame))
  }

  function Goes(l: Loop, i: Item): Loop
  {
    match i
    case Incoming(requestId, m) =>
      if !Takes(l, i) then l
      else Loop(MessageStep(l.session, requestId, Tail(Accepted(l.offers)), m),
                if RequestIdInBounds(requestId) then l.offers + [requestId] else l.offers)
    case Elsewhere(step) => if step.OnFrame? then l else Loop(Next(l.session, step), l.offers)
  }

  function Run(config: Config, items: seq<Item>): Loop
  {
    if items == [] then Loop(Initial(config), []) else Goes(Run(config, items[..|items| - 1]), items[|items| - 1])
  }

  /** How many requests the loop has accepted so far. */
  function Acceptances(l: Loop): nat
  {
    |Accepted(l.offers)|
  }

  /** The loop took the message and was still reading afterwards. */
  predicate Survives(config: Config, items: seq<Item>, i: nat)
    requires i < |items|
  {
    Takes(Run(config, items[..i]), items[i]) && Run(config, items[..i + 1]).session.reading
  }

  lemma OfferedIsRemembered(offers: seq<Id>, id: Id)
    ensures var a := Accepted(offers + [id]);
            id !in Tail(Accepted(offers)) ==> |a| > 0 && a[|a| - 1] == id && a == Accepted(offers) + [id]
  {
    AcceptedAfter(offers, id);
  }

  /** A message that survives was accepted under its id. */
  lemma {:induction false} SurvivorIsAccepted(config: Config, items: seq<Item>, i: nat)
    requires i < |items| && Survives(config, items, i)
    ensures var after := Accepted(Run(config, items[..i + 1]).offers);
            |after| > 0 && after[|after| - 1] == items[i].requestId && after == Accepted(Run(config, items[..i]).offers) + [items[i].requestId]
  {
    hide MessageStep, Next, Accepted, Tail, FrameEnabled;
    var before := Run(config, items[..i]);
    var id := items[i].requestId;
    assert items[..i + 1][..i] == items[..i];
    MessageExactly(before.session, id, Tail(Accepted(before.offers)), items[i].message);
    BoundsExactly(id);
    OfferedIsRemembered(before.offers, id);
  }

  lemma BoundsExactly(id: Id)
    ensures RequestIdInBounds(id) <==> id != "" && ByteLength(id) <= 128
  {
  }

  lemma {:induction false} AcceptancesOnlyGrow(config: Config, items: seq<Item>, i: nat)
    requires i <= |items|
    ensures var a, b := Accepted(Run(config, items[..i]).offers), Accepted(Run(config, items).offers);
            |a| <= |b| && b[..|a|] == a
  {
    hide MessageStep, Next, Tail, Takes, FrameEnabled, Accepted;
    if i == |items| {
      assert items[..i] == items;
    } else {
      var before := items[..|items| - 1];
      AcceptancesOnlyGrow(config, before, i);
      assert before[..i] == items[..i];
      var l := Run(config, before);
      if items[|items| - 1].Incoming? {
        AcceptedAfter(l.offers, items[|items| - 1].requestId);
      }
      var a, c, b := Accepted(Run(config, items[..i]).offers), Accepted(l.offers), Accepted(Run(config, items).offers);
      assert b[..|c|] == c;
      assert b[..|a|] == c[..|a|];
    }
  }

  /** Main result: over every run of the loop, whatever else happens, a request that repeats the id of
      one the loop survived, with at most 128 requests accepted since then, that one included, ends
      the loop and changes nothing else. */
  lemma {:induction false} ReplayEndsTheLoop(config: Config, items: seq<Item>, i: nat, j: nat)
    requires i < j < |items| && Survives(config, items, i) && Takes(Run(config, items[..j]), items[j])
    requires items[i].requestId == items[j].requestId
    requires Acceptances(Run(config, items[..j])) - Acceptances(Run(config, items[..i])) <= 128
    ensures Run(config, items[..j + 1]).session == Run(config, items[..j]).session.(reading := false)
  {
    hide MessageStep, Next, Accepted, FrameEnabled;
    var id := items[i].requestId;
    var now := Run(config, items[..j]);
    var first, later := Accepted(Run(config, items[..i + 1]).offers), Accepted(now.offers);
    SurvivorIsAccepted(config, items, i);
    assert items[..j][..i + 1] == items[..i + 1];
    AcceptancesOnlyGrow(config, items[..j], i + 1);
    assert later[|first| - 1] == later[..|first|][|first| - 1] == id;
    InTheWindow(later, |first| - 1);
    assert items[..j + 1][..j] == items[..j];
    MessageExactly(now.session, id, Tail(later), items[j].message);
  }

  lemma InTheWindow(accepted: seq<Id>, i: nat)
    requires i < |accepted| && |accepted| - i <= 128
    ensures accepted[i] in Tail(accepted)
  {
    var t := Tail(accepted);
    assert t[i - (|accepted| - |t|)] == accepted[i];
  }

  /** Main result: two messages with the same id that the loop both survived lie more than 128
      acceptances apart. */
  lemma {:induction false} HandledRepeatsAreFarApart(config: Config, items: seq<Item>, i: nat, j: nat)
    requires i < j < |items| && Survives(config, items, i) && Survives(config, items, j)
    requires items[i].requestId == items[j].requestId
    ensures Acceptances(Run(config, items[..j])) - Acceptances(Run(config, items[..i])) > 128
  {
    hide Run, Takes;
    if Acceptances(Run(config, items[..j])) - Acceptances(Run(config, items[..i])) <= 128 {
      ReplayEndsTheLoop(config, items, i, j);
    }
  }
}
