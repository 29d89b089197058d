/** The UTF-8 safe bounded accumulation of assistant text (vita-agent/src/runtime_composition.rs). */
module BoundedText {
  import opened Common
  import opened Utf8

  const MAX_TURN_OUTPUT_BYTES: nat := 256 * 1024

  type Text = seq<Byte>

  /** The character boundary at or before `n`, found by walking back. */
  function Cut(value: Text, n: nat): (end: nat)
    requires n <= |value|
    ensures end <= n && Boundary(value, end)
  {
    if Boundary(value, n) then n else Cut(value, n - 1)
  }

  /** What is kept of a message when `room` bytes are left. */
  function Kept(value: Text, room: nat): Text
  {
    if |value| <= room then value else value[..Cut(value, room)]
  }

  function Append(target: Text, value: Text, max: nat): Text
  {
    if |target| >= max then target else target + Kept(value, max - |target|)
  }

  /** The buffer after appending a list of messages to `target`. */
  function Accumulate(target: Text, messages: seq<Text>, max: nat): Text
    decreases |messages|
  {
    if messages == [] then target else Accumulate(Append(target, messages[0], max), messages[1..], max)
  }

  function Concat(pieces: seq<Text>): Text
  {
    if pieces == [] then [] else pieces[0] + Concat(pieces[1..])
  }

  predicate AllValid(messages: seq<Text>) {
    forall i :: 0 <= i < |messages| ==> Valid(messages[i])
  }

  // ---- One message ------------------------------------------------------------------------------

  /** `Cut` is the greatest boundary in reach, and in valid text it is at most three bytes back. */
  lemma {:induction false} CutIsGreatest(value: Text, n: nat, i: nat)
    requires n <= |value| && i <= n && Boundary(value, i)
    ensures i <= Cut(value, n)
  {
    if !Boundary(value, n) {
      CutIsGreatest(value, n - 1, i);
    }
  }

  lemma CutIsNear(value: Text, n: nat)
    requires Valid(value) && n <= |value|
    ensures n <= Cut(value, n) + 3
  {
    var j := BoundaryNear(value, n);
    CutIsGreatest(value, n, j);
  }

  predicate PieceOf(piece: Text, message: Text) {
    piece <= message && Boundary(message, |piece|)
  }

  lemma KeptIsPiece(value: Text, room: nat)
    requires Valid(value)
    ensures Valid(Kept(value, room)) && |Kept(value, room)| <= room
    ensures PieceOf(Kept(value, room), value)
    ensures Kept(value, room) != value ==> room <= |Kept(value, room)| + 3
  {
    if |value| > room {
      CutIsNear(value, room);
      ValidSplit(value, Cut(value, room));
    }
  }

  /** A boundary of the text: the start, the end, or a byte that is no continuation byte. */
  predicate CharacterStarts(value: Text, i: nat) {
    i == 0 || i == |value| || (i < |value| && !(0x80 <= value[i] <= 0xBF))
  }

  /** What is kept is the whole message when it fits, else the longest start of it that fits and ends
      between two characters; it is appended while there is room at all. */
  lemma KeptExactly(target: Text, value: Text, max: nat)
    ensures var kept := Kept(value, max);
            && kept <= value && (|value| <= max ==> kept == value)
            && (|value| > max ==>
                  |kept| <= max && CharacterStarts(value, |kept|)
                  && forall i :: |kept| < i <= max ==> !CharacterStarts(value, i))
    ensures Append(target, value, max) == if |target| < max then target + Kept(value, max - |target|) else target
  {
    if |value| > max {
      forall i | |Kept(value, max)| < i <= max ensures !CharacterStarts(value, i) {
        if Boundary(value, i) {
          CutIsGreatest(value, max, i);
        }
      }
    }
  }

  lemma AppendKeepsBound(target: Text, value: Text, max: nat)
    requires Valid(target) && Valid(value) && |target| <= max
    ensures var r := Append(target, value, max); Valid(r) && target <= r && |r| <= max
    ensures Append(target, value, max) != target + value ==> max <= |Append(target, value, max)| + 3
  {
    hide Valid, Boundary, Cut;
    if |target| < max {
      var kept := Kept(value, max - |target|);
      KeptIsPiece(value, max - |target|);
      ValidConcat(target, kept);
      assert Append(target, value, max) == target + kept;
      assert target <= target + kept;
    }
  }

  // ---- A list of messages -------------------------------------------------------------------------

  function FirstPiece(target: Text, message: Text, max: nat): Text
  {
    if |target| >= max then [] else Kept(message, max - |target|)
  }

  lemma EmptyIsPiece(message: Text)
    ensures Valid([]) && PieceOf([], message)
  {
  }

  lemma FirstPieceIsPiece(target: Text, message: Text, max: nat)
    requires Valid(message)
    ensures Valid(FirstPiece(target, message, max)) && PieceOf(FirstPiece(target, message, max), message)
    ensures Append(target, message, max) == target + FirstPiece(target, message, max)
  {
    hide Valid, Kept;
    EmptyIsPiece(message);
    assert target + [] == target;
    if |target| < max {
      KeptIsPiece(message, max - |target|);
    }
  }

  /** What is kept of each message in turn. */
  function Pieces(target: Text, messages: seq<Text>, max: nat): (pieces: seq<Text>)
    ensures |pieces| == |messages|
    decreases |messages|
  {
    if messages == [] then []
    else
      [FirstPiece(target, messages[0], max)]
      + Pieces(Append(target, messages[0], max), messages[1..], max)
  }

  lemma {:induction false} PiecesMakeTheBuffer(target: Text, messages: seq<Text>, max: nat)
    requires AllValid(messages)
    ensures Accumulate(target, messages, max) == target + Concat(Pieces(target, messages, max))
    ensures forall i :: 0 <= i < |messages| ==> PieceOf(Pieces(target, messages, max)[i], messages[i])
    decreases |messages|
  {
    hide Valid, Append, FirstPiece, PieceOf;
    if messages == [] {
      assert target + Concat([]) == target;
    } else {
      var next := Append(target, messages[0], max);
      FirstPieceIsPiece(target, messages[0], max);
      PiecesMakeTheBuffer(next, messages[1..], max);
      var first, rest := FirstPiece(target, messages[0], max), Pieces(next, messages[1..], max);
      assert ([first] + rest)[1..] == rest;
      assert target + (first + Concat(rest)) == next + Concat(rest);
    }
  }

  lemma {:induction false} RoomAfterCut(target: Text, messages: seq<Text>, max: nat)
    requires Valid(target) && |target| <= max && AllValid(messages)
    ensures var r := Accumulate(target, messages, max);
            Valid(r) && target <= r && |r| <= max
            && (Pieces(target, messages, max) != messages ==> max <= |r| + 3)
    decreases |messages|
  {
    hide Valid, Append, FirstPiece, PieceOf;
    if messages != [] {
      var next := Append(target, messages[0], max);
      AppendKeepsBound(target, messages[0], max);
      FirstPieceIsPiece(target, messages[0], max);
      RoomAfterCut(next, messages[1..], max);
      var first, rest := FirstPiece(target, messages[0], max), Pieces(next, messages[1..], max);
      if first == messages[0] {
        assert rest == messages[1..] ==> [first] + rest == messages;
      } else {
        assert next[|target|..] == first && (target + messages[0])[|target|..] == messages[0];
      }
    }
  }

  /** Main result: the buffer is valid UTF-8 within the limit, it is the concatenation of one
      character-boundary prefix of each message in order, and once any message was cut at most
      three bytes of room are left. */
  lemma AccumulationIsBounded(target: Text, messages: seq<Text>, max: nat)
    requires Valid(target) && |target| <= max && AllValid(messages)
    ensures var r := Accumulate(target, messages, max); var pieces := Pieces(target, messages, max);
            && Valid(r) && |r| <= max && target <= r
            && r == target + Concat(pieces)
            && (forall i :: 0 <= i < |messages| ==> PieceOf(pieces[i], messages[i]))
            && (pieces != messages ==> max <= |r| + 3)
  {
    hide Valid, Append, Accumulate, Pieces, PieceOf;
    PiecesMakeTheBuffer(target, messages, max);
    RoomAfterCut(target, messages, max);
  }

  // ---- When the buffer is a prefix of everything said -----------------------------------------------

  /** A message is left out entirely when its first character does not fit. */
  predicate LeftOut(message: Text, room: nat) {
    message == [] || CharLen(message) > room
  }

  predicate AllLeftOut(messages: seq<Text>, room: nat) {
    forall i :: 0 <= i < |messages| ==> LeftOut(messages[i], room)
  }

  lemma LeftOutExactly(message: Text, room: nat)
    requires Valid(message)
    ensures Kept(message, room) == [] <==> LeftOut(message, room)
  {
    if message != [] {
      var n := CharLen(message);
      if n < |message| {
        StartsOnBoundary(message[n..]);
      }
      if n <= room < |message| {
        CutIsGreatest(message, room, n);
      } else if room < n {
        forall i | 0 < i <= room && room < |message| ensures !Boundary(message, i) {
        }
      }
    }
  }

  /** From the first message that is cut on, every later one is left out. */
  predicate NothingAfterTheCut(target: Text, messages: seq<Text>, max: nat)
    requires |target| <= max
    decreases |messages|
  {
    if messages == [] then true
    else if |target| + |messages[0]| <= max then NothingAfterTheCut(target + messages[0], messages[1..], max)
    else AllLeftOut(messages[1..], Room(target, messages[0], max))
  }

  /** The room left after a message is appended. */
  function Room(target: Text, message: Text, max: nat): (room: nat)
    requires |target| <= max
  {
    var r := Append(target, message, max);
    if |r| <= max then max - |r| else 0
  }

  lemma {:induction false} NothingAdded(target: Text, messages: seq<Text>, max: nat)
    requires Valid(target) && |target| <= max && AllValid(messages)
    ensures (Accumulate(target, messages, max) == target) <==> AllLeftOut(messages, max - |target|)
    decreases |messages|
  {
    hide Valid, Kept, LeftOut;
    if messages != [] {
      var m, next := messages[0], Append(target, messages[0], max);
      AppendKeepsBound(target, m, max);
      AddsNothing(target, m, max);
      AccumulationIsBounded(next, messages[1..], max);
      if next == target {
        NothingAdded(target, messages[1..], max);
        assert forall i :: 1 <= i < |messages| ==> messages[i] == messages[1..][i - 1];
      }
    }
  }

  lemma AddsNothing(target: Text, m: Text, max: nat)
    requires Valid(target) && Valid(m) && |target| <= max
    ensures Append(target, m, max) == target <==> LeftOut(m, max - |target|)
  {
    hide Valid, Boundary, Cut;
    var kept := Kept(m, max - |target|);
    LeftOutExactly(m, max - |target|);
    FirstChar(m);
    if |target| < max {
      assert kept == [] ==> target + kept == target;
    }
  }

  lemma FirstChar(m: Text)
    requires Valid(m)
    ensures m == [] || CharLen(m) > 0
  {
  }

  /** Main result: the buffer is a prefix of the concatenated messages exactly when nothing fits
      after the first message that was cut. */
  lemma {:induction false} PrefixExactly(target: Text, messages: seq<Text>, max: nat)
    requires Valid(target) && |target| <= max && AllValid(messages)
    ensures (Accumulate(target, messages, max) <= target + Concat(messages)) <==> NothingAfterTheCut(target, messages, max)
    decreases |messages|
  {
    hide Valid, Kept, Append, Concat, LeftOut, AllLeftOut;
    if messages == [] {
      NothingSaid(target);
    } else {
      var m, rest := messages[0], messages[1..];
      var next := Append(target, m, max);
      AppendKeepsBound(target, m, max);
      if |target| + |m| <= max {
        WholeMessage(target, m, rest, max);
        assert [m] + rest == messages;
        PrefixExactly(next, rest, max);
      } else {
        NothingAdded(next, rest, max);
        assert [m] + rest == messages;
        CutIsFinal(target, m, rest, max);
      }
    }
  }

  lemma NothingSaid(target: Text)
    ensures target + Concat([]) == target
  {
    assert target + [] == target;
  }

  lemma WholeMessage(target: Text, m: Text, rest: seq<Text>, max: nat)
    requires |target| + |m| <= max
    ensures Append(target, m, max) == target + m
    ensures (target + m) + Concat(rest) == target + Concat([m] + rest)
  {
    assert ([m] + rest)[1..] == rest;
    assert (target + m) + Concat(rest) == target + (m + Concat(rest));
    if |target| == max {
      assert target + m == target;
    }
  }

  /** What follows a cut can only be a prefix of what was cut off if it is empty. */
  lemma {:induction false} CutIsFinal(target: Text, m: Text, rest: seq<Text>, max: nat)
    requires Valid(target) && Valid(m) && |target| <= max < |target| + |m| && AllValid(rest)
    ensures var next := Append(target, m, max);
            && next <= target + Concat([m] + rest)
            && (Accumulate(next, rest, max) <= target + Concat([m] + rest) <==> Accumulate(next, rest, max) == next)
  {
    hide Valid, Kept, Accumulate, Cut;
    var next := Append(target, m, max);
    AppendKeepsBound(target, m, max);
    var c := CutAt(target, m, max);
    assert ([m] + rest)[1..] == rest;
    var all, off := target + Concat([m] + rest), m[c..] + Concat(rest);
    assert all == next + off;
    var r := Accumulate(next, rest, max);
    AccumulatedPart(next, rest, max);
    AccumulationIsBounded(next, rest, max);
    if r != next && r <= all {
      var late := r[|next|..];
      assert late <= off by {
        assert all[|next|..] == off && r == all[..|r|];
      }
      LateTextIsOff(late, m[c..], off, max - |next|);
    }
  }

  /** Where the first cut falls, and that the character there does not fit. */
  lemma CutAt(target: Text, m: Text, max: nat) returns (c: nat)
    requires Valid(target) && Valid(m) && |target| <= max < |target| + |m|
    ensures c < |m| && Append(target, m, max) == target + m[..c]
    ensures Valid(m[c..]) && |target| + c + CharLen(m[c..]) > max
  {
    hide Valid;
    var room := max - |target|;
    c := Cut(m, room);
    FirstCharDoesNotFit(m, c, room);
    if room == 0 {
      assert target + m[..0] == target;
    }
  }

  lemma LateTextIsOff(late: Text, rest: Text, off: Text, room: nat)
    requires Valid(late) && Valid(rest) && rest != [] && CharLen(rest) > room && rest <= off && late <= off
    ensures late == [] || |late| > room
  {
    if late != [] {
      assert late[0] == off[0] == rest[0];
    }
  }

  /** The text added after a point is itself valid. */
  lemma AccumulatedPart(target: Text, messages: seq<Text>, max: nat)
    requires Valid(target) && |target| <= max && AllValid(messages)
    ensures target <= Accumulate(target, messages, max) && Valid(Accumulate(target, messages, max)[|target|..])
  {
    AccumulationIsBounded(target, messages, max);
    var pieces := Pieces(target, messages, max);
    PiecesAreValid(target, messages, max);
    ConcatIsValid(pieces);
    assert Accumulate(target, messages, max)[|target|..] == Concat(pieces);
  }

  lemma {:induction false} PiecesAreValid(target: Text, messages: seq<Text>, max: nat)
    requires Valid(target) && |target| <= max && AllValid(messages)
    ensures AllValid(Pieces(target, messages, max))
    decreases |messages|
  {
    hide Valid, Kept, FirstPiece;
    if messages != [] {
      AppendKeepsBound(target, messages[0], max);
      PiecesAreValid(Append(target, messages[0], max), messages[1..], max);
      FirstPieceIsPiece(target, messages[0], max);
    }
  }

  lemma {:induction false} ConcatIsValid(pieces: seq<Text>)
    requires AllValid(pieces)
    ensures Valid(Concat(pieces))
  {
    if pieces != [] {
      ConcatIsValid(pieces[1..]);
      ValidConcat(pieces[0], Concat(pieces[1..]));
    }
  }

  /** The character at a cut does not fit into the room that was left. */
  lemma FirstCharDoesNotFit(m: Text, c: nat, room: nat)
    requires Valid(m) && room < |m| && c == Cut(m, room)
    ensures Valid(m[c..]) && m[c..] != [] && c + CharLen(m[c..]) > room
  {
    ValidSplit(m, c);
    var n := CharLen(m[c..]);
    if c + n < |m| {
      assert m[c..][n..] == m[c + n..];
      StartsOnBoundary(m[c + n..]);
    }
    if c + n <= room {
      CutIsGreatest(m, room, c + n);
    }
  }

  /** A counterexample, for every limit: the buffer need not be a prefix of what was said.  One byte
      is left; a two-byte character is cut off whole, and a one-byte message after it fits. */
  lemma {:induction false} NeedNotBePrefix(max: nat)
    requires max >= 1
    ensures var filler: Text := seq(max - 1, _ => 0x61);
            var messages: seq<Text> := [filler, [0xC3, 0xA9], [0x62]];
            && AllValid(messages)
            && Accumulate([], messages, max) == filler + [0x62]
            && !(Accumulate([], messages, max) <= Concat(messages))
  {
    var filler: Text := seq(max - 1, _ => 0x61);
    AsciiIsValid(filler);
    var messages: seq<Text> := [filler, [0xC3, 0xA9], [0x62]];
    assert Valid([0xC3, 0xA9]) by {
      assert [0xC3, 0xA9][2..] == [];
    }
    assert Append([], filler, max) == filler;
    var accented: Text := [0xC3, 0xA9];
    assert !Boundary(accented, 1);
    assert Cut(accented, 1) == 0;
    assert Append(filler, [0xC3, 0xA9], max) == filler;
    assert Append(filler, [0x62], max) == filler + [0x62];
    assert messages[1..] == [[0xC3, 0xA9], [0x62]] && messages[1..][1..] == [[0x62]];
    assert Accumulate(filler, [[0x62]], max) == filler + [0x62];
    assert Accumulate(filler, messages[1..], max) == filler + [0x62];
    ConcatOfThree(filler, accented, [0x62]);
  }

  lemma ConcatOfThree(x: Text, y: Text, z: Text)
    requires y != []
    ensures Concat([x, y, z]) == x + (y + z) && Concat([x, y, z])[|x|] == y[0]
  {
    assert [x, y, z][1..] == [y, z] && [y, z][1..] == [z] && [z][1..] == [];
    assert Concat([z]) == z && Concat([y, z]) == y + z;
    assert (x + (y + z))[|x|] == (y + z)[0];
  }

  lemma {:induction false} AsciiIsValid(s: Text)
    requires forall i :: 0 <= i < |s| ==> s[i] <= 0x7F
    ensures Valid(s)
  {
    if s != [] {
      AsciiIsValid(s[1..]);
    }
  }

  // ---- The imperative form --------------------------------------------------------------------------

  /** The start of a message that fits, found by walking back to a character boundary. */
  method BoundedText(value: Text, max: nat) returns (r: Text)
    ensures r == Kept(value, max)
  {
    if |value| <= max {
      return value;
    }
    var end := max;
    while end > 0 && !Boundary(value, end)
      invariant 0 <= end <= max && Cut(value, end) == Cut(value, max)
    {
      end := end - 1;
    }
    return value[..end];
  }

  datatype TurnEvent =
    | AgentMessage(message: Text)
    | TurnComplete(lastMessage: Option<Text>, failed: bool)
    | TurnAborted
    | OtherEvent

  /** `Failure` also stands for an event stream that ends, times out or is cancelled. */
  datatype Outcome = Answer(text: Text) | Failure

  /** The turn as a whole: the event that ends it decides. */
  function TurnOutcome(text: Text, events: seq<TurnEvent>): Outcome
    decreases |events|
  {
    if events == [] then Failure
    else match events[0]
      case AgentMessage(message) => TurnOutcome(Append(text, message, MAX_TURN_OUTPUT_BYTES), events[1..])
      case TurnComplete(last, failed) =>
        if failed then Failure
        else Answer(if last.Some? then Kept(last.value, MAX_TURN_OUTPUT_BYTES) else text)
      case TurnAborted => Failure
      case OtherEvent => TurnOutcome(text, events[1..])
  }

  /** The event that ends the turn: the first completion or abort. */
  predicate EndsAt(events: seq<TurnEvent>, i: nat) {
    && i < |events| && (events[i].TurnComplete? || events[i].TurnAborted?)
    && forall j :: 0 <= j < i ==> events[j].AgentMessage? || events[j].OtherEvent?
  }

  /** The answer at the event that ends the turn: its final message, or what was said before it. */
  function AnswerAt(text: Text, events: seq<TurnEvent>, i: nat): Text
    requires EndsAt(events, i) && events[i].TurnComplete?
  {
    match events[i].lastMessage
    case Some(message) => Kept(message, 262_144)
    case None => Accumulate(text, Said(events[..i]), 262_144)
  }

  /** Main result: a turn is answered exactly when the first event that ends it is a completion without
      an error, and then by that event's final message or what was said before it; an abort, a
      completion with an error, and a stream without an end are failures. */
  lemma {:induction false} TurnExactly(text: Text, events: seq<TurnEvent>)
    ensures forall i: nat :: EndsAt(events, i) ==>
              TurnOutcome(text, events) == if events[i].TurnComplete? && !events[i].failed then Answer(AnswerAt(text, events, i)) else Failure
    ensures (forall i: nat :: !EndsAt(events, i)) ==> TurnOutcome(text, events) == Failure
    ensures TurnOutcome(text, events).Answer? <==> exists i: nat :: EndsAt(events, i) && events[i].TurnComplete? && !events[i].failed
    decreases |events|
  {
    hide Kept, Append;
    if events != [] {
      if events[0].TurnComplete? || events[0].TurnAborted? {
        assert EndsAt(events, 0);
        assert forall i: nat :: EndsAt(events, i) ==> i == 0;
        assert events[..0] == [];
      } else {
        var next := if events[0].AgentMessage? then Append(text, events[0].message, 262_144) else text;
        TurnExactly(next, events[1..]);
        EndsLater(events);
        forall i: nat | EndsAt(events, i)
          ensures i > 0 && EndsAt(events[1..], i - 1) && (events[i].TurnComplete? ==> AnswerAt(text, events, i) == AnswerAt(next, events[1..], i - 1))
        {
          SaidAfter(text, events, i);
        }
      }
    }
  }

  /** Behind an event that does not end the turn, the same event ends the rest. */
  lemma EndsLater(events: seq<TurnEvent>)
    requires events != [] && (events[0].AgentMessage? || events[0].OtherEvent?)
    ensures forall i: nat :: EndsAt(events, i + 1) <==> EndsAt(events[1..], i)
    ensures !EndsAt(events, 0)
  {
    forall i: nat ensures EndsAt(events, i + 1) <==> EndsAt(events[1..], i) {
      if EndsAt(events[1..], i) {
        assert forall j :: 0 < j <= i ==> events[j] == events[1..][j - 1];
      }
      if EndsAt(events, i + 1) {
        assert forall j :: 0 <= j < i ==> events[1..][j] == events[j + 1];
      }
    }
  }

  lemma SaidAfter(text: Text, events: seq<TurnEvent>, i: nat)
    requires EndsAt(events, i) && i > 0
    ensures EndsAt(events[1..], i - 1)
    ensures var next := if events[0].AgentMessage? then Append(text, events[0].message, 262_144) else text;
            events[i].TurnComplete? ==> AnswerAt(text, events, i) == AnswerAt(next, events[1..], i - 1)
  {
    hide Kept, Append;
    assert forall j :: 0 <= j < i ==> events[1..][j] == events[j + 1];
    assert events[..i][1..] == events[1..][..i - 1];
    assert events[..i][1..] == events[1..][..i - 1];
    var rest := Said(events[1..][..i - 1]);
    if events[0].AgentMessage? {
      assert Said(events[..i]) == [events[0].message] + rest;
      assert ([events[0].message] + rest)[1..] == rest;
    } else {
      assert Said(events[..i]) == [] + rest == rest;
    }
  }

  /** The assistant text of one turn, accumulated in place. */
  class AssistantText {
    var text: Text

    constructor ()
      ensures text == []
    {
      text := [];
    }

    method AppendBounded(value: Text, max: nat)
      modifies this
      ensures text == Append(old(text), value, max)
    {
      if |text| >= max {
        return;
      }
      var remaining := max - |text|;
      if |value| <= remaining {
        text := text + value;
        return;
      }
      var end := remaining;
      while end > 0 && !Boundary(value, end)
        invariant 0 <= end <= remaining && Cut(value, end) == Cut(value, remaining)
        invariant text == old(text)
      {
        end := end - 1;
      }
      text := text + value[..end];
    }

    method RunTurn(events: seq<TurnEvent>) returns (r: Outcome)
      modifies this
      ensures r == TurnOutcome([], events)
      ensures forall i: nat :: EndsAt(events, i) ==>
                r == if events[i].TurnComplete? && !events[i].failed then Answer(AnswerAt([], events, i)) else Failure
      ensures (forall i: nat :: !EndsAt(events, i)) ==> r == Failure
    {
      TurnExactly([], events);
      text := [];
      for i := 0 to |events|
        invariant TurnOutcome([], events) == TurnOutcome(text, events[i..])
      {
        assert events[i..][1..] == events[i + 1..];
        match events[i]
        case AgentMessage(message) => AppendBounded(message, MAX_TURN_OUTPUT_BYTES);
        case TurnComplete(last, failed) =>
          if last.Some? {
            text := BoundedText(last.value, MAX_TURN_OUTPUT_BYTES);
          }
          return if failed then Failure else Answer(text);
        case TurnAborted => return Failure;
        case OtherEvent =>
      }
      return Failure;
    }
  }

  /** The messages a turn appends before the event that ends it. */
  function Said(events: seq<TurnEvent>): seq<Text>
  {
    if events == [] || events[0].TurnComplete? || events[0].TurnAborted? then []
    else (if events[0].AgentMessage? then [events[0].message] else []) + Said(events[1..])
  }

  /** The final message of the event that ends the turn, if it has one. */
  function FinalMessage(events: seq<TurnEvent>): Option<Text>
  {
    if events == [] || events[0].TurnAborted? then None
    else if events[0].TurnComplete? then events[0].lastMessage
    else FinalMessage(events[1..])
  }

  predicate EventsAreText(events: seq<TurnEvent>) {
    forall i :: 0 <= i < |events| ==>
      && (events[i].AgentMessage? ==> Valid(events[i].message))
      && (events[i].TurnComplete? && events[i].lastMessage.Some? ==> Valid(events[i].lastMessage.value))
  }

  /** Main result: the answer of a turn is valid UTF-8 within the limit; it is the start of the final
      message of the event that ends the turn, or, without one, the bounded accumulation of the
      messages said before it. */
  lemma {:induction false} AnswerIsBounded(text: Text, events: seq<TurnEvent>)
    requires EventsAreText(events) && Valid(text) && |text| <= MAX_TURN_OUTPUT_BYTES
    requires TurnOutcome(text, events).Answer?
    ensures var answer := TurnOutcome(text, events).text;
            && Valid(answer) && |answer| <= MAX_TURN_OUTPUT_BYTES
            && answer == match FinalMessage(events)
                         case Some(message) => Kept(message, MAX_TURN_OUTPUT_BYTES)
                         case None => Accumulate(text, Said(events), MAX_TURN_OUTPUT_BYTES)
    decreases |events|
  {
    hide Valid, Append, Kept;
    match events[0]
    case AgentMessage(message) =>
      AppendKeepsBound(text, message, MAX_TURN_OUTPUT_BYTES);
      AnswerIsBounded(Append(text, message, MAX_TURN_OUTPUT_BYTES), events[1..]);
      assert ([message] + Said(events[1..]))[1..] == Said(events[1..]);
    case TurnComplete(last, _) =>
      if last.Some? {
        KeptIsPiece(last.value, MAX_TURN_OUTPUT_BYTES);
      }
    case OtherEvent =>
      AnswerIsBounded(text, events[1..]);
      assert [] + Said(events[1..]) == Said(events[1..]);
  }
}
