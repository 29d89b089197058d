/** The bounded request replay window (src-tauri/src/vita_sidecar.rs).

    The specification is the list of all ids accepted since the last clear; the queue and the
    set are a bounded view of its end. */
module ReplayWindow {
  const WINDOW: nat := 128

  function Tail(accepted: seq<string>): (r: seq<string>)
    ensures |r| == if |accepted| <= WINDOW then |accepted| else WINDOW
  {
    if |accepted| <= WINDOW then accepted else accepted[|accepted| - WINDOW..]
  }

  predicate Distinct(s: seq<string>) {
    forall i, j :: 0 <= i < j < |s| ==> s[i] != s[j]
  }

  /** What the window has accepted after a run of offers. */
  function Accepted(offers: seq<string>): seq<string>
  {
    if offers == [] then []
    else
      var before := Accepted(offers[..|offers| - 1]);
      var id := offers[|offers| - 1];
      if id in Tail(before) then before else before + [id]
  }

  /** Main result: two acceptances of one id lie more than a whole window apart. */
  lemma {:induction false} RepeatsAreFarApart(offers: seq<string>, i: nat, j: nat)
    requires i < j < |Accepted(offers)|
    requires Accepted(offers)[i] == Accepted(offers)[j]
    ensures j - i > 128
  {
    var before := Accepted(offers[..|offers| - 1]);
    if j < |before| {
      RepeatsAreFarApart(offers[..|offers| - 1], i, j);
    } else {
      var t := Tail(before);
      forall k | |before| - |t| <= k < |before| ensures before[k] != Accepted(offers)[j] {
        assert before[k] == t[k - (|before| - |t|)];
      }
    }
  }

  /** So the last `WINDOW` acceptances are always distinct. */
  lemma {:induction false} TailIsDistinct(offers: seq<string>)
    ensures Distinct(Tail(Accepted(offers)))
  {
    hide Accepted;
    var a := Accepted(offers);
    var t := Tail(a);
    forall i, j | 0 <= i < j < |t| ensures t[i] != t[j] {
      var d := |a| - |t|;
      assert t[i] == a[d + i] && t[j] == a[d + j];
      if a[d + i] == a[d + j] {
        RepeatsAreFarApart(offers, d + i, d + j);
      }
    }
  }

  /** An accepted id is refused exactly until `WINDOW` others were accepted after it. */
  lemma {:induction false} RefusedForAWholeWindow(offers: seq<string>, id: string, more: seq<string>)
    requires id !in Tail(Accepted(offers)) && id !in more
    ensures var since := |Accepted(offers + [id] + more)| - |Accepted(offers + [id])|;
            id in Tail(Accepted(offers + [id] + more)) <==> since < 128
  {
    var first := Accepted(offers + [id]);
    assert first == Accepted(offers) + [id] by {
      assert (offers + [id])[..|offers|] == offers;
    }
    var extra := Grows(offers + [id], more);
    TailOf(Accepted(offers), id, extra);
  }

  lemma TailOf(before: seq<string>, id: string, extra: seq<string>)
    requires id !in Tail(before) && id !in extra
    ensures id in Tail(before + [id] + extra) <==> |extra| < WINDOW
  {
    var now := before + [id] + extra;
    var cut := |now| - |Tail(now)|;
    if |extra| < WINDOW {
      assert Tail(now)[|before| - cut] == id;
    } else {
      assert Tail(now) == extra[|extra| - WINDOW..];
    }
  }

  lemma {:induction false} Grows(offers: seq<string>, more: seq<string>) returns (extra: seq<string>)
    ensures Accepted(offers + more) == Accepted(offers) + extra
    ensures forall x :: x in extra ==> x in more
  {
    hide Tail, Accepted;
    if more == [] {
      assert offers + more == offers;
      extra := [];
    } else {
      var last := |more| - 1;
      extra := Grows(offers, more[..last]);
      AcceptedAfter(offers + more[..last], more[last]);
      assert offers + more == (offers + more[..last]) + [more[last]];
      if more[last] !in Tail(Accepted(offers + more[..last])) {
        extra := extra + [more[last]];
      }
    }
  }

  function Elements(s: seq<string>): set<string> {
    set x | x in s
  }

  /** One more offer, in terms of the window alone. */
  lemma AcceptedAfter(offers: seq<string>, id: string)
    ensures id in Tail(Accepted(offers)) ==> Accepted(offers + [id]) == Accepted(offers)
    ensures id !in Tail(Accepted(offers)) ==> Accepted(offers + [id]) == Accepted(offers) + [id]
    ensures id !in Tail(Accepted(offers)) ==>
              var longer := Tail(Accepted(offers)) + [id];
              Tail(Accepted(offers + [id])) == if |longer| <= WINDOW then longer else longer[1..]
  {
    assert (offers + [id])[..|offers|] == offers;
  }

  lemma DropsOne(s: seq<string>)
    requires Distinct(s) && s != []
    ensures Distinct(s[1..]) && Elements(s[1..]) == Elements(s) - {s[0]}
  {
    assert forall x :: x in s <==> x == s[0] || x in s[1..];
  }

  class RequestReplayWindow {
    var order: seq<string>
    var seen: set<string>
    /** Every id offered since the window was created or cleared. */
    ghost var offers: seq<string>

    ghost predicate Valid()
      reads this
    {
      && order == Tail(Accepted(offers))
      && seen == Elements(order)
    }

    constructor ()
      ensures Valid() && offers == []
    {
      order, seen, offers := [], {}, [];
    }

    method Accept(id: string) returns (accepted: bool)
      requires Valid()
      modifies this
      ensures Valid() && offers == old(offers) + [id]
      ensures accepted == (id !in old(order))
      ensures order == Tail(Accepted(offers)) && Distinct(order)
    {
      hide Accepted, Tail;
      TailIsDistinct(offers);
      TailIsDistinct(offers + [id]);
      AcceptedAfter(offers, id);
      offers := offers + [id];
      if id in seen {
        return false;
      }
      assert Elements(order + [id]) == Elements(order) + {id};
      seen := seen + {id};
      order := order + [id];
      EvictOldest();
      return true;
    }

    /** Evicts from the front until the window holds. */
    method EvictOldest()
      requires Distinct(order) && seen == Elements(order) && |order| <= WINDOW + 1
      modifies this`order, this`seen
      ensures order == if old(|order|) <= WINDOW then old(order) else old(order)[1..]
      ensures seen == Elements(order)
    {
      while |order| > WINDOW
        invariant |order| == old(|order|) ==> order == old(order)
        invariant |order| < old(|order|) ==> |order| == WINDOW && order == old(order)[1..]
        invariant |order| <= old(|order|)
        invariant seen == Elements(order) && Distinct(order)
      {
        var retired := order[0];
        DropsOne(order);
        order := order[1..];
        seen := seen - {retired};
      }
    }

    method Clear()
      modifies this
      ensures Valid() && offers == []
    {
      order, seen, offers := [], {}, [];
    }
  }
}
