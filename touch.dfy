/**
 * The touch listeners: `touchstart` records the starting Y coordinate,
 * `touchend` nudges every topic card up or down when the vertical swipe is
 * longer than 100 pixels and schedules, per card, a 200 ms timer that puts
 * the card back.
 */
module Touch {
  import opened Wrappers

  function Abs(x: real): real
  {
    if x < 0.0 then -x else x
  }

  /**
   * The `translateY` offset in pixels that a touch ending at `endY` gives
   * every card, or `None` when the movement is no swipe. An upward swipe
   * (the finger ends above where it started) moves the cards up.
   */
  function SwipeOffset(startY: real, endY: real): (offset: Option<int>)
    ensures offset.Some? <==> Abs(startY - endY) > 100.0
    ensures offset.Some? ==> (offset.value == -5 <==> endY < startY)
    ensures offset.Some? ==> (offset.value == 5 <==> endY > startY)
  {
    var diff := startY - endY;
    if Abs(diff) > 100.0 then Some(if diff > 0.0 then -5 else 5) else None
  }

  /** Every card's offset after a `touchend` whose decision is `offset`. */
  function AfterSwipe(cards: seq<int>, offset: Option<int>): (r: seq<int>)
    ensures |r| == |cards|
  {
    match offset
    case None => cards
    case Some(d) => seq(|cards|, _ => d)
  }

  /** The card indices 0, 1, ..., n - 1, in the order `forEach` visits them. */
  function Indices(n: nat): (r: seq<nat>)
    ensures |r| == n && forall q :: 0 <= q < n ==> r[q] == q
  {
    seq(n, q requires 0 <= q < n => q)
  }

  /** One 200 ms timer fires: card `k` is back at offset 0. */
  function Revert(cards: seq<int>, k: nat): seq<int>
    requires k < |cards|
  {
    cards[k := 0]
  }

  /** The pending timers `ks` fire in order. */
  function RevertAll(cards: seq<int>, ks: seq<nat>): (r: seq<int>)
    requires forall q :: 0 <= q < |ks| ==> ks[q] < |cards|
    ensures |r| == |cards|
    decreases |ks|
  {
    if ks == [] then cards else RevertAll(Revert(cards, ks[0]), ks[1..])
  }

  /** After the timers `ks` fire, a card is at 0 if one of them was its own, and untouched otherwise. */
  lemma {:induction false} RevertAllAt(cards: seq<int>, ks: seq<nat>, j: nat)
    requires forall q :: 0 <= q < |ks| ==> ks[q] < |cards|
    requires j < |cards|
    ensures RevertAll(cards, ks)[j] == if j in ks then 0 else cards[j]
    decreases |ks|
  {
    if ks != [] {
      RevertAllAt(Revert(cards, ks[0]), ks[1..], j);
      assert j in ks <==> j == ks[0] || j in ks[1..] by {
        assert ks == [ks[0]] + ks[1..];
      }
    }
  }

  /**
   * Whatever the offsets before it, a swipe followed by the timers it
   * scheduled leaves every card at offset 0.
   */
  lemma SwipeIsUndone(cards: seq<int>, d: int)
    ensures RevertAll(AfterSwipe(cards, Some(d)), Indices(|cards|)) == seq(|cards|, _ => 0)
  {
    var n := |cards|;
    var shifted := AfterSwipe(cards, Some(d));
    forall j | 0 <= j < n
      ensures RevertAll(shifted, Indices(n))[j] == 0
    {
      RevertAllAt(shifted, Indices(n), j);
      assert Indices(n)[j] == j;
    }
  }

  /** The topic cards' vertical offsets and the listeners' state. */
  class CardSwipe {
    var touchStartY: real
    var offsets: array<int>
    var pendingReverts: seq<nat>

    ghost predicate Valid()
      reads this
    {
      forall q :: 0 <= q < |pendingReverts| ==> pendingReverts[q] < offsets.Length
    }

    /** `let touchStartY = 0` and `n` cards at rest. */
    constructor (n: nat)
      ensures Valid() && fresh(offsets)
      ensures touchStartY == 0.0 && offsets[..] == seq(n, _ => 0) && pendingReverts == []
    {
      touchStartY := 0.0;
      offsets := new int[n](_ => 0);
      pendingReverts := [];
    }

    /** The `touchstart` listener. */
    method TouchStart(y: real)
      modifies this`touchStartY
      ensures touchStartY == y
    {
      touchStartY := y;
    }

    /**
     * The `touchend` listener: on a swipe every card takes the offset and
     * schedules its own revert; otherwise nothing happens.
     */
    method TouchEnd(endY: real)
      requires Valid()
      modifies offsets, this`pendingReverts
      ensures Valid()
      ensures offsets[..] == AfterSwipe(old(offsets[..]), SwipeOffset(touchStartY, endY))
      ensures pendingReverts == old(pendingReverts) +
        (if SwipeOffset(touchStartY, endY).Some? then Indices(offsets.Length) else [])
    {
      var diff := touchStartY - endY;
      if Abs(diff) > 100.0 {
        var d := if diff > 0.0 then -5 else 5;
        var k := 0;
        while k < offsets.Length
          invariant 0 <= k <= offsets.Length
          invariant forall q :: 0 <= q < k ==> offsets[q] == d
          invariant pendingReverts == old(pendingReverts) + Indices(k)
          invariant Valid()
        {
          offsets[k] := d;
          pendingReverts := pendingReverts + [k];
          k := k + 1;
        }
        assert offsets[..] == AfterSwipe(old(offsets[..]), Some(d));
      }
    }

    /** The earliest pending 200 ms timer fires and puts its card back at 0. */
    method RevertFires()
      requires Valid() && pendingReverts != []
      modifies offsets, this`pendingReverts
      ensures Valid()
      ensures offsets[..] == Revert(old(offsets[..]), old(pendingReverts)[0])
      ensures pendingReverts == old(pendingReverts)[1..]
    {
      var k := pendingReverts[0];
      offsets[k] := 0;
      pendingReverts := pendingReverts[1..];
    }
  }
}
