/**
 * The accordion click handler of `InterviewApp.setupAccordions` and
 * `animateAccordion`. One `.accordion` element is a group of panels; panel j
 * has a header (with an `active` class and an icon) whose `data-target`
 * names content j (with an `active` class, a natural `scrollHeight` and an
 * inline `maxHeight` in pixels).
 */
module Accordion {

  /** The icon text of a collapsed header. */
  const Plus: char := '+'
  /** The icon text of an expanded header (U+2212 MINUS SIGN, not the ASCII hyphen). */
  const Minus: char := '\U{2212}'

  /** One panel of a group as the handler sees it. */
  datatype Panel = Panel(
    headerActive: bool,
    contentActive: bool,
    icon: char,
    scrollHeight: nat,
    maxHeight: nat)

  /** The icon the handler writes for a header whose new `active` state is `active`. */
  function IconFor(active: bool): char
  {
    if active then Minus else Plus
  }

  /** The inline `maxHeight` that `animateAccordion` gives a content element. */
  function MaxHeightFor(contentActive: bool, scrollHeight: nat): nat
  {
    if contentActive then scrollHeight else 0
  }

  /** A sibling of the clicked panel: both `active` classes removed, icon '+'; its `maxHeight` is not touched. */
  function Collapsed(p: Panel): Panel
  {
    p.(headerActive := false, contentActive := false, icon := Plus)
  }

  /** The clicked panel: header and content toggled independently, icon from the new header state, height animated. */
  function Toggled(p: Panel): Panel
  {
    var h := !p.headerActive;
    var c := !p.contentActive;
    p.(headerActive := h, contentActive := c, icon := IconFor(h),
       maxHeight := MaxHeightFor(c, p.scrollHeight))
  }

  /** The whole group after one click on the header of panel `i`. */
  function AfterClick(ps: seq<Panel>, i: nat): (r: seq<Panel>)
    requires i < |ps|
    ensures |r| == |ps|
  {
    seq(|ps|, j requires 0 <= j < |ps| => if j == i then Toggled(ps[j]) else Collapsed(ps[j]))
  }

  /** The group after a sequence of clicks, applied in order. */
  function AfterClicks(ps: seq<Panel>, clicks: seq<nat>): (r: seq<Panel>)
    requires forall k :: 0 <= k < |clicks| ==> clicks[k] < |ps|
    ensures |r| == |ps|
    decreases |clicks|
  {
    if clicks == [] then ps else AfterClicks(AfterClick(ps, clicks[0]), clicks[1..])
  }

  /** The group invariant: at most one header and at most one content carry `active`. */
  ghost predicate AtMostOneOpen(ps: seq<Panel>)
  {
    (forall j, k :: 0 <= j < |ps| && 0 <= k < |ps| && ps[j].headerActive && ps[k].headerActive ==> j == k) &&
    (forall j, k :: 0 <= j < |ps| && 0 <= k < |ps| && ps[j].contentActive && ps[k].contentActive ==> j == k)
  }

  /** Every header's `active` flag equals its content's. */
  ghost predicate HeadersMatchContents(ps: seq<Panel>)
  {
    forall j :: 0 <= j < |ps| ==> ps[j].headerActive == ps[j].contentActive
  }

  /** Every header shows the icon that matches its own `active` flag. */
  ghost predicate IconsMatchHeaders(ps: seq<Panel>)
  {
    forall j :: 0 <= j < |ps| ==> ps[j].icon == IconFor(ps[j].headerActive)
  }

  /**
   * Whatever the state before it, one click leaves at most one panel open,
   * and every panel other than the clicked one collapsed with icon '+' and
   * its height and `maxHeight` unchanged.
   */
  lemma ClickLeavesAtMostOneOpen(ps: seq<Panel>, i: nat)
    requires i < |ps|
    ensures AtMostOneOpen(AfterClick(ps, i))
    ensures forall j :: 0 <= j < |ps| && j != i ==>
      var q := AfterClick(ps, i)[j];
      !q.headerActive && !q.contentActive && q.icon == Plus &&
      q.scrollHeight == ps[j].scrollHeight && q.maxHeight == ps[j].maxHeight
  {
  }

  /**
   * A click on a collapsed panel opens exactly that panel with icon '−' and
   * `maxHeight` set to its natural height; a click on an open header leaves
   * every header of the group collapsed with icon '+'.
   */
  lemma ClickOpensOrCollapses(ps: seq<Panel>, i: nat)
    requires i < |ps|
    ensures !ps[i].headerActive && !ps[i].contentActive ==>
      var r := AfterClick(ps, i);
      r[i].headerActive && r[i].contentActive && r[i].icon == Minus &&
      r[i].maxHeight == ps[i].scrollHeight &&
      (forall j :: 0 <= j < |r| && (r[j].headerActive || r[j].contentActive) ==> j == i)
    ensures ps[i].headerActive ==>
      forall j :: 0 <= j < |ps| ==>
        !AfterClick(ps, i)[j].headerActive && AfterClick(ps, i)[j].icon == Plus
    ensures ps[i].headerActive && ps[i].contentActive ==>
      forall j :: 0 <= j < |ps| ==> !AfterClick(ps, i)[j].contentActive
    ensures ps[i].contentActive ==> AfterClick(ps, i)[i].maxHeight == 0
  {
  }

  /** A click keeps each header's flag equal to its content's, and every icon in step with its header. */
  lemma ClickPreservesAgreement(ps: seq<Panel>, i: nat)
    requires i < |ps|
    ensures HeadersMatchContents(ps) ==> HeadersMatchContents(AfterClick(ps, i))
    ensures IconsMatchHeaders(ps) ==> IconsMatchHeaders(AfterClick(ps, i))
  {
  }

  /**
   * After any sequence of clicks on a group that starts with at most one
   * panel open, at most one panel is open.
   */
  lemma {:induction false} ClicksKeepAtMostOneOpen(ps: seq<Panel>, clicks: seq<nat>)
    requires forall k :: 0 <= k < |clicks| ==> clicks[k] < |ps|
    requires AtMostOneOpen(ps)
    ensures AtMostOneOpen(AfterClicks(ps, clicks))
    decreases |clicks|
  {
    if clicks != [] {
      ClickLeavesAtMostOneOpen(ps, clicks[0]);
      var next := AfterClick(ps, clicks[0]);
      ClicksKeepAtMostOneOpen(next, clicks[1..]);
    }
  }

  /** After any sequence of clicks, every header's flag still equals its content's. */
  lemma {:induction false} ClicksKeepAgreement(ps: seq<Panel>, clicks: seq<nat>)
    requires forall k :: 0 <= k < |clicks| ==> clicks[k] < |ps|
    requires HeadersMatchContents(ps) && IconsMatchHeaders(ps)
    ensures HeadersMatchContents(AfterClicks(ps, clicks)) && IconsMatchHeaders(AfterClicks(ps, clicks))
    decreases |clicks|
  {
    if clicks != [] {
      ClickPreservesAgreement(ps, clicks[0]);
      var next := AfterClick(ps, clicks[0]);
      ClicksKeepAgreement(next, clicks[1..]);
    }
  }

  /** The panels of a group, assembled from the five per-panel columns. */
  function Zip(h: seq<bool>, c: seq<bool>, ic: seq<char>, sh: seq<nat>, mh: seq<nat>): (ps: seq<Panel>)
    requires |c| == |h| && |ic| == |h| && |sh| == |h| && |mh| == |h|
    ensures |ps| == |h|
  {
    seq(|h|, j requires 0 <= j < |h| => Panel(h[j], c[j], ic[j], sh[j], mh[j]))
  }

  /**
   * One `.accordion` group on the page. The lists of headers and contents
   * are arrays indexed alike; the click handler updates them in place.
   * Another group is another object with its own arrays.
   */
  class AccordionGroup {
    var headerActive: array<bool>
    var contentActive: array<bool>
    var icon: array<char>
    var scrollHeight: array<nat>
    var maxHeight: array<nat>

    ghost predicate Valid()
      reads this
    {
      contentActive.Length == headerActive.Length &&
      icon.Length == headerActive.Length &&
      scrollHeight.Length == headerActive.Length &&
      maxHeight.Length == headerActive.Length &&
      headerActive != contentActive && scrollHeight != maxHeight
    }

    ghost function Panels(): (ps: seq<Panel>)
      reads this, headerActive, contentActive, icon, scrollHeight, maxHeight
      requires Valid()
      ensures |ps| == headerActive.Length
    {
      Zip(headerActive[..], contentActive[..], icon[..], scrollHeight[..], maxHeight[..])
    }

    /**
     * A group in an assumed initial state: every panel collapsed with icon '+',
     * and the unset inline `maxHeight` taken as 0.
     */
    constructor (heights: seq<nat>)
      ensures Valid()
      ensures fresh(headerActive) && fresh(contentActive) && fresh(icon) && fresh(scrollHeight) && fresh(maxHeight)
      ensures |Panels()| == |heights|
      ensures forall j :: 0 <= j < |heights| ==> Panels()[j] == Panel(false, false, Plus, heights[j], 0)
      ensures AtMostOneOpen(Panels()) && HeadersMatchContents(Panels()) && IconsMatchHeaders(Panels())
    {
      headerActive := new bool[|heights|](_ => false);
      contentActive := new bool[|heights|](_ => false);
      icon := new char[|heights|](_ => Plus);
      scrollHeight := new nat[|heights|](j requires 0 <= j < |heights| => heights[j]);
      maxHeight := new nat[|heights|](_ => 0);
    }

    /** `animateAccordion(content)` for content `k`: its `maxHeight` follows its `active` class. */
    method Animate(k: nat)
      requires Valid() && k < maxHeight.Length
      modifies maxHeight
      ensures Valid()
      ensures maxHeight[k] == (if contentActive[k] then scrollHeight[k] else 0)
      ensures forall j :: 0 <= j < maxHeight.Length && j != k ==> maxHeight[j] == old(maxHeight[j])
    {
      if contentActive[k] {
        maxHeight[k] := scrollHeight[k];
      } else {
        maxHeight[k] := 0;
      }
    }

    /** Lines 29-35: every header other than `i` loses `active` and shows '+'. */
    method ClearOtherHeaders(i: nat)
      requires Valid() && i < headerActive.Length
      modifies headerActive, icon
      ensures Valid()
      ensures forall k :: 0 <= k < headerActive.Length && k != i ==> !headerActive[k] && icon[k] == Plus
      ensures headerActive[i] == old(headerActive[i]) && icon[i] == old(icon[i])
    {
      var j := 0;
      while j < headerActive.Length
        invariant 0 <= j <= headerActive.Length
        invariant forall k :: 0 <= k < j && k != i ==> !headerActive[k] && icon[k] == Plus
        invariant headerActive[i] == old(headerActive[i]) && icon[i] == old(icon[i])
      {
        if j != i {
          headerActive[j] := false;
          icon[j] := Plus;
        }
        j := j + 1;
      }
    }

    /** Lines 37-41: every content other than `i` loses `active`. */
    method ClearOtherContents(i: nat)
      requires Valid() && i < contentActive.Length
      modifies contentActive
      ensures Valid()
      ensures forall k :: 0 <= k < contentActive.Length && k != i ==> !contentActive[k]
      ensures contentActive[i] == old(contentActive[i])
    {
      var j := 0;
      while j < contentActive.Length
        invariant 0 <= j <= contentActive.Length
        invariant forall k :: 0 <= k < j && k != i ==> !contentActive[k]
        invariant contentActive[i] == old(contentActive[i])
      {
        if j != i {
          contentActive[j] := false;
        }
        j := j + 1;
      }
    }

    /**
     * The click listener of header `i`: clear the other headers (icon '+'),
     * clear the other contents, toggle header and content `i`, set its icon
     * from the new header state and animate content `i`.
     */
    method Click(i: nat)
      requires Valid() && i < headerActive.Length
      modifies headerActive, contentActive, icon, maxHeight
      ensures Valid()
      ensures Panels() == AfterClick(old(Panels()), i)
      ensures AtMostOneOpen(Panels())
    {
      ghost var before := Panels();
      ClearOtherHeaders(i);
      ClearOtherContents(i);
      headerActive[i] := !headerActive[i];
      contentActive[i] := !contentActive[i];
      if headerActive[i] {
        icon[i] := Minus;
      } else {
        icon[i] := Plus;
      }
      Animate(i);
      forall j | 0 <= j < |before|
        ensures Panels()[j] == AfterClick(before, i)[j]
      {
      }
      ClickLeavesAtMostOneOpen(before, i);
    }
  }
}
