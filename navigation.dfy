/**
 * The navigation modal: `navigateTo`, `proceedNavigation`, the content swap
 * its 2000 ms timer performs, and `closeModal` with the three handlers that
 * call it (close button, click on the backdrop, Escape key).
 */
module Navigation {
  import opened Wrappers
  import opened AsciiText

  /** The three paths with their own label. */
  const TopicMap: map<string, string> :=
    map["html-deep-dive" := "HTML", "css-deep-dive" := "CSS", "js-deep-dive" := "JavaScript"]

  /**
   * The label `navigateTo` writes into `#topic-name`: the table entry for the
   * three known paths, otherwise the upper-cased text before the first '-'.
   */
  function TopicLabel(path: string): (topic: string)
    ensures path in TopicMap ==> topic == TopicMap[path]
    ensures path !in TopicMap ==>
      |topic| == FirstDash(path) &&
      (forall j :: 0 <= j < |topic| ==> path[j] != '-' && topic[j] == UpperChar(path[j])) &&
      ('-' !in path ==> topic == Upper(path))
  {
    if path in TopicMap then TopicMap[path] else Upper(FirstSegment(path))
  }

  /** The topic inside the loading heading: first '-' replaced by a space, then upper-cased. */
  function LoadingTopic(path: string): (t: string)
    ensures |t| == |path|
    ensures forall j :: 0 <= j < |path| ==>
      t[j] == (if j == FirstDash(path) then ' ' else UpperChar(path[j]))
  {
    ReplaceFirstDashSpec(path);
    Upper(ReplaceFirstDash(path))
  }

  /** The `<h3>` source text of the loading view, before the browser parses it as HTML. */
  function LoadingHeading(path: string): (h: string)
    ensures |h| == |path| + 21
    ensures h[..8] == "Loading " && h[8..8 + |path|] == LoadingTopic(path)
    ensures h[8 + |path|..] == " questions..."
  {
    "Loading " + LoadingTopic(path) + " questions..."
  }

  /** The source text of the address in the result view, before the browser parses it as HTML. */
  function ResultPathText(path: string): (t: string)
    ensures |t| == |path| + 2 && t[0] == '/' && t[|t| - 1] == '/' && t[1..|t| - 1] == path
  {
    "/" + path + "/"
  }

  /**
   * What `.modal-content` currently holds; only the text derived from the path
   * is kept. The prompt label is literal text; the loading and result texts
   * are HTML source.
   */
  datatype View =
    | Confirm(topicLabel: string)   // the confirmation prompt, with `#topic-name`
    | Loading(heading: string)      // the spinner and the loading heading
    | Result(pathText: string)      // the success view with the address

  /**
   * The modal's state: whether `display` is `block`, the current content,
   * `window.currentNavigationPath` (absent until the first `navigateTo`), and
   * the paths captured by content-swap timers that have not fired yet, in
   * the order they will fire.
   */
  datatype ModalState = ModalState(
    visible: bool,
    view: View,
    storedPath: Option<string>,
    pending: seq<string>)

  /**
   * An assumed initial state: modal hidden, prompt present with whatever
   * label the markup holds, no stored path and no pending swap.
   */
  function Initial(promptLabel: string): ModalState
  {
    ModalState(false, Confirm(promptLabel), None, [])
  }

  /**
   * `navigateTo(path)`. When the prompt has been replaced, `#topic-name` is
   * gone and the assignment to its text throws before anything is changed.
   */
  function AfterNavigate(s: ModalState, path: string): ModalState
  {
    if s.view.Confirm? then
      s.(view := Confirm(TopicLabel(path)), storedPath := Some(path), visible := true)
    else
      s
  }

  /**
   * `proceedNavigation()`. With no stored path, `path.replace` throws before
   * anything is changed. Otherwise the content becomes the loading view and a
   * content swap for the stored path is scheduled; visibility is not touched.
   */
  function AfterProceed(s: ModalState): ModalState
  {
    match s.storedPath
    case None => s
    case Some(path) => s.(view := Loading(LoadingHeading(path)), pending := s.pending + [path])
  }

  /** The earliest pending content swap fires: the result view for its captured path, whatever the visibility. */
  function AfterTimer(s: ModalState): ModalState
    requires s.pending != []
  {
    s.(view := Result(ResultPathText(s.pending[0])), pending := s.pending[1..])
  }

  /** `closeModal()`: only `display` changes. */
  function AfterClose(s: ModalState): ModalState
  {
    s.(visible := false)
  }

  /**
   * From the prompt, `navigateTo` shows the modal with the path's label and
   * stores the path; `proceedNavigation` then reads exactly that path.
   */
  lemma NavigateThenProceed(s: ModalState, path: string)
    requires s.view.Confirm?
    ensures AfterNavigate(s, path).visible
    ensures AfterNavigate(s, path).view == Confirm(TopicLabel(path))
    ensures AfterNavigate(s, path).storedPath == Some(path)
    ensures AfterProceed(AfterNavigate(s, path)) ==
      ModalState(true, Loading(LoadingHeading(path)), Some(path), s.pending + [path])
  {
  }

  /** Outside the prompt, `navigateTo` changes nothing: the prompt is never restored. */
  lemma NavigateOutsidePromptChangesNothing(s: ModalState, path: string)
    requires !s.view.Confirm?
    ensures AfterNavigate(s, path) == s
  {
  }

  /** `closeModal` hides the modal from any state, changes nothing else, and a second call changes nothing. */
  lemma CloseHidesOnly(s: ModalState)
    ensures !AfterClose(s).visible
    ensures AfterClose(s).view == s.view && AfterClose(s).storedPath == s.storedPath
    ensures AfterClose(s).pending == s.pending
    ensures AfterClose(AfterClose(s)) == AfterClose(s)
    ensures !s.visible ==> AfterClose(s) == s
  {
  }

  /**
   * Closing does not cancel a scheduled swap: a swap that fires after a close
   * still puts the result view in place, and the order of the two does not matter.
   */
  lemma TimerIgnoresClose(s: ModalState)
    requires s.pending != []
    ensures AfterTimer(AfterClose(s)).view == Result(ResultPathText(s.pending[0]))
    ensures !AfterTimer(AfterClose(s)).visible
    ensures AfterTimer(AfterClose(s)) == AfterClose(AfterTimer(s))
  {
  }

  /**
   * The whole sequence from page load: request, confirm, dismiss while
   * loading, the timer fires. The modal stays hidden with the result view
   * inside, and a later request cannot bring the prompt back.
   */
  lemma DismissDuringLoading(promptLabel: string, path: string, later: string)
    ensures
      var s := AfterTimer(AfterClose(AfterProceed(AfterNavigate(Initial(promptLabel), path))));
      s == ModalState(false, Result("/" + path + "/"), Some(path), []) &&
      AfterNavigate(s, later) == s
  {
  }

  /** The three known paths get their table label. */
  lemma KnownLabels()
    ensures TopicLabel("html-deep-dive") == "HTML"
    ensures TopicLabel("css-deep-dive") == "CSS"
    ensures TopicLabel("js-deep-dive") == "JavaScript"
  {
  }

  /** An unknown path is labelled by its first segment: `unknown-path-x` gives `UNKNOWN`. */
  lemma UnknownPathLabel()
    ensures TopicLabel("unknown-path-x") == "UNKNOWN"
  {
    UnknownPathIsNoKey();
    UnknownPathSegment();
    UpperUnknown();
  }

  /** `unknown-path-x` is not one of the three table keys. */
  lemma UnknownPathIsNoKey()
    ensures "unknown-path-x" !in TopicMap
  {
    assert "unknown-path-x"[0] == 'u';
  }

  /** Upper-casing `unknown`. */
  lemma UpperUnknown()
    ensures Upper("unknown") == "UNKNOWN"
  {
  }

  /** The text of `unknown-path-x` before its first '-'. */
  lemma UnknownPathSegment()
    ensures FirstSegment("unknown-path-x") == "unknown"
  {
    var u := "unknown-path-x";
    assert u[..7] == "unknown";
    DashAt(u, 7);
  }

  /** The loading heading of `html-deep-dive` reads `HTML DEEP-DIVE`: only the first '-' is replaced. */
  lemma LoadingTopicExample()
    ensures LoadingTopic("html-deep-dive") == "HTML DEEP-DIVE"
  {
    HtmlDeepDiveReplaced();
    UpperHtmlDeepDive();
  }

  /** Upper-casing `html deep-dive`; the remaining '-' is kept. */
  lemma UpperHtmlDeepDive()
    ensures Upper("html deep-dive") == "HTML DEEP-DIVE"
  {
  }

  /** `html-deep-dive` with its first '-' replaced by a space. */
  lemma HtmlDeepDiveReplaced()
    ensures ReplaceFirstDash("html-deep-dive") == "html deep-dive"
  {
    var h := "html-deep-dive";
    assert h[..4] == "html";
    DashAt(h, 4);
  }

  /** The modal and the globals the navigation functions update in place. */
  class NavigationModal {
    var visible: bool
    var view: View
    var currentNavigationPath: Option<string>
    var pendingSwaps: seq<string>

    function State(): ModalState
      reads this
    {
      ModalState(visible, view, currentNavigationPath, pendingSwaps)
    }

    constructor (promptLabel: string)
      ensures State() == Initial(promptLabel)
    {
      visible := false;
      view := Confirm(promptLabel);
      currentNavigationPath := None;
      pendingSwaps := [];
    }

    /** `navigateTo(path)`; `ok` is false when the call throws because the prompt is gone. */
    method NavigateTo(path: string) returns (ok: bool)
      modifies this
      ensures ok == old(view).Confirm?
      ensures ok ==> visible && view == Confirm(TopicLabel(path)) && currentNavigationPath == Some(path)
      ensures State() == AfterNavigate(old(State()), path)
    {
      ok := view.Confirm?;
      if !ok {
        return;
      }
      var topic := TopicLabel(path);
      view := Confirm(topic);
      currentNavigationPath := Some(path);
      visible := true;
    }

    /** `proceedNavigation()`; `ok` is false when the call throws because no path was ever stored. */
    method ProceedNavigation() returns (ok: bool)
      modifies this
      ensures ok == old(currentNavigationPath).Some?
      ensures ok ==> view == Loading(LoadingHeading(old(currentNavigationPath).value))
      ensures State() == AfterProceed(old(State()))
    {
      match currentNavigationPath {
        case None =>
          ok := false;
        case Some(path) =>
          view := Loading(LoadingHeading(path));
          pendingSwaps := pendingSwaps + [path];
          ok := true;
      }
    }

    /** The earliest pending 2000 ms timer of `proceedNavigation` fires. */
    method SwapTimerFires()
      requires pendingSwaps != []
      modifies this
      ensures view == Result(ResultPathText(old(pendingSwaps)[0]))
      ensures visible == old(visible)
      ensures State() == AfterTimer(old(State()))
    {
      var path := pendingSwaps[0];
      pendingSwaps := pendingSwaps[1..];
      view := Result(ResultPathText(path));
    }

    /** `closeModal()`, both the method of `InterviewApp` and the global function. */
    method CloseModal()
      modifies this
      ensures !visible
      ensures State() == AfterClose(old(State()))
    {
      visible := false;
    }

    /** The `keydown` listener: Escape closes, any other key does nothing. */
    method KeyDown(key: string)
      modifies this
      ensures State() == if key == "Escape" then AfterClose(old(State())) else old(State())
    {
      if key == "Escape" {
        CloseModal();
      }
    }

    /** The window `click` listener: a click whose target is the modal backdrop closes it. */
    method WindowClick(targetIsModal: bool)
      modifies this
      ensures State() == if targetIsModal then AfterClose(old(State())) else old(State())
    {
      if targetIsModal {
        CloseModal();
      }
    }
  }
}
