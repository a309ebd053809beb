/**
 * What the content script's handlers promise, stated over the value-level
 * specification in module Content: the gate, the cache, the level change,
 * the error path with its Retry button, the tooltip's visibility and the
 * bookkeeping of requests in flight.
 */
module ContentProperties {
  import opened Basics
  import opened FrenchText
  import opened Content
  import Uri

  // ---------------------------------------------------------------------
  // Settings

  /** Stored keys override, missing keys keep the current value, and reading
      the same answer twice changes nothing more. */
  lemma StoredKeysOverride(current: Settings, stored: Stored)
    ensures MergeStored(current, Stored(None, None)) == current
    ensures MergeStored(MergeStored(current, stored), stored) == MergeStored(current, stored)
    ensures stored.enabled.Some? && stored.languageLevel.Some? ==>
              MergeStored(current, stored) == Settings(stored.enabled.value, stored.languageLevel.value)
    ensures stored.enabled.None? ==> MergeStored(current, stored).enabled == current.enabled
    ensures stored.languageLevel.None? ==> MergeStored(current, stored).languageLevel == current.languageLevel
  {
  }

  /** With nothing in the store the page works enabled, at level A1. */
  lemma EmptyStoreKeepsDefaults()
    ensures LoadStoredStep(InitialState, Stored(None, None)).settings == Settings(true, "A1")
  {
  }

  // ---------------------------------------------------------------------
  // The gate

  /** Text with no character outside the Basic Multilingual Plane has as many
      UTF-16 code units as characters. */
  lemma {:induction false} Utf16LengthOfBmp(t: string)
    requires forall k :: 0 <= k < |t| ==> t[k] as int < 0x1_0000
    ensures Utf16Length(t) == |t|
  {
    if t != [] {
      Utf16LengthOfBmp(t[1..]);
    }
  }

  /** `text.length` is additive over concatenation. */
  lemma {:induction false} Utf16LengthAppend(a: string, b: string)
    ensures Utf16Length(a + b) == Utf16Length(a) + Utf16Length(b)
  {
    if a != [] {
      assert (a + b)[0] == a[0] && (a + b)[1..] == a[1..] + b;
      Utf16LengthAppend(a[1..], b);
    } else {
      assert a + b == b;
    }
  }

  /** The emptiness test is subsumed by the length test. */
  lemma GateIsLengthAndHeuristic(t: string)
    ensures PassesGate(t) <==> Utf16Length(t) > 10 && IsFrenchText(t)
  {
  }

  /** A text rejected by the gate changes nothing and sends nothing. */
  lemma GateRejectionIsSilent(s: PageState, text: string, selection: Option<Rect>, vp: Viewport)
    requires !PassesGate(text)
    ensures Pipeline(s, text, selection, vp) == (s, None)
    ensures Receive(s, SimplifySelectedText(text), selection, vp) == (s, None)
  {
  }

  // ---------------------------------------------------------------------
  // handleTextSimplification and showSimplifiedTooltip

  /** A request is sent exactly for a gated text with a selection that is not
      cached; it carries the current level and joins the requests in flight.
      Settings and cache never change here. */
  lemma RequestExactlyWhenUncached(s: PageState, text: string, selection: Option<Rect>, vp: Viewport)
    ensures var (s', sent) := Pipeline(s, text, selection, vp);
      && (sent.Some? <==> PassesGate(text) && selection.Some? && text !in s.cache)
      && (sent.Some? ==> sent.value == Request(text, s.settings.languageLevel) && s'.inFlight == s.inFlight + [sent.value])
      && (sent.None? ==> s'.inFlight == s.inFlight)
      && s'.settings == s.settings && s'.cache == s.cache
  {
  }

  /** Once the gate passes with a selection the tooltip is shown below it:
      loading while the request is pending, the cached result at once otherwise. */
  lemma TooltipShownAtSelection(s: PageState, text: string, rect: Rect, vp: Viewport)
    requires PassesGate(text)
    ensures var (s', sent) := Pipeline(s, text, Some(rect), vp);
      && s'.overlay.Element? && s'.overlay.visible
      && s'.overlay.placement == Some(PlaceTooltip(rect, vp))
      && (sent.Some? ==> s'.overlay.view == Loading(text))
      && (text in s.cache ==> s'.overlay.view == ViewFor(text, s.cache[text]))
  {
  }

  /** Asking again for a cached text is idempotent: no request, same state. */
  lemma CachedTextIsIdempotent(s: PageState, text: string, selection: Option<Rect>, vp: Viewport)
    requires text in s.cache
    ensures var (s1, sent1) := Pipeline(s, text, selection, vp);
      sent1 == None && Pipeline(s1, text, selection, vp) == (s1, None)
  {
  }

  /** Every handler keeps the tooltip in place while requests are in flight. */
  lemma {:induction false} HandlersPreserveConsistency(s: PageState, msg: Message, selection: Option<Rect>, vp: Viewport,
                                                      stored: Stored, encoded: string, inside: bool)
    requires Consistent(s)
    ensures Consistent(LoadStoredStep(s, stored))
    ensures Consistent(Receive(s, msg, selection, vp).0)
    ensures Consistent(RetryStep(s, encoded, selection, vp).0)
    ensures Consistent(Click(s, inside))
    ensures forall i: nat, outcome :: i < |s.inFlight| ==> Consistent(Completion(s, i, outcome))
  {
    if msg.SimplifySelectedText? {
      PipelineConsistent(s, msg.text, selection, vp);
    }
    match Uri.DecodeURIComponent(encoded) {
      case None =>
      case Some(text) => PipelineConsistent(s, text, selection, vp);
    }
  }

  lemma PipelineConsistent(s: PageState, text: string, selection: Option<Rect>, vp: Viewport)
    requires Consistent(s)
    ensures Consistent(Pipeline(s, text, selection, vp).0)
  {
  }

  // ---------------------------------------------------------------------
  // Completion of a request

  /** A completion removes exactly its own request, keeps the settings, the
      tooltip's visibility and position, and renders the result for the text
      of that request. */
  lemma CompletionBookkeeping(s: PageState, i: nat, outcome: FetchOutcome)
    requires Consistent(s) && i < |s.inFlight|
    ensures var s' := Completion(s, i, outcome);
      && multiset(s'.inFlight) + multiset{s.inFlight[i]} == multiset(s.inFlight)
      && |s'.inFlight| == |s.inFlight| - 1
      && s'.settings == s.settings
      && s'.overlay.Element?
      && s'.overlay.visible == s.overlay.visible
      && s'.overlay.placement == s.overlay.placement
      && s'.overlay.view == ViewFor(s.inFlight[i].text, ResultOf(Settle(outcome)))
  {
    var r := s.inFlight;
    assert r == r[..i] + [r[i]] + r[i + 1..];
    assert multiset(r) == multiset(r[..i]) + multiset{r[i]} + multiset(r[i + 1..]);
  }

  /** The cache only ever gains the `simplified_text` of a successful reply for
      the text of the completed request; everything else stays as it was. */
  lemma CompletionCachesOnlySuccess(s: PageState, i: nat, outcome: FetchOutcome)
    requires Consistent(s) && i < |s.inFlight|
    ensures var s' := Completion(s, i, outcome);
      var text := s.inFlight[i].text;
      && (forall t :: t in s.cache ==> t in s'.cache)
      && (forall t :: t in s'.cache && t != text ==> t in s.cache && s'.cache[t] == s.cache[t])
      && (Settle(outcome).Err? ==> s'.cache == s.cache)
      && (Settle(outcome).Ok? ==> text in s'.cache && s'.cache[text] == Settle(outcome).value)
  {
  }

  /** Every failure is rendered as the single error message naming its cause,
      with a Retry button for the original text; the cache is untouched. */
  lemma FailureShowsCause(s: PageState, i: nat, outcome: FetchOutcome, cause: string)
    requires Consistent(s) && i < |s.inFlight|
    requires Settle(outcome) == Err(cause)
    ensures var s' := Completion(s, i, outcome);
      && s'.cache == s.cache
      && s'.overlay.view == Failed(s.inFlight[i].text, FailureText(cause))
      && CouldNotSimplify <= s'.overlay.view.message
  {
    FailureTextNamesCause(cause);
  }

  /** The failure message starts with the fixed sentence and "Error:", and the
      cause can be read back from it. */
  lemma FailureTextNamesCause(cause: string)
    ensures ErrorPrefix <= CouldNotSimplify <= FailureText(cause)
    ensures |FailureText(cause)| == |FailureIntro| + |cause| + 1
    ensures FailureText(cause)[|FailureIntro|..|FailureIntro| + |cause|] == cause
    ensures forall other :: FailureText(other) == FailureText(cause) ==> other == cause
  {
    assert ErrorPrefix == CouldNotSimplify[..|ErrorPrefix|];
    assert CouldNotSimplify == FailureIntro[..|CouldNotSimplify|];
    assert FailureText(cause) == FailureIntro + (cause + ")");
    forall other | FailureText(other) == FailureText(cause)
      ensures other == cause
    {
      assert other == FailureText(other)[|FailureIntro|..|FailureIntro| + |other|];
    }
  }

  /** The cause of each kind of failure, in the order simplifyText checks them. */
  lemma FailureCauses(outcome: FetchOutcome)
    ensures outcome.NetworkFailure? ==> Settle(outcome) == Err(outcome.message)
    ensures outcome.HttpReply? && !IsOk(outcome.status) ==>
              Settle(outcome) == Err("Server returned " + NatToString(outcome.status) + ": " + outcome.statusText)
    ensures outcome.HttpReply? && IsOk(outcome.status) && outcome.body.Unreadable? ==>
              Settle(outcome) == Err(outcome.body.message)
    ensures outcome.HttpReply? && IsOk(outcome.status) && outcome.body.JsonBody? && outcome.body.error != "" ==>
              Settle(outcome) == Err(outcome.body.error)
  {
  }

  /** A successful reply is cached, so the same text selected again is
      answered from the cache with the same view and no new request. */
  lemma {:induction false} SuccessIsReused(s: PageState, text: string, rect: Rect, rect2: Rect, vp: Viewport, vp2: Viewport,
                                          outcome: FetchOutcome)
    requires Consistent(s)
    requires PassesGate(text) && text !in s.cache
    requires Settle(outcome).Ok?
    ensures var (s1, sent) := Pipeline(s, text, Some(rect), vp);
      var s2 := Completion(s1, |s.inFlight|, outcome);
      var (s3, again) := Pipeline(s2, text, Some(rect2), vp2);
      && sent == Some(Request(text, s.settings.languageLevel))
      && s2.cache == s.cache[text := Settle(outcome).value]
      && s2.inFlight == s.inFlight
      && s2.overlay.view == ViewFor(text, Settle(outcome).value)
      && again == None
      && s3.overlay.view == s2.overlay.view
  {
    var (s1, sent) := Pipeline(s, text, Some(rect), vp);
    assert s1.inFlight == s.inFlight + [Request(text, s.settings.languageLevel)];
    assert s1.inFlight[..|s.inFlight|] == s.inFlight;
  }

  /** A reply without `simplified_text` is cached as `undefined`: every later
      selection of that text, and every Retry of it, shows the same error
      without asking the service again, until the level changes. */
  lemma {:induction false} UndefinedReplyIsPermanent(s: PageState, i: nat, outcome: FetchOutcome,
                                                    selection: Option<Rect>, vp: Viewport)
    requires Consistent(s) && i < |s.inFlight|
    requires Settle(outcome) == Ok(Undefined)
    requires PassesGate(s.inFlight[i].text) && '\'' !in s.inFlight[i].text && selection.Some?
    ensures var s1 := Completion(s, i, outcome);
      var text := s.inFlight[i].text;
      && s1.overlay.view == Failed(text, ErrorPrefix + " " + UndefinedStartsWith)
      && RetryArgument(s1.overlay.view).Some?
      && var (s2, sent) := RetryStep(s1, RetryArgument(s1.overlay.view).value, selection, vp);
         sent == None && s2.overlay.view == s1.overlay.view && s2.cache == s1.cache
  {
    var s1 := Completion(s, i, outcome);
    var text := s.inFlight[i].text;
    assert s1.cache[text] == Undefined;
    assert RetryStep(s1, RetryArgument(s1.overlay.view).value, selection, vp) == Pipeline(s1, text, selection, vp);
  }

  // ---------------------------------------------------------------------
  // Messages

  /** A level change empties the cache, so a text simplified before is sent
      again, now with the new level. */
  lemma LevelChangeForcesNewRequest(s: PageState, level: string, text: string, rect: Rect, vp: Viewport)
    requires s.settings.enabled && PassesGate(text)
    ensures var s1 := Receive(s, UpdateLanguageLevel(level), None, vp).0;
      && s1.cache == map[]
      && s1.settings == s.settings.(languageLevel := level)
      && Receive(s1, SimplifySelectedText(text), Some(rect), vp).1 == Some(Request(text, level))
  {
  }

  /** A reply that completes after a level change is still cached under its
      text, although it was produced for the previous level; the same text is
      then shown from the cache and not sent at the new level. */
  lemma StaleReplyIsCached(s: PageState, i: nat, outcome: FetchOutcome, rect: Rect, vp: Viewport)
    requires Consistent(s) && i < |s.inFlight|
    requires s.inFlight[i].level != s.settings.languageLevel
    requires Settle(outcome).Ok?
    ensures var s1 := Completion(s, i, outcome);
      var text := s.inFlight[i].text;
      && s1.cache[text] == Settle(outcome).value
      && Pipeline(s1, text, Some(rect), vp).1 == None
  {
  }

  /** Toggling only flips `enabled`. */
  lemma ToggleOnlyChangesEnabled(s: PageState, enabled: bool, selection: Option<Rect>, vp: Viewport)
    ensures Receive(s, ToggleExtension(enabled), selection, vp) == (s.(settings := s.settings.(enabled := enabled)), None)
  {
  }

  /** A disabled page ignores selections, and unknown actions are ignored always. */
  lemma IgnoredMessages(s: PageState, text: string, action: string, selection: Option<Rect>, vp: Viewport)
    ensures !s.settings.enabled ==> Receive(s, SimplifySelectedText(text), selection, vp) == (s, None)
    ensures Receive(s, OtherAction(action), selection, vp) == (s, None)
  {
  }

  // ---------------------------------------------------------------------
  // The tooltip and its Retry button

  /** A click outside hides the tooltip and keeps its content and position; a
      click inside changes nothing. */
  lemma ClickVisibility(s: PageState, inside: bool)
    ensures Click(s, true) == s
    ensures s.overlay.Element? && !inside ==>
      Click(s, inside).overlay == Element(false, s.overlay.view, s.overlay.placement)
    ensures Click(s, inside).cache == s.cache && Click(s, inside).inFlight == s.inFlight
  {
  }

  /** Retry runs the gate again on the original text, whether or not the
      extension is enabled. */
  lemma {:induction false} RetryReappliesGate(s: PageState, v: View, selection: Option<Rect>, vp: Viewport)
    requires v.Failed? && '\'' !in v.original
    ensures RetryStep(s, RetryArgument(v).value, selection, vp) == Pipeline(s, v.original, selection, vp)
  {
  }

  /** An argument that is not valid percent-encoding ends the retry with a URIError. */
  lemma MalformedRetryIsIgnored(s: PageState, encoded: string, selection: Option<Rect>, vp: Viewport)
    requires Uri.DecodeURIComponent(encoded).None?
    ensures RetryStep(s, encoded, selection, vp) == (s, None)
  {
  }

  /** A click on the Retry button either changes nothing or reruns the
      pipeline on the original text and leaves the tooltip hidden: the
      handler's loading markup detaches the button before the click reaches
      the document's listener. The rerun happens exactly when the text has no
      apostrophe, passes the gate and a selection range exists. */
  lemma RetryButtonHidesTooltip(s: PageState, selection: Option<Rect>, vp: Viewport)
    requires s.overlay.Element? && s.overlay.view.Failed?
    ensures var v := s.overlay.view;
      var (s', sent) := RetryButtonClick(s, selection, vp);
      var (p, request) := Pipeline(s, v.original, selection, vp);
      if '\'' !in v.original && PassesGate(v.original) && selection.Some? then
        s' == p.(overlay := p.overlay.(visible := false)) && sent == request && !s'.overlay.visible
      else
        s' == s && sent == None
  {
    var v := s.overlay.view;
    if '\'' !in v.original {
      RetryReappliesGate(s, v, selection, vp);
    }
  }
}
