/**
 * Runs of the content script's page from its start: each method creates a
 * fresh Page and drives it through messages, completions, clicks and
 * retries, and states what the page sent and showed.
 */
module Scenarios {
  import opened Basics
  import opened FrenchText
  import opened Content
  import ContentProperties
  import Uri

  const Sentence: string := "Je vais dans le magasin avec elle."

  /** The pronoun "Je" and the preposition "dans" make the sentence French. */
  lemma SentencePassesGate()
    ensures PassesGate(Sentence)
  {
    JeOpensSentence();
    DansInSentence();
    assert "je" in FrenchPatterns[1] && "dans" in FrenchPatterns[3];
    TwoGroupsSuffice(Sentence, 1, "je", 0, 3, "dans", 8);
  }

  lemma JeOpensSentence()
    ensures WordAt(Sentence, "je", 0)
  {
    assert Sentence[0] == 'J' && Sentence[1] == 'e' && Sentence[2] == ' ';
  }

  lemma DansInSentence()
    ensures WordAt(Sentence, "dans", 8)
  {
    assert Sentence[7] == ' ' && Sentence[8] == 'd' && Sentence[9] == 'a';
    assert Sentence[10] == 'n' && Sentence[11] == 's' && Sentence[12] == ' ';
  }

  /** Seven characters are too short for the gate. */
  lemma ShortGreetingFailsGate()
    ensures !PassesGate("Bonjour")
  {
    ContentProperties.Utf16LengthOfBmp("Bonjour");
  }

  const HelloWorld: string := "Hello world"

  /** `\b` holds in "Hello world" only around its two words. */
  lemma HelloWorldBoundaries(k: int)
    requires AtBoundary(HelloWorld, k)
    ensures k == 0 || k == 5 || k == 6 || k == 11
  {
  }

  /** A word of two to five letters whose first letter, when it has five, is
      neither h nor w: every word of the four groups is one. */
  predicate Excluded(w: string) {
    2 <= |w| <= 5 && (|w| == 5 ==> 'a' <= w[0] <= 'g')
  }

  /** Such a word does not occur: only five-letter words at positions 0 and 6
      sit between two boundaries. */
  lemma ExcludedWordAbsent(w: string, i: int)
    requires Excluded(w)
    ensures !WordAt(HelloWorld, w, i)
  {
    if WordAt(HelloWorld, w, i) {
      HelloWorldBoundaries(i);
      HelloWorldBoundaries(i + |w|);
      assert false;
    }
  }

  /** No word of any group occurs in "Hello world". */
  lemma HelloWorldHasNoGroup(g: nat)
    requires g < |FrenchPatterns|
    ensures !GroupMatches(HelloWorld, FrenchPatterns[g])
  {
    assert forall w :: w in Determiners ==> Excluded(w);
    assert forall w :: w in Pronouns ==> Excluded(w);
    assert forall w :: w in Verbs ==> Excluded(w);
    assert forall w :: w in Prepositions ==> Excluded(w);
    forall w, i | w in FrenchPatterns[g]
      ensures !WordAt(HelloWorld, w, i)
    {
      ExcludedWordAbsent(w, i);
    }
  }

  /** "Hello world" is long enough but not French. */
  lemma HelloWorldFailsGate()
    ensures !PassesGate(HelloWorld)
  {
    forall g: nat | g < |FrenchPatterns|
      ensures !GroupMatches(HelloWorld, FrenchPatterns[g])
    {
      HelloWorldHasNoGroup(g);
    }
    assert MatchingGroups(HelloWorld, FrenchPatterns) == {};
  }

  /** The French sentence is sent at the default level A1, and a reply is
      shown as its simplified version with the original. */
  method SimplifySentence(rect: Rect, vp: Viewport, reply: string) returns (sent: Option<Request>, view: View)
    requires !(ErrorPrefix <= reply)
    ensures sent == Some(Request(Sentence, "A1"))
    ensures view == Simplified(reply, Sentence)
  {
    SentencePassesGate();
    sent, view := SimplifySelection(Sentence, rect, vp, reply);
  }

  /** A French selection is sent at the default level A1, and a reply is
      shown as its simplified version with the original. */
  method SimplifySelection(text: string, rect: Rect, vp: Viewport, reply: string) returns (sent: Option<Request>, view: View)
    requires PassesGate(text) && !(ErrorPrefix <= reply)
    ensures sent == Some(Request(text, "A1"))
    ensures view == Simplified(reply, text)
  {
    var page := new Page();
    sent := page.OnMessage(SimplifySelectedText(text), Some(rect), vp);
    page.Complete(0, HttpReply(200, "OK", JsonBody("", Str(reply))));
    view := page.tooltip.view;
  }

  /** Short or non-French selections leave the page untouched: no request and no tooltip. */
  method RejectedSelections(rect: Rect, vp: Viewport) returns (short: Option<Request>, english: Option<Request>, created: bool)
    ensures short == None && english == None && !created
  {
    ShortGreetingFailsGate();
    HelloWorldFailsGate();
    var createdShort, createdEnglish;
    short, createdShort := IgnoredSelection("Bonjour", rect, vp);
    english, createdEnglish := IgnoredSelection(HelloWorld, rect, vp);
    created := createdShort || createdEnglish;
  }

  /** A selection failing the gate sends nothing and creates no tooltip. */
  method IgnoredSelection(text: string, rect: Rect, vp: Viewport) returns (sent: Option<Request>, created: bool)
    requires !PassesGate(text)
    ensures sent == None && !created
  {
    var page := new Page();
    sent := page.OnMessage(SimplifySelectedText(text), Some(rect), vp);
    created := page.tooltip != null;
  }

  /** A second selection of the same text is answered from the cache; after a
      level change the text is sent again with the new level. */
  method CacheThenLevelChange(text: string, rect: Rect, vp: Viewport, reply: string)
    returns (first: Option<Request>, second: Option<Request>, third: Option<Request>, cachedView: View)
    requires PassesGate(text) && !(ErrorPrefix <= reply)
    ensures first == Some(Request(text, "A1"))
    ensures second == None && cachedView == Simplified(reply, text)
    ensures third == Some(Request(text, "B2"))
  {
    var page := new Page();
    first := page.OnMessage(SimplifySelectedText(text), Some(rect), vp);
    page.Complete(0, HttpReply(200, "OK", JsonBody("", Str(reply))));
    second := page.OnMessage(SimplifySelectedText(text), Some(rect), vp);
    cachedView := page.tooltip.view;
    var _ := page.OnMessage(UpdateLanguageLevel("B2"), None, vp);
    third := page.OnMessage(SimplifySelectedText(text), Some(rect), vp);
  }

  /** With the service down the tooltip shows the error naming the cause. A
      click on its Retry button sends the text again but also hides the
      tooltip, and the next reply is rendered into the hidden tooltip. */
  method ErrorThenRetry(text: string, rect: Rect, vp: Viewport, cause: string, reply: string)
    returns (failed: View, retried: Option<Request>, visibleAfterClick: bool, final: View, visibleAtEnd: bool)
    requires PassesGate(text) && '\'' !in text && !(ErrorPrefix <= reply)
    ensures failed == Failed(text, FailureText(cause))
    ensures retried == Some(Request(text, "A1"))
    ensures !visibleAfterClick && !visibleAtEnd
    ensures final == Simplified(reply, text)
  {
    var page := new Page();
    var _ := page.OnMessage(SimplifySelectedText(text), Some(rect), vp);
    page.Complete(0, NetworkFailure(cause));
    failed := page.tooltip.view;
    retried := page.ClickRetryButton(Some(rect), vp);
    visibleAfterClick := page.tooltip.visible;
    page.Complete(0, HttpReply(200, "OK", JsonBody("", Str(reply))));
    final := page.tooltip.view;
    visibleAtEnd := page.tooltip.visible;
  }

  /** A text with an apostrophe gets an error view whose Retry button cannot
      work: clicking it sends nothing and leaves the error shown. */
  method ApostropheBlocksRetry(text: string, rect: Rect, vp: Viewport, status: nat, statusText: string)
    returns (failed: View, retried: Option<Request>, afterClick: View, visibleAfterClick: bool)
    requires PassesGate(text) && '\'' in text && !IsOk(status)
    ensures failed == Failed(text, FailureText("Server returned " + NatToString(status) + ": " + statusText))
    ensures RetryArgument(failed) == None
    ensures retried == None && afterClick == failed && visibleAfterClick
  {
    var page := new Page();
    var _ := page.OnMessage(SimplifySelectedText(text), Some(rect), vp);
    page.Complete(0, HttpReply(status, statusText, Unreadable("not read")));
    failed := page.tooltip.view;
    retried := page.ClickRetryButton(Some(rect), vp);
    afterClick := page.tooltip.view;
    visibleAfterClick := page.tooltip.visible;
  }

  /** A reply that arrives after a level change is cached and then shown for
      the same text, although it was made for the previous level. */
  method StaleReplyAfterLevelChange(text: string, rect: Rect, vp: Viewport, reply: string)
    returns (sent: Option<Request>, again: Option<Request>, view: View)
    requires PassesGate(text) && !(ErrorPrefix <= reply)
    ensures sent == Some(Request(text, "A1"))
    ensures again == None && view == Simplified(reply, text)
  {
    var page := new Page();
    sent := page.OnMessage(SimplifySelectedText(text), Some(rect), vp);
    var _ := page.OnMessage(UpdateLanguageLevel("B2"), None, vp);
    page.Complete(0, HttpReply(200, "OK", JsonBody("", Str(reply))));
    again := page.OnMessage(SimplifySelectedText(text), Some(rect), vp);
    view := page.tooltip.view;
  }

  /** A disabled page ignores selections until it is enabled again. */
  method DisabledThenEnabled(text: string, rect: Rect, vp: Viewport)
    returns (whileDisabled: Option<Request>, afterEnabling: Option<Request>)
    requires PassesGate(text)
    ensures whileDisabled == None
    ensures afterEnabling == Some(Request(text, "A1"))
  {
    var page := new Page();
    var _ := page.OnMessage(ToggleExtension(false), None, vp);
    whileDisabled := page.OnMessage(SimplifySelectedText(text), Some(rect), vp);
    var _ := page.OnMessage(ToggleExtension(true), None, vp);
    afterEnabling := page.OnMessage(SimplifySelectedText(text), Some(rect), vp);
  }

  /** A click inside keeps the tooltip shown; a click outside hides it, and the
      reply that arrives later fills the hidden tooltip without showing it. */
  method ClicksAndLateReply(text: string, rect: Rect, vp: Viewport, reply: string)
    returns (afterInside: bool, afterOutside: bool, afterReply: bool, view: View)
    requires PassesGate(text) && !(ErrorPrefix <= reply)
    ensures afterInside && !afterOutside && !afterReply
    ensures view == Simplified(reply, text)
  {
    var page := new Page();
    var _ := page.OnMessage(SimplifySelectedText(text), Some(rect), vp);
    page.OnDocumentClick(true);
    afterInside := page.tooltip.visible;
    page.OnDocumentClick(false);
    afterOutside := page.tooltip.visible;
    page.Complete(0, HttpReply(200, "OK", JsonBody("", Str(reply))));
    afterReply := page.tooltip.visible;
    view := page.tooltip.view;
  }
}
