/**
 * The content script of the extension: the page-side coordinator that keeps
 * the settings pushed to it, caches simplifications by exact text, gates
 * selections through the French-text heuristic, asks the service for a
 * simplification and drives the tooltip through its loading, result and
 * error views.
 *
 * The host is reduced to values: the persistent store's answer, the messages
 * delivered to the page, the selection's bounding box (None when the page has
 * no selection range), the viewport, the outcome of each network request and
 * whether a click landed inside the tooltip. `simplifyText` is split at its
 * `await`: a request is sent (it joins `inFlight`) and later completes with an
 * outcome, while other events may run in between.
 *
 * The value-level functions below (over PageState) specify every handler;
 * the class Page holds the state the script updates in place and its methods
 * are proved to follow those functions.
 */
module Content {
  import opened Basics
  import opened FrenchText
  import Uri

  // ---------------------------------------------------------------------
  // Settings and messages

  datatype Settings = Settings(enabled: bool, languageLevel: string)

  /** The settings the script starts with, before the store answers. */
  const Defaults: Settings := Settings(true, "A1")

  /** The store's answer: a key is present only when it is stored. */
  datatype Stored = Stored(enabled: Option<bool>, languageLevel: Option<string>)

  /** `{ ...settings, ...result }`: each stored key overrides the current value. */
  function MergeStored(current: Settings, stored: Stored): Settings {
    Settings(
      if stored.enabled.Some? then stored.enabled.value else current.enabled,
      if stored.languageLevel.Some? then stored.languageLevel.value else current.languageLevel)
  }

  /** The messages the script reacts to; any other action is ignored. */
  datatype Message =
    | ToggleExtension(enabled: bool)
    | UpdateLanguageLevel(level: string)
    | SimplifySelectedText(text: string)
    | OtherAction(action: string)

  // ---------------------------------------------------------------------
  // The gate

  /** The number of UTF-16 code units of one character. */
  function CodeUnits(c: char): nat {
    if c as int < 0x1_0000 then 1 else 2
  }

  /** `text.length`: the number of UTF-16 code units of the text. */
  function Utf16Length(t: string): (n: nat)
    ensures |t| <= n <= 2 * |t|
  {
    if t == [] then 0 else CodeUnits(t[0]) + Utf16Length(t[1..])
  }

  /** `text && text.length > 10 && isFrenchText(text)`. */
  predicate PassesGate(t: string) {
    t != "" && Utf16Length(t) > 10 && IsFrenchText(t)
  }

  // ---------------------------------------------------------------------
  // Placement

  /** The selection's bounding box, in viewport coordinates. */
  datatype Rect = Rect(left: int, bottom: int)
  datatype Viewport = Viewport(innerWidth: int, scrollX: int, scrollY: int)
  datatype Placement = Placement(left: int, top: int)

  /** The tooltip's maximum width, from its style sheet. */
  const TooltipWidth: int := 400
  const EdgeMargin: int := 20
  const Gap: int := 10

  /** Below the selection, at its left edge, moved left when the tooltip would
      pass the viewport's right edge. */
  function PlaceTooltip(rect: Rect, vp: Viewport): (p: Placement)
    ensures p.top == rect.bottom + vp.scrollY + Gap
    ensures p.left + TooltipWidth <= vp.innerWidth
    ensures p.left <= rect.left + vp.scrollX
    ensures rect.left + vp.scrollX + TooltipWidth <= vp.innerWidth ==> p.left == rect.left + vp.scrollX
    ensures p.left != rect.left + vp.scrollX ==> p.left == vp.innerWidth - TooltipWidth - EdgeMargin
  {
    var x := rect.left + vp.scrollX;
    var left := if x + TooltipWidth > vp.innerWidth then vp.innerWidth - TooltipWidth - EdgeMargin else x;
    Placement(left, rect.bottom + vp.scrollY + Gap)
  }

  // ---------------------------------------------------------------------
  // Requests and their outcomes

  /** A JavaScript value read as `data.simplified_text`: a string or `undefined`. */
  datatype JsText = Str(value: string) | Undefined

  /** The JSON of a reply: its `error` field (the empty string when absent or
      falsy) and its `simplified_text`; or the message of the error raised
      while reading it (invalid JSON, or `null` whose fields cannot be read). */
  datatype ReplyBody = JsonBody(error: string, simplifiedText: JsText) | Unreadable(message: string)

  /** What `fetch` gives: a rejected promise with its message, or a response. */
  datatype FetchOutcome =
    | NetworkFailure(message: string)
    | HttpReply(status: nat, statusText: string, body: ReplyBody)

  predicate IsOk(status: nat) {
    200 <= status <= 299
  }

  /** The try block of simplifyText: the simplified text, or the message of the error caught. */
  function Settle(outcome: FetchOutcome): (r: Result<JsText, string>)
    ensures r.Ok? <==> outcome.HttpReply? && IsOk(outcome.status) && outcome.body.JsonBody? && outcome.body.error == ""
    ensures r.Ok? ==> r.value == outcome.body.simplifiedText
  {
    match outcome
    case NetworkFailure(message) => Err(message)
    case HttpReply(status, statusText, body) =>
      if !IsOk(status) then Err("Server returned " + NatToString(status) + ": " + statusText)
      else match body
        case Unreadable(message) => Err(message)
        case JsonBody(error, simplified) => if error != "" then Err(error) else Ok(simplified)
  }

  const CouldNotSimplify: string := "Error: Could not simplify text."
  const FailureIntro: string := CouldNotSimplify + " Please check if the server is running. ("

  /** The one string every failure of simplifyText becomes. */
  function FailureText(cause: string): string {
    FailureIntro + cause + ")"
  }

  /** What simplifyText resolves to after a request. */
  function ResultOf(r: Result<JsText, string>): JsText {
    match r
    case Ok(value) => value
    case Err(cause) => Str(FailureText(cause))
  }

  // ---------------------------------------------------------------------
  // Views

  /** What the tooltip shows (its content, without the markup). */
  datatype View =
    | Blank
    | Loading(text: string)
    | Simplified(simplified: string, original: string)
    | Failed(original: string, message: string)

  const ErrorPrefix: string := "Error:"

  /** The message of the TypeError raised by `simplified.startsWith` on `undefined`. */
  const UndefinedStartsWith: string := "Cannot read properties of undefined (reading 'startsWith')"

  /** The view showSimplifiedTooltip renders for the result of simplifyText: a
      result starting with "Error:" is an error with a Retry button, any other
      string the simplified version with the original; `undefined` makes
      `startsWith` throw, and the catch block renders an error. */
  function ViewFor(original: string, result: JsText): (v: View)
    ensures v.Simplified? || v.Failed?
    ensures v.Failed? <==> result.Undefined? || ErrorPrefix <= result.value
    ensures v.Simplified? ==> v == Simplified(result.value, original)
    ensures v.Failed? ==> v.original == original && ErrorPrefix <= v.message
    ensures result.Str? && v.Failed? ==> v.message == result.value
  {
    match result
    case Undefined =>
      assert ErrorPrefix <= ErrorPrefix + " " + UndefinedStartsWith;
      Failed(original, ErrorPrefix + " " + UndefinedStartsWith)
    case Str(s) => if ErrorPrefix <= s then Failed(original, s) else Simplified(s, original)
  }

  /** The argument of the Retry button's inline handler
      `retrySimplification('<encodeURIComponent(text)>')`: None when the
      encoded text holds an apostrophe, which closes the string literal early,
      so that no argument reaches retrySimplification that decodes to the text;
      for ordinary text the handler does not even parse. */
  function RetryArgument(v: View): (arg: Option<string>)
    ensures arg.Some? <==> v.Failed? && '\'' !in v.original
    ensures arg.Some? ==> Uri.DecodeURIComponent(arg.value) == Some(v.original)
  {
    if !v.Failed? then None
    else
      var encoded := Uri.EncodeURIComponent(v.original);
      Uri.ApostropheSurvivesEncoding(v.original);
      Uri.DecodeEncode(v.original);
      if '\'' in encoded then None else Some(encoded)
  }

  // ---------------------------------------------------------------------
  // The state of a page and the handlers over it

  /** The tooltip element: absent until first used, then its display, its
      content and its position. */
  datatype Overlay = NotCreated | Element(visible: bool, view: View, placement: Option<Placement>)

  /** A request in flight: the text and the level it was sent with. */
  datatype Request = Request(text: string, level: string)

  datatype PageState = PageState(
    settings: Settings,
    cache: map<string, JsText>,
    overlay: Overlay,
    inFlight: seq<Request>)

  const InitialState: PageState := PageState(Defaults, map[], NotCreated, [])

  /** Every request in flight was started by showSimplifiedTooltip, which created the tooltip. */
  predicate Consistent(s: PageState) {
    s.inFlight != [] ==> s.overlay.Element?
  }

  /** The store's answer arrives. */
  function LoadStoredStep(s: PageState, stored: Stored): PageState {
    s.(settings := MergeStored(s.settings, stored))
  }

  /** showSimplifiedTooltip up to its await: the loading view, then either the
      cached result or a new request with the current level. */
  function Show(s: PageState, text: string, rect: Rect, vp: Viewport): (PageState, Option<Request>) {
    var loading := Element(true, Loading(text), Some(PlaceTooltip(rect, vp)));
    if text in s.cache then
      (s.(overlay := loading.(view := ViewFor(text, s.cache[text]))), None)
    else
      var request := Request(text, s.settings.languageLevel);
      (s.(overlay := loading, inFlight := s.inFlight + [request]), Some(request))
  }

  /** handleTextSimplification: the gate, then showSimplifiedTooltip; without a
      selection range `getRangeAt(0)` throws before anything changes. */
  function Pipeline(s: PageState, text: string, selection: Option<Rect>, vp: Viewport): (PageState, Option<Request>) {
    if !PassesGate(text) || selection.None? then (s, None)
    else Show(s, text, selection.value, vp)
  }

  /** The message listener. */
  function Receive(s: PageState, msg: Message, selection: Option<Rect>, vp: Viewport): (PageState, Option<Request>) {
    match msg
    case ToggleExtension(enabled) => (s.(settings := s.settings.(enabled := enabled)), None)
    case UpdateLanguageLevel(level) => (s.(settings := s.settings.(languageLevel := level), cache := map[]), None)
    case SimplifySelectedText(text) => if s.settings.enabled then Pipeline(s, text, selection, vp) else (s, None)
    case OtherAction(_) => (s, None)
  }

  /** The request at index i completes: simplifyText caches a success and
      resolves, and showSimplifiedTooltip renders the result. */
  function Completion(s: PageState, i: nat, outcome: FetchOutcome): PageState
    requires Consistent(s) && i < |s.inFlight|
  {
    var request := s.inFlight[i];
    var r := Settle(outcome);
    PageState(
      s.settings,
      if r.Ok? then s.cache[request.text := r.value] else s.cache,
      s.overlay.(view := ViewFor(request.text, ResultOf(r))),
      s.inFlight[..i] + s.inFlight[i + 1..])
  }

  /** The document's click listener. */
  function Click(s: PageState, insideTooltip: bool): PageState {
    if s.overlay.Element? && !insideTooltip then s.(overlay := s.overlay.(visible := false)) else s
  }

  /** retrySimplification: decodes its argument (a URIError ends it) and runs
      the gated pipeline without looking at `enabled`. */
  function RetryStep(s: PageState, encoded: string, selection: Option<Rect>, vp: Viewport): (PageState, Option<Request>) {
    match Uri.DecodeURIComponent(encoded)
    case None => (s, None)
    case Some(text) => Pipeline(s, text, selection, vp)
  }

  /** Whether retrySimplification(encoded) replaces the tooltip's content before
      it first waits: the text decodes, passes the gate and a selection range
      exists, so that showSimplifiedTooltip writes the loading markup. */
  predicate Rerenders(encoded: string, selection: Option<Rect>) {
    match Uri.DecodeURIComponent(encoded)
    case None => false
    case Some(text) => PassesGate(text) && selection.Some?
  }

  /** A click on the Retry button of an error view. Its inline handler runs
      retrySimplification up to the first wait; the click then bubbles to the
      document's click listener. When the handler replaced the tooltip's
      content, the button is no longer inside the tooltip, so the listener
      hides it. Without a usable argument the handler does nothing and the
      click lands inside the tooltip. */
  function RetryButtonClick(s: PageState, selection: Option<Rect>, vp: Viewport): (PageState, Option<Request>)
    requires s.overlay.Element? && s.overlay.view.Failed?
  {
    match RetryArgument(s.overlay.view)
    case None => (Click(s, true), None)
    case Some(encoded) =>
      var (s', sent) := RetryStep(s, encoded, selection, vp);
      (Click(s', !Rerenders(encoded, selection)), sent)
  }

  // ---------------------------------------------------------------------
  // The page, updated in place

  /** The tooltip element; the model keeps the fields showSimplifiedTooltip
      and the click listener assign. */
  class TooltipElement {
    var visible: bool
    var view: View
    var placement: Option<Placement>

    /** createTooltip: hidden and empty. */
    constructor ()
      ensures !visible && view == Blank && placement == None
    {
      visible := false;
      view := Blank;
      placement := None;
    }
  }

  /** A completed request and the outcome of its `fetch`. */
  datatype Delivery = Delivery(request: Request, outcome: FetchOutcome)

  /** Every cached value is what simplifyText made of a successful outcome
      received for a request for its text. */
  ghost predicate CachedFromReplies(cache: map<string, JsText>, delivered: seq<Delivery>) {
    forall t :: t in cache ==>
      exists d :: d in delivered && d.request.text == t && Settle(d.outcome) == Ok(cache[t])
  }

  class Page {
    var settings: Settings
    var cache: map<string, JsText>
    var tooltip: TooltipElement?
    var inFlight: seq<Request>
    /** Every completed request with its outcome, in the order of completion. */
    ghost var delivered: seq<Delivery>

    ghost function State(): PageState
      reads this, tooltip
    {
      PageState(settings, cache,
                if tooltip == null then NotCreated
                else Element(tooltip.visible, tooltip.view, tooltip.placement),
                inFlight)
    }

    ghost predicate Valid()
      reads this, tooltip
    {
      Consistent(State()) && CachedFromReplies(cache, delivered)
    }

    /** The script's start: default settings, an empty cache, no tooltip. */
    constructor ()
      ensures Valid() && State() == InitialState
    {
      settings := Defaults;
      cache := map[];
      tooltip := null;
      inFlight := [];
      delivered := [];
    }

    /** The callback of the store's read. */
    method LoadStored(stored: Stored)
      requires Valid()
      modifies this`settings
      ensures Valid() && State() == LoadStoredStep(old(State()), stored)
    {
      settings := MergeStored(settings, stored);
    }

    /** showSimplifiedTooltip up to the await in simplifyText. */
    method ShowSimplifiedTooltip(text: string, selection: Option<Rect>, vp: Viewport) returns (sent: Option<Request>)
      requires Valid()
      modifies this, tooltip
      ensures Valid() && delivered == old(delivered)
      ensures (State(), sent) == (if selection.None? then (old(State()), None) else Show(old(State()), text, selection.value, vp))
      ensures old(tooltip) != null ==> tooltip == old(tooltip)
      ensures old(tooltip) == null && tooltip != null ==> fresh(tooltip)
    {
      if selection.None? {
        // getRangeAt(0) throws: the async function rejects and nothing changes
        return None;
      }
      var rect := selection.value;
      if tooltip == null {
        tooltip := new TooltipElement();
      }
      var placement := PlaceTooltip(rect, vp);
      tooltip.view := Loading(text);
      tooltip.visible := true;
      tooltip.placement := Some(placement);
      if text in cache {
        // simplifyText answers from the cache and the rendering follows at once
        tooltip.view := ViewFor(text, cache[text]);
        sent := None;
      } else {
        var request := Request(text, settings.languageLevel);
        inFlight := inFlight + [request];
        sent := Some(request);
      }
    }

    /** handleTextSimplification. */
    method HandleTextSimplification(text: string, selection: Option<Rect>, vp: Viewport) returns (sent: Option<Request>)
      requires Valid()
      modifies this, tooltip
      ensures Valid() && delivered == old(delivered)
      ensures (State(), sent) == Pipeline(old(State()), text, selection, vp)
      ensures old(tooltip) != null ==> tooltip == old(tooltip)
      ensures old(tooltip) == null && tooltip != null ==> fresh(tooltip)
    {
      if text != "" && Utf16Length(text) > 10 && IsFrenchText(text) {
        sent := ShowSimplifiedTooltip(text, selection, vp);
      } else {
        sent := None;
      }
    }

    /** The message listener. */
    method OnMessage(msg: Message, selection: Option<Rect>, vp: Viewport) returns (sent: Option<Request>)
      requires Valid()
      modifies this, tooltip
      ensures Valid() && delivered == old(delivered)
      ensures (State(), sent) == Receive(old(State()), msg, selection, vp)
      ensures old(tooltip) != null ==> tooltip == old(tooltip)
      ensures old(tooltip) == null && tooltip != null ==> fresh(tooltip)
    {
      match msg {
        case ToggleExtension(enabled) =>
          settings := settings.(enabled := enabled);
          sent := None;
        case UpdateLanguageLevel(level) =>
          settings := settings.(languageLevel := level);
          cache := map[];
          sent := None;
        case SimplifySelectedText(text) =>
          if settings.enabled {
            sent := HandleTextSimplification(text, selection, vp);
          } else {
            sent := None;
          }
        case OtherAction(_) =>
          sent := None;
      }
    }

    /** The rest of simplifyText and showSimplifiedTooltip once the request at index i completes. */
    method Complete(i: nat, outcome: FetchOutcome)
      requires Valid() && i < |inFlight|
      modifies this, tooltip
      ensures Valid() && tooltip == old(tooltip)
      ensures State() == Completion(old(State()), i, outcome)
      ensures delivered == old(delivered) + [Delivery(old(inFlight)[i], outcome)]
    {
      var request := inFlight[i];
      inFlight := inFlight[..i] + inFlight[i + 1..];
      delivered := delivered + [Delivery(request, outcome)];
      var result: JsText;
      match Settle(outcome) {
        case Ok(value) =>
          cache := cache[request.text := value];
          result := value;
        case Err(cause) =>
          result := Str(FailureText(cause));
      }
      tooltip.view := ViewFor(request.text, result);
    }

    /** The document's click listener. */
    method OnDocumentClick(insideTooltip: bool)
      requires Valid()
      modifies tooltip
      ensures Valid() && State() == Click(old(State()), insideTooltip)
    {
      if tooltip != null && !insideTooltip {
        tooltip.visible := false;
      }
    }

    /** window.retrySimplification. */
    method Retry(encoded: string, selection: Option<Rect>, vp: Viewport) returns (sent: Option<Request>)
      requires Valid()
      modifies this, tooltip
      ensures Valid() && delivered == old(delivered)
      ensures (State(), sent) == RetryStep(old(State()), encoded, selection, vp)
      ensures old(tooltip) != null ==> tooltip == old(tooltip)
      ensures old(tooltip) == null && tooltip != null ==> fresh(tooltip)
    {
      match Uri.DecodeURIComponent(encoded) {
        case None =>
          sent := None;
        case Some(text) =>
          sent := HandleTextSimplification(text, selection, vp);
      }
    }

    /** A click on the Retry button of the tooltip's error view: the inline
        handler, then the document's click listener. */
    method ClickRetryButton(selection: Option<Rect>, vp: Viewport) returns (sent: Option<Request>)
      requires Valid() && tooltip != null && tooltip.view.Failed?
      modifies this, tooltip
      ensures Valid() && delivered == old(delivered) && tooltip == old(tooltip)
      ensures (State(), sent) == RetryButtonClick(old(State()), selection, vp)
    {
      match RetryArgument(tooltip.view) {
        case None =>
          OnDocumentClick(true);
          sent := None;
        case Some(encoded) =>
          var replaced := Rerenders(encoded, selection);
          sent := Retry(encoded, selection, vp);
          OnDocumentClick(!replaced);
      }
    }
  }
}
