/**
 The search widget's interaction state as a value, and the effect of each
 event on it. The widget class in SearchWidget is proved to update its fields
 exactly as `Step` says; the lemmas in SearchProperties are stated over
 `Step` and `Run`.
 */
module SearchState {
  import opened Wrappers

  /** One search hit, as the folded search response lists it. */
  datatype ResultItem = ResultItem(id: string, name: string)

  /** The key codes the document-wide keydown handler distinguishes. */
  const DOWN: int := 40
  const ENTER: int := 13
  const ESC: int := 27
  const S: int := 83
  const UP: int := 38

  /** Milliseconds between Enter and the navigation it schedules. */
  const NAVIGATION_DELAY: nat := 500

  /** The query path of a search request, relative to the API base. */
  const SEARCH_PATH: string := "attrs/search/?q="

  /** The element a keydown event is aimed at: this widget's text box,
      some other `<input>` on the page, or any element that is not an input. */
  datatype Target = SearchInput | OtherInput | NonInput

  /** The handler's `tagName.toLowerCase() === "input"` test. */
  predicate IsInput(t: Target)
  {
    t == SearchInput || t == OtherInput
  }

  /** A navigation scheduled by Enter: push `path` onto the browser history
      after `delayMs` milliseconds. */
  datatype Navigation = Navigation(path: string, delayMs: nat)

  /** The target of a result's link. */
  function ProfilePath(item: ResultItem): (p: string)
    ensures |p| == 9 + |item.id| && p[..9] == "/profile/" && p[9..] == item.id
  {
    "/profile/" + item.id
  }

  /** The request a query change issues: none for an empty query, otherwise
      the search path with the stripped query. */
  function SearchRequest(query: string, strip: string -> string): (r: Option<string>)
    ensures r.None? <==> |query| == 0
    ensures r.Some? ==> |r.value| == |SEARCH_PATH| + |strip(query)| && r.value[..|SEARCH_PATH|] == SEARCH_PATH && r.value[|SEARCH_PATH|..] == strip(query)
  {
    if |query| == 0 then None else Some(SEARCH_PATH + strip(query))
  }

  /**
   The widget: whether it is open, the shown results, the keyboard highlight
   (an index into `results`), the text of its input box, and the navigations
   Enter has scheduled so far, oldest first.
   */
  datatype Widget = Widget(
    active: bool,
    results: seq<ResultItem>,
    highlighted: Option<nat>,
    input: string,
    navigations: seq<Navigation>)

  /** The highlight, when there is one, marks one of the shown results. */
  predicate WellFormed(w: Widget)
  {
    w.highlighted.Some? ==> w.highlighted.value < |w.results|
  }

  /** The state the widget is mounted in. */
  function Initial(): Widget
  {
    Widget(false, [], None, "", [])
  }

  /** The results a response shows: `slice(0, limit)` when `limit` is
      truthy (here: non-zero), the whole folded list otherwise. */
  function Capped(folded: seq<ResultItem>, limit: nat): (r: seq<ResultItem>)
    ensures limit == 0 ==> r == folded
    ensures limit != 0 ==> |r| == Min(limit, |folded|)
    ensures r == folded[..|r|]
  {
    if limit != 0 && limit < |folded| then folded[..limit] else folded
  }

  /** onToggle. */
  function Toggled(w: Widget): (r: Widget)
    ensures r.active != w.active
    ensures r == w.(active := r.active)
    ensures WellFormed(r) <==> WellFormed(w)
  {
    w.(active := !w.active)
  }

  /** The user edits the input to `query`. An empty query opens the widget
      with no results at once; any other query leaves the state as it is
      until its response arrives. */
  function AfterChange(w: Widget, query: string): (r: Widget)
    ensures r.input == query && r.navigations == w.navigations
    ensures |query| == 0 ==> r.active && r.results == [] && r.highlighted.None?
    ensures |query| > 0 ==> r == w.(input := query)
    ensures WellFormed(w) ==> WellFormed(r)
  {
    if |query| == 0 then w.(active := true, results := [], highlighted := None, input := query)
    else w.(input := query)
  }

  /** A folded search response arrives. Clearing the highlight is a modelling
      choice: the source leaves its marker where it was. */
  function AfterResponse(w: Widget, limit: nat, folded: seq<ResultItem>): (r: Widget)
    ensures r.active && r.highlighted.None? && WellFormed(r)
    ensures |r.results| <= |folded| && r.results == folded[..|r.results|]
    ensures limit == 0 ==> r.results == folded
    ensures limit != 0 ==> |r.results| == Min(limit, |folded|)
    ensures r.input == w.input && r.navigations == w.navigations
  {
    w.(active := true, results := Capped(folded, limit), highlighted := None)
  }

  /** ArrowDown over `count` results. With no highlight and no results the
      source throws before changing anything, so nothing changes. */
  function MoveDown(h: Option<nat>, count: nat): (r: Option<nat>)
    ensures (h.None? || h.value < count) ==> (r.None? || r.value < count)
    ensures r.None? <==> h.None? && count == 0
    ensures h.Some? ==> r.Some? && h.value <= r.value <= h.value + 1
    ensures h.Some? && h.value + 1 < count <==> h.Some? && r.Some? && r.value == h.value + 1
  {
    match h
    case None => if count > 0 then Some(0) else None
    case Some(i) => if i + 1 < count then Some(i + 1) else h
  }

  /** ArrowUp: the first result loses the highlight, any other passes it on
      to its predecessor. */
  function MoveUp(h: Option<nat>): (r: Option<nat>)
    ensures r.Some? ==> h.Some? && r.value + 1 == h.value
    ensures r.Some? <==> h.Some? && h.value > 0
  {
    match h
    case None => None
    case Some(i) => if i > 0 then Some(i - 1) else None
  }

  /** Enter on a highlighted result: its name goes into the input, the widget
      toggles closed, and a navigation to its profile is scheduled. */
  function Select(w: Widget): (r: Widget)
    requires WellFormed(w) && w.highlighted.Some?
    ensures WellFormed(r) && r.active != w.active
    ensures r.results == w.results && r.highlighted == w.highlighted
    ensures r.input == w.results[w.highlighted.value].name
    ensures |r.navigations| == |w.navigations| + 1 && r.navigations[..|w.navigations|] == w.navigations
    ensures r.navigations[|w.navigations|] == Navigation(ProfilePath(w.results[w.highlighted.value]), NAVIGATION_DELAY)
  {
    var item := w.results[w.highlighted.value];
    Toggled(w.(input := item.name,
               navigations := w.navigations + [Navigation(ProfilePath(item), NAVIGATION_DELAY)]))
  }

  /** S opens the closed widget unless an input has the focus. */
  predicate Opens(w: Widget, keyCode: int, target: Target)
  {
    !w.active && keyCode == S && !IsInput(target)
  }

  /** Esc closes the open widget when its own input has the focus. */
  predicate Closes(w: Widget, keyCode: int, target: Target)
  {
    w.active && keyCode == ESC && target == SearchInput
  }

  /** The document-wide keydown handler. */
  function AfterKey(w: Widget, keyCode: int, target: Target): (r: Widget)
    requires WellFormed(w)
    ensures WellFormed(r)
    ensures r.results == w.results
    ensures r.active != w.active <==>
      Opens(w, keyCode, target) || Closes(w, keyCode, target) ||
      (w.active && target == SearchInput && keyCode == ENTER && w.highlighted.Some?)
    ensures r.input != w.input || r.navigations != w.navigations ==>
      w.active && target == SearchInput && keyCode == ENTER && w.highlighted.Some?
    ensures r.highlighted != w.highlighted ==>
      w.active && target == SearchInput && (keyCode == DOWN || keyCode == UP)
  {
    if Opens(w, keyCode, target) || Closes(w, keyCode, target) then Toggled(w)
    else if !(w.active && target == SearchInput) then w
    else if keyCode == ENTER then (if w.highlighted.Some? then Select(w) else w)
    else if keyCode == DOWN then w.(highlighted := MoveDown(w.highlighted, |w.results|))
    else if keyCode == UP then w.(highlighted := MoveUp(w.highlighted))
    else w
  }

  /** The events the widget reacts to. */
  datatype Event =
    | Change(query: string)
    | Response(folded: seq<ResultItem>)
    | Toggle
    | KeyDown(keyCode: int, target: Target)

  /** One event; `limit` is the widget's configured result cap. */
  function Step(w: Widget, limit: nat, e: Event): (r: Widget)
    requires WellFormed(w)
    ensures WellFormed(r)
  {
    match e
    case Change(q) => AfterChange(w, q)
    case Response(f) => AfterResponse(w, limit, f)
    case Toggle => Toggled(w)
    case KeyDown(k, t) => AfterKey(w, k, t)
  }

  /** A sequence of events, applied in order. */
  function Run(w: Widget, limit: nat, events: seq<Event>): (r: Widget)
    requires WellFormed(w)
    ensures WellFormed(r)
    decreases |events|
  {
    if events == [] then w else Run(Step(w, limit, events[0]), limit, events[1..])
  }

  /** `n` copies of one event. */
  function Repeat(e: Event, n: nat): (r: seq<Event>)
    ensures |r| == n
  {
    if n == 0 then [] else [e] + Repeat(e, n - 1)
  }
}
