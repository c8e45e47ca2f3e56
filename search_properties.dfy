/** What the search widget promises, stated over `Step` and `Run`. */
module SearchProperties {
  import opened Wrappers
  import opened SearchState

  /** The widget is mounted closed, with nothing listed and nothing highlighted. */
  lemma InitialState()
    ensures WellFormed(Initial())
    ensures !Initial().active && Initial().results == [] && Initial().highlighted == None
  {
  }

  /** An empty query opens the widget with no results, whatever came before,
      and issues no request. */
  lemma EmptyQueryClears(w: Widget, limit: nat, strip: string -> string)
    requires WellFormed(w)
    ensures Step(w, limit, Change("")).active
    ensures Step(w, limit, Change("")).results == []
    ensures Step(w, limit, Change("")).highlighted == None
    ensures SearchRequest("", strip) == None
  {
  }

  /** A non-empty query issues exactly one request and changes nothing but
      the input text until its response arrives. */
  lemma QueryWaitsForResponse(w: Widget, limit: nat, query: string, strip: string -> string)
    requires WellFormed(w) && |query| > 0
    ensures Step(w, limit, Change(query)) == w.(input := query)
    ensures SearchRequest(query, strip) == Some(SEARCH_PATH + strip(query))
  {
  }

  /** A response opens the widget and shows the folded list, in order, cut
      to `limit` entries when a limit is set. */
  lemma ResponseShowsPrefix(w: Widget, limit: nat, folded: seq<ResultItem>)
    requires WellFormed(w)
    ensures Step(w, limit, Response(folded)).active
    ensures limit == 0 ==> Step(w, limit, Response(folded)).results == folded
    ensures limit != 0 ==> Step(w, limit, Response(folded)).results == folded[..Min(limit, |folded|)]
    ensures Step(w, limit, Response(folded)).input == w.input
    ensures Step(w, limit, Response(folded)).navigations == w.navigations
  {
  }

  /** onToggle flips `active` and nothing else; toggling twice restores the state. */
  lemma ToggleFlipsOnly(w: Widget, limit: nat)
    requires WellFormed(w)
    ensures Step(w, limit, Toggle) == w.(active := !w.active)
    ensures Step(Step(w, limit, Toggle), limit, Toggle) == w
  {
  }

  /** A closed widget opens only on S aimed at a non-input element, and
      every other key leaves a closed widget untouched. */
  lemma OpenOnlyOnS(w: Widget, keyCode: int, target: Target)
    requires WellFormed(w) && !w.active
    ensures AfterKey(w, keyCode, target).active <==> keyCode == S && target == NonInput
    ensures !(keyCode == S && target == NonInput) ==> AfterKey(w, keyCode, target) == w
    ensures keyCode == S && target == NonInput ==> AfterKey(w, keyCode, target) == Toggled(w)
  {
  }

  /** An open widget closes only on Esc in its own input, or on Enter there
      with a result highlighted; S never changes an open widget. */
  lemma CloseOnlyOnEscOrEnter(w: Widget, keyCode: int, target: Target)
    requires WellFormed(w) && w.active
    ensures !AfterKey(w, keyCode, target).active <==>
              target == SearchInput && (keyCode == ESC || (keyCode == ENTER && w.highlighted.Some?))
    ensures keyCode == ESC && target == SearchInput ==> AfterKey(w, keyCode, target) == Toggled(w)
    ensures keyCode == S ==> AfterKey(w, keyCode, target) == w
    ensures keyCode == ESC && target != SearchInput ==> AfterKey(w, keyCode, target) == w
  {
  }

  /** Enter, ArrowUp and ArrowDown do nothing unless the widget is open and
      its own input has the focus. */
  lemma NavigationKeysNeedFocus(w: Widget, keyCode: int, target: Target)
    requires WellFormed(w)
    requires keyCode == ENTER || keyCode == UP || keyCode == DOWN
    requires !(w.active && target == SearchInput)
    ensures AfterKey(w, keyCode, target) == w
  {
  }

  /** Any key other than Enter, ArrowDown, ArrowUp and Esc, such as a letter
      typed into the open widget's box, changes nothing. */
  lemma OtherKeysIgnored(w: Widget, keyCode: int, target: Target)
    requires WellFormed(w) && w.active
    requires keyCode != ENTER && keyCode != DOWN && keyCode != UP && keyCode != ESC
    ensures AfterKey(w, keyCode, target) == w
  {
  }

  /** ArrowDown: with no highlight it marks the first result (nothing happens
      on an empty list); with result i marked it moves on to i+1 unless i is
      the last, where nothing changes. Only the highlight ever changes. */
  lemma ArrowDownRule(w: Widget)
    requires WellFormed(w) && w.active
    ensures var r := AfterKey(w, DOWN, SearchInput);
      && r == w.(highlighted := r.highlighted)
      && (w.highlighted.None? && |w.results| > 0 ==> r.highlighted == Some(0))
      && (w.highlighted.None? && |w.results| == 0 ==> r == w)
      && (w.highlighted.Some? && w.highlighted.value < |w.results| - 1 ==>
            r.highlighted == Some(w.highlighted.value + 1))
      && (w.highlighted.Some? && w.highlighted.value == |w.results| - 1 ==> r == w)
  {
  }

  /** ArrowUp: with no highlight nothing happens; with result i marked the
      highlight moves to i-1, and off the list altogether from the first. */
  lemma ArrowUpRule(w: Widget)
    requires WellFormed(w) && w.active
    ensures var r := AfterKey(w, UP, SearchInput);
      && r == w.(highlighted := r.highlighted)
      && (w.highlighted.None? ==> r == w)
      && (w.highlighted.Some? && w.highlighted.value > 0 ==>
            r.highlighted == Some(w.highlighted.value - 1))
      && (w.highlighted == Some(0) ==> r.highlighted == None)
  {
  }

  /** Enter on highlighted result i puts its name in the input, closes the
      widget and schedules, 500 ms later, the navigation to its profile; the
      results and the highlight stay. Enter with no highlight does nothing. */
  lemma EnterSelects(w: Widget)
    requires WellFormed(w) && w.active
    ensures w.highlighted.None? ==> AfterKey(w, ENTER, SearchInput) == w
    ensures w.highlighted.Some? ==>
      var item := w.results[w.highlighted.value];
      AfterKey(w, ENTER, SearchInput) ==
        Widget(false, w.results, w.highlighted, item.name,
               w.navigations + [Navigation("/profile/" + item.id, 500)])
  {
  }

  /** From result i, n presses of ArrowDown reach result min(i + n, last)
      and change nothing else. */
  lemma {:induction false} DownPressesFrom(w: Widget, limit: nat, i: nat, n: nat)
    requires WellFormed(w) && w.active && w.highlighted == Some(i)
    ensures Run(w, limit, Repeat(KeyDown(DOWN, SearchInput), n)) ==
              w.(highlighted := Some(Min(i + n, |w.results| - 1)))
    decreases n
  {
    var e := KeyDown(DOWN, SearchInput);
    if n == 0 {
      assert Repeat(e, 0) == [];
    } else {
      var w' := Step(w, limit, e);
      assert Repeat(e, n)[0] == e && Repeat(e, n)[1..] == Repeat(e, n - 1);
      assert w'.highlighted == Some(Min(i + 1, |w.results| - 1));
      DownPressesFrom(w', limit, Min(i + 1, |w.results| - 1), n - 1);
    }
  }

  /** From no highlight over a non-empty list, n >= 1 presses of ArrowDown
      highlight the n-th result (1-based), stopping at the last one. */
  lemma DownPresses(w: Widget, limit: nat, n: nat)
    requires WellFormed(w) && w.active && w.highlighted.None? && |w.results| > 0 && n >= 1
    ensures Run(w, limit, Repeat(KeyDown(DOWN, SearchInput), n)) ==
              w.(highlighted := Some(Min(n, |w.results|) - 1))
  {
    var e := KeyDown(DOWN, SearchInput);
    var w' := Step(w, limit, e);
    assert Repeat(e, n)[0] == e && Repeat(e, n)[1..] == Repeat(e, n - 1);
    DownPressesFrom(w', limit, 0, n - 1);
  }

  /** From result i, n presses of ArrowUp reach result i - n, or clear the
      highlight once they pass the first result. */
  lemma {:induction false} UpPressesFrom(w: Widget, limit: nat, i: nat, n: nat)
    requires WellFormed(w) && w.active && w.highlighted == Some(i)
    ensures Run(w, limit, Repeat(KeyDown(UP, SearchInput), n)) ==
              w.(highlighted := if n <= i then Some(i - n) else None)
    decreases n
  {
    var e := KeyDown(UP, SearchInput);
    if n == 0 {
      assert Repeat(e, 0) == [];
    } else {
      var w' := Step(w, limit, e);
      assert Repeat(e, n)[0] == e && Repeat(e, n)[1..] == Repeat(e, n - 1);
      if i == 0 {
        assert w' == w.(highlighted := None);
        UpIdleWithoutHighlight(w', limit, n - 1);
      } else {
        UpPressesFrom(w', limit, i - 1, n - 1);
      }
    }
  }

  /** With no highlight, ArrowUp presses change nothing. */
  lemma {:induction false} UpIdleWithoutHighlight(w: Widget, limit: nat, n: nat)
    requires WellFormed(w) && w.active && w.highlighted.None?
    ensures Run(w, limit, Repeat(KeyDown(UP, SearchInput), n)) == w
    decreases n
  {
    var e := KeyDown(UP, SearchInput);
    if n > 0 {
      assert Repeat(e, n)[0] == e && Repeat(e, n)[1..] == Repeat(e, n - 1);
      UpIdleWithoutHighlight(Step(w, limit, e), limit, n - 1);
    }
  }

  /** Whatever events arrive, at most one result is highlighted and it is
      one of the shown results. */
  lemma AlwaysWellFormed(limit: nat, events: seq<Event>)
    ensures WellFormed(Run(Initial(), limit, events))
  {
  }

  /** After Enter schedules a navigation, the widget is closed before the
      delay runs out. */
  lemma NavigationAfterClose(w: Widget, limit: nat, keyCode: int, target: Target)
    requires WellFormed(w)
    ensures var r := Step(w, limit, KeyDown(keyCode, target));
      |r.navigations| > |w.navigations| ==>
        !r.active && w.active && keyCode == ENTER && target == SearchInput &&
        r.navigations == w.navigations + [Navigation(ProfilePath(w.results[w.highlighted.value]), NAVIGATION_DELAY)]
  {
  }

  /** The query "Keta" answered with two results: one ArrowDown and Enter
      pick the first result, a second ArrowDown moves to the second. */
  lemma KetaScenario()
    ensures var keta := ResultItem("GH0101", "Keta");
      var ketuSouth := ResultItem("GH0102", "Ketu South");
      var down := KeyDown(DOWN, SearchInput);
      var enter := KeyDown(ENTER, SearchInput);
      var w := Run(Initial(), 0, [Change("Keta"), Response([keta, ketuSouth])]);
      && w.active && w.results == [keta, ketuSouth]
      && Run(w, 0, [down, enter]) ==
           Widget(false, [keta, ketuSouth], Some(0), "Keta", [Navigation("/profile/GH0101", 500)])
      && Run(w, 0, [down, down, enter]) ==
           Widget(false, [keta, ketuSouth], Some(1), "Ketu South", [Navigation("/profile/GH0102", 500)])
  {
    var keta := ResultItem("GH0101", "Keta");
    var ketuSouth := ResultItem("GH0102", "Ketu South");
    var down := KeyDown(DOWN, SearchInput);
    var enter := KeyDown(ENTER, SearchInput);
    var w0 := Step(Initial(), 0, Change("Keta"));
    var w := Step(w0, 0, Response([keta, ketuSouth]));
    RunSingle(w0, 0, Response([keta, ketuSouth]));
    assert Run(Initial(), 0, [Change("Keta"), Response([keta, ketuSouth])]) == Run(w0, 0, [Response([keta, ketuSouth])]);
    var w1 := Step(w, 0, down);
    assert w1.highlighted == Some(0);
    RunSingle(w1, 0, enter);
    assert Run(w, 0, [down, enter]) == Run(w1, 0, [enter]);
    var w2 := Step(w1, 0, down);
    assert w2.highlighted == Some(1);
    RunSingle(w2, 0, enter);
    assert Run(w1, 0, [down, enter]) == Run(w2, 0, [enter]);
    assert Run(w, 0, [down, down, enter]) == Run(w1, 0, [down, enter]);
    assert w == Widget(true, [keta, ketuSouth], None, "Keta", []);
    assert ProfilePath(keta) == "/profile/GH0101";
    assert ProfilePath(ketuSouth) == "/profile/GH0102";
    assert Step(w1, 0, enter) == Widget(false, [keta, ketuSouth], Some(0), "Keta", [Navigation("/profile/GH0101", 500)]);
    assert Step(w2, 0, enter) == Widget(false, [keta, ketuSouth], Some(1), "Ketu South", [Navigation("/profile/GH0102", 500)]);
  }

  /** Run over one event is Step. */
  lemma RunSingle(w: Widget, limit: nat, e: Event)
    requires WellFormed(w)
    ensures Run(w, limit, [e]) == Step(w, limit, e)
  {
    assert [e][1..] == [];
  }
}
