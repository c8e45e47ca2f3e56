/**
 The search component itself: its React state (`active`, `results`), the
 highlight the source keeps as a marker class on a list item, the text of
 its input element and the navigations scheduled with `setTimeout`, as
 fields that its event handlers update in place.
 */
module SearchWidget {
  import opened Wrappers
  import opened SearchState

  class Search {
    /** The `limit` prop; 0 stands for an absent or falsy limit. */
    const limit: nat
    var active: bool
    var results: seq<ResultItem>
    var highlighted: Option<nat>
    var inputValue: string
    var navigations: seq<Navigation>

    function State(): Widget
      reads this
    {
      Widget(active, results, highlighted, inputValue, navigations)
    }

    ghost predicate Valid()
      reads this
    {
      WellFormed(State())
    }

    constructor (limit: nat)
      ensures Valid() && this.limit == limit
      ensures !active && results == [] && highlighted == None
      ensures State() == Initial()
    {
      this.limit := limit;
      active := false;
      results := [];
      highlighted := None;
      inputValue := "";
      navigations := [];
    }

    /** The input's onChange, with the text the user left in it. Returns the
        request it issues, if any. */
    method OnChange(query: string, strip: string -> string) returns (request: Option<string>)
      requires Valid()
      modifies this
      ensures Valid()
      ensures State() == Step(old(State()), limit, Change(query))
      ensures request == SearchRequest(query, strip)
    {
      inputValue := query;
      if |query| == 0 {
        active, results, highlighted := true, [], None;
        request := None;
      } else {
        request := Some(SEARCH_PATH + strip(query));
      }
    }

    /** The request's `then` callback, given the folded response. */
    method OnResponse(folded: seq<ResultItem>)
      requires Valid()
      modifies this
      ensures Valid()
      ensures State() == Step(old(State()), limit, Response(folded))
    {
      var shown := folded;
      if limit != 0 {
        shown := folded[..Min(limit, |folded|)];
      }
      active, results, highlighted := true, shown, None;
    }

    method OnToggle()
      requires Valid()
      modifies this
      ensures Valid()
      ensures State() == Step(old(State()), limit, Toggle)
    {
      active := !active;
    }

    /** The document-wide keydown listener. */
    method OnKeyDown(keyCode: int, target: Target)
      requires Valid()
      modifies this
      ensures Valid()
      ensures State() == Step(old(State()), limit, KeyDown(keyCode, target))
    {
      if !active && keyCode == S && target != SearchInput && target != OtherInput {
        OnToggle();
      } else if active && keyCode == ESC && target == SearchInput {
        OnToggle();
      } else if active && target == SearchInput {
        var current := highlighted;
        if keyCode == ENTER && current.Some? {
          var item := results[current.value];
          inputValue := item.name;
          OnToggle();
          navigations := navigations + [Navigation(ProfilePath(item), NAVIGATION_DELAY)];
        } else if keyCode == DOWN || keyCode == UP {
          if current.None? {
            if keyCode == DOWN && |results| > 0 {
              highlighted := Some(0);
            }
          } else {
            var i := current.value;
            if keyCode == DOWN && i < |results| - 1 {
              highlighted := Some(i + 1);
            } else if keyCode == UP {
              highlighted := if i > 0 then Some(i - 1) else None;
            }
          }
        }
      }
    }
  }
}
