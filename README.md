# Search widget and profile page of the Data Africa site

A Dafny model of two pieces of the site's front end:

- **The search widget** (`app/components/Search.jsx`). The widget is open or
  closed (`active`). It shows a list of results and may highlight one of
  them from the keyboard. A query typed into its text box is sent to the
  search endpoint, and the folded response, cut to the `limit` prop, becomes
  the list. One document-wide keydown listener handles the keys:
  - S opens the widget when no input has the focus;
  - Esc closes it from its own input;
  - ArrowDown and ArrowUp move the highlight;
  - Enter copies the highlighted name into the box, closes the widget and
    schedules, 500 ms later, a navigation to `/profile/<id>`.
- **The profile page's pure decisions** (`app/pages/Profile/index.jsx`):
  - the topic registry, and the load-time pass that gives each topic its
    slug and icon path;
  - the ISO codes of the focus (peer) entities;
  - which boundary file the header map loads and which shapes it keeps;
  - the three-way shading of those shapes;
  - the value each key stat shows.

Files:
- `wrappers.dfy`: `Option` and `Min`.
- `search_state.dfy` (module `SearchState`): the widget's state as a value
  (`Widget`), its events, and their effect (`Step`, `Run`).
- `search_widget.dfy` (module `SearchWidget`): the component as a class.
  Its fields are updated in place by `OnChange`, `OnResponse`, `OnToggle` and
  `OnKeyDown`, and each method is proved to change the state exactly as
  `Step` says.
- `search_properties.dfy` (module `SearchProperties`): the widget's
  behaviour, stated and proved over `Step` and `Run`.
- `profile_topics.dfy` (module `ProfileTopics`): the registry. The slug pass
  is a loop that updates an array of topic records in place, as the source's
  `forEach` does.
- `profile_map.dfy` (module `ProfileMap`): focus codes, boundary file, shape
  filter, fill and stat values.

Modelling decisions:
- The highlight, which the source keeps as a CSS class on one list item, is
  `highlighted: Option<nat>`, an index into `results`. `WellFormed` says that
  it points into the list. So at most one result is highlighted, and it is a
  shown one.
- An empty query empties the list, so no highlight remains. This matches
  the source: with no results no list item is rendered, and the marked
  element goes with the list.
- A response clears the highlight. This is a modelling choice. The source
  never removes its marker here: what survives a re-render depends on how
  the rendering library reuses list elements, which is not modelled.
- Closing the widget keeps the highlight, as the source does.
- ArrowDown with no highlight over an empty list makes the source throw
  (`querySelector` returns null) before anything changes. The model treats
  it as a no-op.
- ArrowUp on the first result clears the highlight. It is not a no-op
  (Search.jsx:91-93). The model follows the code.
- One ArrowDown from no highlight marks the FIRST result. For the query
  "Keta" answered by GH0101 "Keta" and GH0102 "Ketu South", one ArrowDown
  and then Enter select GH0101; two ArrowDowns and then Enter select GH0102
  (`SearchProperties.KetaScenario`).
- The `limit` prop is a `nat`. 0 stands for absent or falsy, and then the
  list is not cut.
- `Change(query)` stands for the user editing the box to `query`. So it sets
  the input text as well as running `onChange`.
- `strip` (d3plus-text) is a function parameter about which nothing is
  assumed. `dataFold` (d3plus-viz) is not modelled: its output is the
  payload of the `Response` event.
- Key codes stay numeric (Down 40, Enter 13, Esc 27, S 83, Up 38). Any other
  code is a key the handler ignores.
- A render that would throw on a missing map key yields `None`. Two lookups
  do this: `attrs.geo[f].iso3` for a focus id, and
  `attrs[stat.attr][stat.value].name` for a stat.

## Model

| member | source | states |
|---|---|---|
| `SearchState.ProfilePath` | app/components/Search.jsx:123-127 | a result links to "/profile/" followed by exactly its id |
| `SearchState.SearchRequest` | app/components/Search.jsx:22-34 | an empty query issues no request; any other query issues one, for the search path followed by the stripped query |
| `SearchState.Capped` | app/components/Search.jsx:30-31 | a response shows the whole folded list when limit is 0, otherwise its prefix of length min(limit, size) |
| `SearchState.Toggled` | app/components/Search.jsx:38-43 | onToggle flips active and changes no other part of the state; the highlight stays valid iff it was |
| `SearchState.AfterChange` | app/components/Search.jsx:20-36 | the input holds the query; an empty query opens the widget with no results and no highlight; any other query changes nothing else |
| `SearchState.AfterResponse` | app/components/Search.jsx:29-33 | the widget opens with no highlight, showing a prefix of the folded list: all of it when limit is 0, else min(limit, size) entries; input and navigations stay |
| `SearchState.MoveDown` | app/components/Search.jsx:76-90 | a highlight inside the list stays inside it; no highlight results only from none over an empty list; a highlight moves forward by at most one, and by one exactly when it was not the last |
| `SearchState.MoveUp` | app/components/Search.jsx:91-94 | a highlight only moves back by one, and a highlight remains exactly when it was past the first result |
| `SearchState.Select` | app/components/Search.jsx:69-75 | Enter on the highlighted result flips active, keeps results and highlight, puts the result's name in the input and appends exactly one navigation, to its profile after 500 ms |
| `SearchState.AfterKey` | app/components/Search.jsx:57-98 | no key changes the results; active flips exactly on an opening S, a closing Esc, or Enter on a highlight at the open widget's input; input and navigations change only on that Enter; the highlight changes only on Down or Up at the open widget's input |
| `SearchState.Step` | app/components/Search.jsx:20-100 | every event keeps the highlight on one of the shown results |
| `SearchState.Run` | app/components/Search.jsx:20-100 | any sequence of events keeps the highlight on one of the shown results |
| `SearchWidget.Search.constructor` | app/components/Search.jsx:12-18 | the component starts closed, with no results and no highlight |
| `SearchWidget.Search.OnChange` | app/components/Search.jsx:20-36 | updates the fields exactly as a query change does and returns the request it issues |
| `SearchWidget.Search.OnResponse` | app/components/Search.jsx:29-33 | opens the widget and shows the folded list, cut to the limit |
| `SearchWidget.Search.OnToggle` | app/components/Search.jsx:38-43 | flips active and changes no other field |
| `SearchWidget.Search.OnKeyDown` | app/components/Search.jsx:47-100 | updates the fields exactly as the keydown rules say, keeping the highlight valid |
| `SearchProperties.InitialState` | app/components/Search.jsx:14-17 | the initial state is closed, with empty results and no highlight |
| `SearchProperties.EmptyQueryClears` | app/components/Search.jsx:25 | an empty query opens the widget with no results and no highlight, whatever came before, and sends nothing |
| `SearchProperties.QueryWaitsForResponse` | app/components/Search.jsx:27-34 | a non-empty query changes only the input text and issues exactly one request |
| `SearchProperties.ResponseShowsPrefix` | app/components/Search.jsx:30-32 | a response opens the widget; it shows the folded list in order, or its prefix of min(limit, size) entries when a limit is set |
| `SearchProperties.ToggleFlipsOnly` | app/components/Search.jsx:38-43 | toggling flips active alone, and toggling twice restores the state |
| `SearchProperties.OpenOnlyOnS` | app/components/Search.jsx:57-60 | a closed widget opens iff S is aimed at a non-input; every other key leaves it unchanged |
| `SearchProperties.CloseOnlyOnEscOrEnter` | app/components/Search.jsx:57-75 | an open widget closes iff its input gets Esc, or gets Enter with a highlight; S changes nothing, and nor does Esc aimed elsewhere |
| `SearchProperties.NavigationKeysNeedFocus` | app/components/Search.jsx:65 | Enter, Up and Down do nothing unless the widget is open and its own input has the focus |
| `SearchProperties.OtherKeysIgnored` | app/components/Search.jsx:65-98 | with the widget open, every key other than Enter, Down, Up and Esc, wherever it is aimed, leaves the whole state unchanged |
| `SearchProperties.ArrowDownRule` | app/components/Search.jsx:76-90 | with no highlight, Down marks result 0 (a no-op on an empty list); from i it moves to i+1 unless i is the last, where nothing changes; only the highlight changes |
| `SearchProperties.ArrowUpRule` | app/components/Search.jsx:76-94 | with no highlight, Up does nothing; from i > 0 it moves to i-1; from 0 it clears the highlight |
| `SearchProperties.EnterSelects` | app/components/Search.jsx:69-75 | Enter on result i sets the input to its name, closes the widget and appends a navigation to /profile/id due after 500 ms; with no highlight it does nothing |
| `SearchProperties.DownPressesFrom` | app/components/Search.jsx:83-90 | n Down presses from result i reach result min(i+n, last) and change nothing else |
| `SearchProperties.DownPresses` | app/components/Search.jsx:78-90 | over a non-empty list, n >= 1 Down presses from no highlight mark result min(n, size) - 1 |
| `SearchProperties.UpPressesFrom` | app/components/Search.jsx:91-94 | n Up presses from result i reach result i-n, or no highlight once n > i |
| `SearchProperties.UpIdleWithoutHighlight` | app/components/Search.jsx:78-80 | Up presses with no highlight change nothing |
| `SearchProperties.AlwaysWellFormed` | app/components/Search.jsx:67-94 | from the initial state, any events leave at most one highlighted result, and it is shown |
| `SearchProperties.NavigationAfterClose` | app/components/Search.jsx:69-75 | a key schedules a navigation only when Enter goes to the open widget's input; the widget is then closed and the navigation is to the highlighted result's profile |
| `SearchProperties.KetaScenario` | app/components/Search.jsx:20-94 | "Keta" answered by two hits: Down then Enter selects the first (/profile/GH0101); Down, Down then Enter selects the second (/profile/GH0102) |
| `ProfileTopics.Lower` | app/pages/Profile/index.jsx:57 | lowering keeps the length and lowers each character |
| `ProfileTopics.ImagePath` | app/pages/Profile/index.jsx:58 | the icon path is the prefix, then the slug, then ".svg", and the slug can be read back from it |
| `ProfileTopics.Registry` | app/pages/Profile/index.jsx:23-54 | four topics, each with at least one section and with no slug or image yet |
| `ProfileTopics.WithSlug` | app/pages/Profile/index.jsx:56-59 | title and sections stay; a slug as long as the stripped title is added, and the image is the icon path of that slug |
| `ProfileTopics.AttachSlugs` | app/pages/Profile/index.jsx:56-59 | the pass replaces every record by the record with its slug and image added |
| `ProfileTopics.BuildTopics` | app/pages/Profile/index.jsx:23-59 | the loaded registry is the listed topics, in order, each with its slug and image |
| `ProfileTopics.RegistryContents` | app/pages/Profile/index.jsx:23-54 | the titles are Agriculture, Climate, Health and Poverty, in that order; Poverty ends with PovertyByGender at ppp1, then at ppp2; no slug is set before the pass |
| `ProfileTopics.WithSlugKeepsContent` | app/pages/Profile/index.jsx:56-59 | the pass sets slug = lowercase(strip(title)) and image = "/images/topics/" + slug + ".svg"; title and sections stay unchanged |
| `ProfileTopics.SlugIsLowered` | app/pages/Profile/index.jsx:57 | a slug has no upper-case ASCII letter, and lowering it again leaves it unchanged |
| `ProfileTopics.ImagePathInjective` | app/pages/Profile/index.jsx:58 | distinct slugs get distinct icon paths |
| `ProfileTopics.RegistrySlugs` | app/pages/Profile/index.jsx:23-59 | when strip leaves the titles alone, the slugs are agriculture, climate, health and poverty, and the icons are /images/topics/<slug>.svg for each |
| `ProfileMap.FocusISO` | app/pages/Profile/index.jsx:68 | defined iff every focus id is in the geo table; then it has the same length as focus, and element k is the iso3 of focus[k] |
| `ProfileMap.TopoPath` | app/pages/Profile/index.jsx:69-70 | the continent file iff the entity's level is "adm0", the adm1 file iff it is not |
| `ProfileMap.Slice` | app/pages/Profile/index.jsx:71-75 | a clamped substring: its length is min(end, size) - start when start < end and start < size, else 0; character k is s[start + k] |
| `ProfileMap.Adm0Code` | app/pages/Profile/index.jsx:75 | at most five characters: id[5..10] for ids of ten or more, the tail from 5 for ids of six to nine, empty for ids of at most five |
| `ProfileMap.TopoFilter` | app/pages/Profile/index.jsx:71 | a country's map keeps every shape; a region's map keeps a shape iff its geo's country code equals the profiled id's |
| `ProfileMap.FillAdm0` | app/pages/Profile/index.jsx:72 | one of the three shades; white iff the shape's iso_a3 is the country's iso3; the 0.35 shade iff it is not but is a focus code |
| `ProfileMap.FillAdm1` | app/pages/Profile/index.jsx:73 | one of the three shades; white iff the shape's geo is the profiled id; the 0.35 shade iff it is not but its iso_a3 is a focus code |
| `ProfileMap.Fill` | app/pages/Profile/index.jsx:74 | one of the three shades, white iff the shape is the entity itself by the test its level selects |
| `ProfileMap.CountryMapKeepsAll` | app/pages/Profile/index.jsx:71 | a country's map keeps every shape |
| `ProfileMap.RegionMapKeepsOwnCountry` | app/pages/Profile/index.jsx:71-75 | for ids of ten characters or more, a region's map keeps a shape iff characters 5 to 9 of its geo match the profiled id's |
| `ProfileMap.ShortIdHasEmptyCode` | app/pages/Profile/index.jsx:75 | an id of at most five characters yields an empty country code |
| `ProfileMap.RegionMapKeepsSelf` | app/pages/Profile/index.jsx:71-75 | the profiled entity's own shape is always kept |
| `ProfileMap.FillClassifies` | app/pages/Profile/index.jsx:72-74 | white iff the shape is the entity itself (iso3 for a country, geo id for a region); otherwise the 0.35 shade iff its iso_a3 is a focus code, else the 0.1 shade |
| `ProfileMap.StatValue` | app/pages/Profile/index.jsx:102 | with attr unset, the raw value; with attr set, the name of attrs[attr][value], and undefined iff that entry is missing |
| `ProfileMap.StatValues` | app/pages/Profile/index.jsx:102 | all stats' values, in order; defined iff every stat's value is |

## Left out

- The HTTP request and its asynchrony (Search.jsx:28-29). A response is an
  atomic event of its own, and the last one to arrive wins. Request order
  and races are not modelled. The API base URL (`helpers/consts.js`) is not
  part of this model: requests are paths relative to it.
- `dataFold` and `strip`: foreign functions. `strip` is a parameter and
  `dataFold`'s output is the response payload.
- `setTimeout` timing. A scheduled navigation is recorded as its path and its
  500 ms delay. The browser-history push itself is not modelled. The source
  pushes the link's resolved `href`, and the model records the path
  `/profile/<id>`.
- DOM side effects:
  - focus and blur in `render` (Search.jsx:110-113);
  - `preventDefault`;
  - the `classList` and `querySelector` mechanics, which the highlight index
    replaces;
  - treating `innerHTML` as the result's name (escaping is not modelled);
  - the listener that is never removed (Search.jsx:47).
- The keydown listener takes no parameter and reads the global
  `window.event` (Search.jsx:47-65). The model assumes that global is the
  keydown event being handled, and takes its key code and target as the
  event's data.
- The listener and `querySelector` are document-wide. The model assumes one
  search widget per page.
- JSX rendering, react-router, the redux `connect` and the `need` list
  (index.jsx:123-132). The Geomap configuration, except its fill and filter
  decisions. The lookup `attrs.geo[id]`: the map functions take the
  attribute record directly.
- `ProfileTopics.Lower`: models `toLowerCase` for ASCII letters only, not the
  full Unicode case mapping.
- `SearchWidget.Search.OnResponse`: assumes a non-negative `limit`. The
  effect of a negative `slice` bound is not modelled.
- `SearchState.Capped`, `SearchState.AfterResponse`: their `limit` is a `nat`, so `slice(0, -n)`, which
  drops the last n entries, is not modelled.
- `ProfileMap.Slice`: indexes a Dafny string by Unicode scalar values, while
  JavaScript's `slice` counts UTF-16 code units. The two differ only on
  characters outside the Basic Multilingual Plane; geo ids are ASCII.
- `app/pages/Profile/health/ConditionsByGender.jsx`: pure chart
  configuration over data fetched elsewhere. It has no decision logic.
