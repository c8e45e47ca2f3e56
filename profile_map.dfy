/**
 The decisions the profile page's render makes about its header: the ISO
 codes of the peer ("focus") entities, which boundary file the map loads,
 which shapes it keeps, how it shades them, and the value each key stat
 shows.
 */
module ProfileMap {
  import opened Wrappers

  /** An entity's attributes, as the store's `attrs` tables hold them. */
  datatype Attr = Attr(id: string, name: string, level: string, iso3: string)

  /** The properties of a boundary shape the map reads. */
  datatype Feature = Feature(geo: string, isoA3: string)

  /** A key stat of the header. An empty `attr` stands for an unset (falsy) one. */
  datatype Stat = Stat(key: string, caption: string, attr: string, value: string)

  const CONTINENT_TOPOJSON: string := "/topojson/continent.json"
  const ADM1_TOPOJSON: string := "/topojson/cell5m/adm1.json"

  /** The three shades; the model treats them as distinct opaque strings. */
  const SELF_FILL: string := "white"
  const FOCUS_FILL: string := "rgba(255, 255, 255, 0.35)"
  const OTHER_FILL: string := "rgba(255, 255, 255, 0.1)"

  /** `focus.map(f => attrs.geo[f].iso3)`. A focus id missing from the geo
      table makes the render throw, here `None`. */
  function FocusISO(geo: map<string, Attr>, focus: seq<string>): (r: Option<seq<string>>)
    ensures r.Some? <==> forall k :: 0 <= k < |focus| ==> focus[k] in geo
    ensures r.Some? ==> |r.value| == |focus|
    ensures r.Some? ==> forall k :: 0 <= k < |focus| ==> r.value[k] == geo[focus[k]].iso3
  {
    if focus == [] then Some([])
    else if focus[0] !in geo then None
    else match FocusISO(geo, focus[1..])
      case None => None
      case Some(rest) => Some([geo[focus[0]].iso3] + rest)
  }

  /** The profiled entity is a country. */
  predicate IsAdm0(attr: Attr)
  {
    attr.level == "adm0"
  }

  /** The boundary file: continent outlines for a country, first-level
      regions otherwise. */
  function TopoPath(attr: Attr): (p: string)
    ensures p == CONTINENT_TOPOJSON <==> attr.level == "adm0"
    ensures p == ADM1_TOPOJSON <==> attr.level != "adm0"
  {
    if IsAdm0(attr) then CONTINENT_TOPOJSON else ADM1_TOPOJSON
  }

  /** JavaScript's `s.slice(start, end)` for non-negative bounds: both bounds
      are clamped to the length, and the result is empty once the end does
      not exceed the start. */
  function Slice(s: string, start: nat, end: nat): (r: string)
    ensures |r| == if start < end && start < |s| then Min(end, |s|) - start else 0
    ensures forall k :: 0 <= k < |r| ==> start + k < |s| && r[k] == s[start + k]
  {
    var a := Min(start, |s|);
    var b := Min(end, |s|);
    if a < b then s[a..b] else ""
  }

  /** The country code inside an id, `id.slice(5, 10)`. */
  function Adm0Code(id: string): (r: string)
    ensures |r| <= 5
    ensures |id| >= 10 ==> r == id[5..10]
    ensures |id| <= 5 ==> r == ""
    ensures 5 < |id| < 10 ==> r == id[5..]
  {
    Slice(id, 5, 10)
  }

  /** The topojson filter: a country's map keeps every shape, a region's
      keeps the shapes of its own country. */
  function TopoFilter(attr: Attr, id: string, f: Feature): (r: bool)
    ensures IsAdm0(attr) ==> r
    ensures !IsAdm0(attr) ==> (r <==> Adm0Code(f.geo) == Adm0Code(id))
  {
    if IsAdm0(attr) then true else Adm0Code(id) == Slice(f.geo, 5, 10)
  }

  /** The shape that stands for the profiled entity itself. */
  predicate IsSelf(attr: Attr, id: string, f: Feature)
  {
    if IsAdm0(attr) then f.isoA3 == attr.iso3 else f.geo == id
  }

  /** fillAdm0. */
  function FillAdm0(attr: Attr, focusISO: seq<string>, f: Feature): (r: string)
    ensures r in {SELF_FILL, FOCUS_FILL, OTHER_FILL}
    ensures r == SELF_FILL <==> f.isoA3 == attr.iso3
    ensures r == FOCUS_FILL <==> f.isoA3 != attr.iso3 && f.isoA3 in focusISO
  {
    if f.isoA3 == attr.iso3 then SELF_FILL
    else if f.isoA3 in focusISO then FOCUS_FILL
    else OTHER_FILL
  }

  /** fillAdm1. */
  function FillAdm1(id: string, focusISO: seq<string>, f: Feature): (r: string)
    ensures r in {SELF_FILL, FOCUS_FILL, OTHER_FILL}
    ensures r == SELF_FILL <==> f.geo == id
    ensures r == FOCUS_FILL <==> f.geo != id && f.isoA3 in focusISO
  {
    if f.geo == id then SELF_FILL
    else if f.isoA3 in focusISO then FOCUS_FILL
    else OTHER_FILL
  }

  /** The fill the map uses, by the level of the profiled entity. */
  function Fill(attr: Attr, id: string, focusISO: seq<string>, f: Feature): (r: string)
    ensures r in {SELF_FILL, FOCUS_FILL, OTHER_FILL}
    ensures r == SELF_FILL <==> IsSelf(attr, id, f)
  {
    if IsAdm0(attr) then FillAdm0(attr, focusISO, f) else FillAdm1(id, focusISO, f)
  }

  /** The value a stat shows: the name of the referenced attribute when
      `attr` is set, the raw value otherwise. A reference to a missing table
      or entry makes the render throw, here `None`. */
  function StatValue(attrs: map<string, map<string, Attr>>, stat: Stat): (r: Option<string>)
    ensures stat.attr == "" ==> r == Some(stat.value)
    ensures stat.attr != "" ==>
      (r.Some? <==> stat.attr in attrs && stat.value in attrs[stat.attr])
    ensures stat.attr != "" && r.Some? ==> r.value == attrs[stat.attr][stat.value].name
  {
    if stat.attr == "" then Some(stat.value)
    else if stat.attr in attrs && stat.value in attrs[stat.attr] then Some(attrs[stat.attr][stat.value].name)
    else None
  }

  /** The values of all stats, in order; `None` once one of them throws. */
  function StatValues(attrs: map<string, map<string, Attr>>, stats: seq<Stat>): (r: Option<seq<string>>)
    ensures r.Some? <==> forall k :: 0 <= k < |stats| ==> StatValue(attrs, stats[k]).Some?
    ensures r.Some? ==> |r.value| == |stats|
    ensures r.Some? ==> forall k :: 0 <= k < |stats| ==> Some(r.value[k]) == StatValue(attrs, stats[k])
  {
    if stats == [] then Some([])
    else match StatValue(attrs, stats[0])
      case None => None
      case Some(v) =>
        match StatValues(attrs, stats[1..])
        case None => None
        case Some(rest) => Some([v] + rest)
  }

  /** The shading classifies every shape: white exactly for the entity
      itself; otherwise the brighter shade exactly for the focus countries.
      The self test comes first, so the entity is white even when it is
      also in the focus list. */
  lemma FillClassifies(attr: Attr, id: string, focusISO: seq<string>, f: Feature)
    ensures Fill(attr, id, focusISO, f) == SELF_FILL <==> IsSelf(attr, id, f)
    ensures Fill(attr, id, focusISO, f) == FOCUS_FILL <==> !IsSelf(attr, id, f) && f.isoA3 in focusISO
    ensures Fill(attr, id, focusISO, f) == OTHER_FILL <==> !IsSelf(attr, id, f) && f.isoA3 !in focusISO
  {
  }

  /** A country's map keeps every shape. */
  lemma CountryMapKeepsAll(attr: Attr, id: string, f: Feature)
    requires IsAdm0(attr)
    ensures TopoFilter(attr, id, f)
  {
  }

  /** A region's map keeps a shape exactly when characters 5 to 9 of its
      geo id match those of the profiled id, where both are long enough. */
  lemma RegionMapKeepsOwnCountry(attr: Attr, id: string, f: Feature)
    requires !IsAdm0(attr) && |id| >= 10 && |f.geo| >= 10
    ensures TopoFilter(attr, id, f) <==> f.geo[5..10] == id[5..10]
  {
  }

  /** The slice never reads past the end: an id of at most five characters
      has an empty country code. */
  lemma ShortIdHasEmptyCode(id: string)
    requires |id| <= 5
    ensures Adm0Code(id) == ""
  {
  }

  /** The profiled region's own shape is always on its map. */
  lemma RegionMapKeepsSelf(attr: Attr, id: string, f: Feature)
    requires f.geo == id
    ensures TopoFilter(attr, id, f)
  {
  }
}
