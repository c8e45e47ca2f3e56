/**
 The profile page's topic registry: four topics, each listing its chart
 sections in display order, to which a load-time pass adds a URL slug and
 the path of the topic's icon.
 */
module ProfileTopics {
  import opened Wrappers

  /** The chart section components a topic can list. */
  datatype SectionComponent =
    | CropsByHarvest | CropsByProduction | CropsAreaVsValue
    | RainfallBars
    | Conditions | ConditionsByGender | ConditionsByResidence
    | Poverty | PovertyByGender

  /** A section entry: a component alone, or a component with the extra
      `povertyLevel` prop. */
  datatype Section =
    | Plain(component: SectionComponent)
    | WithLevel(component: SectionComponent, povertyLevel: string)

  /** A topic record. `slug` and `image` are absent until the load-time pass
      adds them. */
  datatype Topic = Topic(title: string, sections: seq<Section>, slug: Option<string>, image: Option<string>)

  const IMAGE_PREFIX: string := "/images/topics/"
  const IMAGE_SUFFIX: string := ".svg"

  /** The registry as written, before slugs and images are added. */
  function Registry(): (r: seq<Topic>)
    ensures |r| == 4
    ensures forall k :: 0 <= k < |r| ==> r[k].slug.None? && r[k].image.None? && |r[k].sections| > 0
  {
    [ Topic("Agriculture", [Plain(CropsByHarvest), Plain(CropsByProduction), Plain(CropsAreaVsValue)], None, None),
      Topic("Climate", [Plain(RainfallBars)], None, None),
      Topic("Health", [Plain(Conditions), Plain(ConditionsByGender), Plain(ConditionsByResidence)], None, None),
      Topic("Poverty", [Plain(Poverty), WithLevel(PovertyByGender, "ppp1"), WithLevel(PovertyByGender, "ppp2")], None, None) ]
  }

  /** `toLowerCase` on one character, for the ASCII letters. */
  function LowerChar(c: char): char
  {
    if 'A' <= c <= 'Z' then (c as int - 'A' as int + 'a' as int) as char else c
  }

  /** `toLowerCase`: same length, every character lowered. */
  function Lower(s: string): (r: string)
    ensures |r| == |s|
    ensures forall k :: 0 <= k < |s| ==> r[k] == LowerChar(s[k])
  {
    seq(|s|, k requires 0 <= k < |s| => LowerChar(s[k]))
  }

  /** The slug of a title: the stripped title, lowered. */
  function Slug(title: string, strip: string -> string): string
  {
    Lower(strip(title))
  }

  /** The icon path of a slug; the slug can be read back out of it. */
  function ImagePath(slug: string): (p: string)
    ensures |p| == |IMAGE_PREFIX| + |slug| + |IMAGE_SUFFIX|
    ensures p[..|IMAGE_PREFIX|] == IMAGE_PREFIX
    ensures p[|IMAGE_PREFIX|..|IMAGE_PREFIX| + |slug|] == slug
    ensures p[|IMAGE_PREFIX| + |slug|..] == IMAGE_SUFFIX
  {
    IMAGE_PREFIX + slug + IMAGE_SUFFIX
  }

  /** A topic after the load-time pass. */
  function WithSlug(t: Topic, strip: string -> string): (r: Topic)
    ensures r.title == t.title && r.sections == t.sections
    ensures r.slug.Some? && r.image.Some? && r.image.value == ImagePath(r.slug.value)
    ensures |r.slug.value| == |strip(t.title)|
  {
    t.(slug := Some(Slug(t.title, strip)), image := Some(ImagePath(Slug(t.title, strip))))
  }

  /** The load-time `forEach`: each record in turn gets its slug, then its
      image path derived from that slug. */
  method AttachSlugs(topics: array<Topic>, strip: string -> string)
    modifies topics
    ensures forall k :: 0 <= k < topics.Length ==> topics[k] == WithSlug(old(topics[k]), strip)
  {
    for i := 0 to topics.Length
      invariant forall k :: 0 <= k < i ==> topics[k] == WithSlug(old(topics[k]), strip)
      invariant forall k :: i <= k < topics.Length ==> topics[k] == old(topics[k])
    {
      var slug := Lower(strip(topics[i].title));
      topics[i] := topics[i].(slug := Some(slug));
      topics[i] := topics[i].(image := Some(IMAGE_PREFIX + slug + IMAGE_SUFFIX));
    }
  }

  /** The module-load step: the registry in a fresh array, with slugs added. */
  method BuildTopics(strip: string -> string) returns (topics: array<Topic>)
    ensures fresh(topics)
    ensures topics.Length == |Registry()|
    ensures forall k :: 0 <= k < topics.Length ==> topics[k] == WithSlug(Registry()[k], strip)
  {
    topics := new Topic[4](k requires 0 <= k < 4 => Registry()[k]);
    AttachSlugs(topics, strip);
  }

  /** The titles of a list of topics, in order. */
  function Titles(ts: seq<Topic>): (r: seq<string>)
    ensures |r| == |ts|
    ensures forall k :: 0 <= k < |ts| ==> r[k] == ts[k].title
  {
    if ts == [] then [] else [ts[0].title] + Titles(ts[1..])
  }

  /** The topics are Agriculture, Climate, Health and Poverty, in that order;
      Poverty ends with PovertyByGender at level ppp1 and then at ppp2; no
      topic has a slug before the load-time pass. */
  lemma RegistryContents()
    ensures Titles(Registry()) == ["Agriculture", "Climate", "Health", "Poverty"]
    ensures var p := Registry()[3].sections;
      |p| == 3 && p[1] == WithLevel(PovertyByGender, "ppp1") && p[2] == WithLevel(PovertyByGender, "ppp2")
    ensures forall k :: 0 <= k < |Registry()| ==> Registry()[k].slug.None? && Registry()[k].image.None?
  {
  }

  /** The pass adds the slug and the image path and changes nothing else:
      title and sections, in their order, stay as they were. */
  lemma WithSlugKeepsContent(t: Topic, strip: string -> string)
    ensures WithSlug(t, strip).title == t.title
    ensures WithSlug(t, strip).sections == t.sections
    ensures WithSlug(t, strip).slug == Some(Lower(strip(t.title)))
    ensures WithSlug(t, strip).image == Some(IMAGE_PREFIX + Lower(strip(t.title)) + IMAGE_SUFFIX)
  {
  }

  /** The slug holds no upper-case ASCII letter and lowering it again
      changes nothing. */
  lemma SlugIsLowered(s: string)
    ensures forall k :: 0 <= k < |Lower(s)| ==> !('A' <= Lower(s)[k] <= 'Z')
    ensures Lower(Lower(s)) == Lower(s)
  {
  }

  /** Two topics whose images agree have the same slug. */
  lemma ImagePathInjective(a: string, b: string)
    requires ImagePath(a) == ImagePath(b)
    ensures a == b
  {
  }

  /** As long as `strip` leaves the plain titles alone, the slugs are
      agriculture, climate, health and poverty, and each icon is
      /images/topics/<slug>.svg. */
  lemma RegistrySlugs(strip: string -> string)
    requires strip("Agriculture") == "Agriculture" && strip("Climate") == "Climate"
    requires strip("Health") == "Health" && strip("Poverty") == "Poverty"
    ensures WithSlug(Registry()[0], strip).slug == Some("agriculture")
    ensures WithSlug(Registry()[1], strip).slug == Some("climate")
    ensures WithSlug(Registry()[2], strip).slug == Some("health")
    ensures WithSlug(Registry()[3], strip).slug == Some("poverty")
    ensures WithSlug(Registry()[0], strip).image == Some("/images/topics/agriculture.svg")
    ensures WithSlug(Registry()[1], strip).image == Some("/images/topics/climate.svg")
    ensures WithSlug(Registry()[2], strip).image == Some("/images/topics/health.svg")
    ensures WithSlug(Registry()[3], strip).image == Some("/images/topics/poverty.svg")
  {
    var r := Registry();
    assert r[0].title == "Agriculture" && r[1].title == "Climate";
    assert r[2].title == "Health" && r[3].title == "Poverty";
    assert Lower("Agriculture") == "agriculture" && Lower("Climate") == "climate";
    assert Lower("Health") == "health" && Lower("Poverty") == "poverty";
    assert IMAGE_PREFIX + "agriculture" + IMAGE_SUFFIX == "/images/topics/agriculture.svg";
    assert IMAGE_PREFIX + "climate" + IMAGE_SUFFIX == "/images/topics/climate.svg";
    assert IMAGE_PREFIX + "health" + IMAGE_SUFFIX == "/images/topics/health.svg";
    assert IMAGE_PREFIX + "poverty" + IMAGE_SUFFIX == "/images/topics/poverty.svg";
  }
}
