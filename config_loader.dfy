/**
 * The search configuration: a dictionary of sections read from YAML (or the
 * built-in defaults), section lookups with a fallback to `default`, the
 * mode, profile and query-type settings layered over the defaults, the
 * query-type detection by indicator words, and in-place updates.
 */
module ConfigLoader {
  import opened Base
  import opened Text

  /** One section: setting names to values. */
  type Section = map<string, Value>

  /** The whole configuration: section names to sections. */
  type Config = map<string, Section>

  const DefaultSection: string := "default"

  /** `_get_default_config`: a single `default` section. */
  function DefaultConfig(): Config
  {
    map[DefaultSection := map[
      "mode" := PyStr("hybrid"),
      "alpha" := PyNum(0.6),
      "top_k" := PyNum(10.0),
      "rerank" := PyBool(true),
      "tfidf_weight" := PyNum(0.3),
      "semantic_weight" := PyNum(0.7),
      "include_snippets" := PyBool(true),
      "include_metadata" := PyBool(true),
      "log_enabled" := PyBool(false)]]
  }

  /** `a.copy()` then `.update(b)`: every setting of `b`, and those of `a` that `b` does not set. */
  function Merge(a: Section, b: Section): (r: Section)
    ensures forall k :: k in r <==> k in a || k in b
    ensures forall k :: k in b ==> r[k] == b[k]
    ensures forall k :: k in a && k !in b ==> r[k] == a[k]
  {
    a + b
  }

  // ---------------------------------------------------------------------------
  // detect_query_type

  const KeywordIndicators: seq<string> :=
    ["algorithm", "method", "system", "apparatus", "device", "patent", "us", "uspto", "application", "grant"]

  const ConceptualIndicators: seq<string> :=
    ["how", "what", "why", "when", "where", "which", "improve", "enhance", "optimize", "better", "efficient"]

  const KeywordHeavy: string := "keyword_heavy"
  const Conceptual: string := "conceptual"
  const Mixed: string := "mixed"

  /** The indicators that occur in `text` as substrings, in list order. */
  function Matching(text: string, indicators: seq<string>): (r: seq<string>)
    ensures |r| <= |indicators|
    decreases |indicators|
  {
    if indicators == [] then []
    else
      var n := |indicators| - 1;
      Matching(text, indicators[..n]) + if Contains(text, indicators[n]) then [indicators[n]] else []
  }

  /** `sum(1 for indicator in indicators if indicator in text)`. */
  function IndicatorCount(text: string, indicators: seq<string>): nat
  {
    |Matching(text, indicators)|
  }

  /** The query's type by which kind of indicator occurs more often in its lower-cased text. */
  function DetectQueryType(query: string): string
  {
    var q := Lower(query);
    var keyword := IndicatorCount(q, KeywordIndicators);
    var conceptual := IndicatorCount(q, ConceptualIndicators);
    if keyword > conceptual then KeywordHeavy
    else if conceptual > keyword then Conceptual
    else Mixed
  }

  /** The matching indicators are exactly those occurring in the text, each counted once, none more than listed. */
  lemma MatchingFacts(text: string, indicators: seq<string>)
    ensures forall x :: x in Matching(text, indicators) <==> x in indicators && Contains(text, x)
    ensures |Matching(text, indicators)| <= |indicators|
    ensures Distinct(indicators) ==> Distinct(Matching(text, indicators))
    ensures (forall x :: x in indicators ==> !Contains(text, x)) ==> Matching(text, indicators) == []
  {
    MatchingMembers(text, indicators);
    if Distinct(indicators) {
      MatchingDistinct(text, indicators);
    }
  }

  lemma {:induction false} MatchingMembers(text: string, indicators: seq<string>)
    ensures forall x :: x in Matching(text, indicators) <==> x in indicators && Contains(text, x)
    decreases |indicators|
  {
    if indicators != [] {
      var n := |indicators| - 1;
      MatchingMembers(text, indicators[..n]);
      assert indicators == indicators[..n] + [indicators[n]];
    }
  }

  lemma {:induction false} MatchingDistinct(text: string, indicators: seq<string>)
    requires Distinct(indicators)
    ensures Distinct(Matching(text, indicators))
    decreases |indicators|
  {
    if indicators != [] {
      var n := |indicators| - 1;
      assert Distinct(indicators[..n]);
      MatchingDistinct(text, indicators[..n]);
      MatchingMembers(text, indicators[..n]);
      assert indicators[n] !in indicators[..n];
    }
  }

  /**
   * The type is "keyword_heavy" exactly when more keyword indicators than
   * conceptual ones occur in the lower-cased query, "conceptual" exactly for
   * the converse, and "mixed" exactly for a tie; case does not matter.
   */
  lemma DetectQueryTypeFacts(query: string)
    ensures var k := IndicatorCount(Lower(query), KeywordIndicators);
      var c := IndicatorCount(Lower(query), ConceptualIndicators);
      && (DetectQueryType(query) == KeywordHeavy <==> k > c)
      && (DetectQueryType(query) == Conceptual <==> c > k)
      && (DetectQueryType(query) == Mixed <==> k == c)
      && k <= |KeywordIndicators| && c <= |ConceptualIndicators|
    ensures DetectQueryType(Lower(query)) == DetectQueryType(query)
  {
    assert DetectQueryType(Lower(query)) == DetectQueryType(query) by {
      LowerIdempotent(query);
    }
  }

  /** Indicators are substrings, not words: "us" inside "Bus" makes the query keyword-heavy. */
  lemma IndicatorInsideWord()
    ensures DetectQueryType("Bus") == KeywordHeavy
  {
    var q := Lower("Bus");
    assert q == "bus";
    assert OccursAt(q, "us", 1);
    assert Contains(q, "us");
    assert IndicatorCount(q, KeywordIndicators) >= 1 by {
      MatchingFacts(q, KeywordIndicators);
      assert "us" in Matching(q, KeywordIndicators);
    }
    assert IndicatorCount(q, ConceptualIndicators) == 0 by {
      NoneLonger(q, ConceptualIndicators);
    }
  }

  /** Indicators longer than the text do not occur in it, except the three-letter ones checked one by one. */
  lemma NoneLonger(q: string, indicators: seq<string>)
    requires q == "bus" && indicators == ConceptualIndicators
    ensures Matching(q, indicators) == []
  {
    forall x | x in indicators ensures !Contains(q, x) {
      if |x| > 3 {
        assert forall j :: !OccursAt(q, x, j);
      } else {
        assert x == "how" || x == "why";
        assert q[0..3][0] == q[0] != x[0];
        assert forall j :: !OccursAt(q, x, j);
      }
    }
    MatchingFacts(q, indicators);
  }

  // ---------------------------------------------------------------------------
  // SearchConfig

  /** The `.get(name, {})` of a section holding named sub-sections; a value that is not a dictionary cannot update one. */
  function SubSection(s: Section, name: string): Result<Section>
  {
    if name !in s then Ok(map[])
    else match s[name]
      case PyDict(fields) => Ok(fields)
      case _ => Err(TypeError("cannot update a dictionary from a non-dictionary value"))
  }

  /** `SearchConfig`: the loaded configuration, read by the lookups and changed by `update_config`. */
  class SearchConfig {
    var config: Config

    /**
     * The configuration loaded from the YAML file, or the defaults when the
     * file is missing or fails to load (`loaded` is `None`).
     */
    constructor(loaded: Option<Config>)
      ensures config == if loaded.Some? then loaded.value else DefaultConfig()
    {
      config := if loaded.Some? then loaded.value else DefaultConfig();
    }

    /** `self.config.get(name, {})`. */
    function SectionOf(name: string): (r: Section)
      reads this
      ensures name in config ==> r == config[name]
      ensures name !in config ==> r == map[]
    {
      if name in config then config[name] else map[]
    }

    /**
     * `get_config`: an unknown section falls back to `default` (KeyError when
     * that is missing too); without a key the whole section, else the key's
     * value, or `None` when the section lacks it.
     */
    function GetConfig(section: string, key: Option<string>): (r: Result<Value>)
      reads this
      ensures r.Err? <==> section !in config && DefaultSection !in config
      ensures r.Ok? && key.None? ==>
        r.value == PyDict(if section in config then config[section] else config[DefaultSection])
      ensures r.Ok? && key.Some? ==>
        var s := if section in config then config[section] else config[DefaultSection];
        r.value == if key.value in s then s[key.value] else PyNone
    {
      var name := if section in config then section else DefaultSection;
      if name !in config then Err(Failure("KeyError: 'default'"))
      else if key.None? then Ok(PyDict(config[name]))
      else Ok(Get(config[name], key.value, PyNone))
    }

    /** The defaults overridden by the entry `name` of the section `group` (`modes`, `profiles` or `query_types`). */
    function Layered(group: string, name: string): (r: Result<Section>)
      reads this
      ensures r.Ok? <==> SubSection(SectionOf(group), name).Ok?
      ensures r.Ok? ==> r.value == Merge(SectionOf(DefaultSection), SubSection(SectionOf(group), name).value)
    {
      match SubSection(SectionOf(group), name)
      case Ok(own) => Ok(Merge(SectionOf(DefaultSection), own))
      case Err(e) => Err(e)
    }

    /** `get_mode_config`. */
    function GetModeConfig(mode: string): Result<Section>
      reads this
    {
      Layered("modes", mode)
    }

    /** `get_profile_config`. */
    function GetProfileConfig(profile: string): Result<Section>
      reads this
    {
      Layered("profiles", profile)
    }

    /** `get_query_type_config`. */
    function GetQueryTypeConfig(queryType: string): Result<Section>
      reads this
    {
      Layered("query_types", queryType)
    }

    /**
     * `get_optimized_config`: the defaults, then the profile's settings when
     * a non-empty profile is given, then the settings of the query's type.
     */
    function GetOptimizedConfig(query: string, profile: Option<string>): Result<Section>
      reads this
    {
      var base := SectionOf(DefaultSection);
      var withProfile :=
        if profile.Some? && profile.value != [] then
          match GetProfileConfig(profile.value)
          case Ok(p) => Ok(Merge(base, p))
          case Err(e) => Err(e)
        else Ok(base);
      match withProfile
      case Err(e) => Err(e)
      case Ok(c) =>
        match GetQueryTypeConfig(DetectQueryType(query))
        case Ok(q) => Ok(Merge(c, q))
        case Err(e) => Err(e)
    }

    /** `update_config`: the section is created when missing, and only the one key is set. */
    method UpdateConfig(section: string, key: string, value: Value)
      modifies this
      ensures config == old(config)[section := old(SectionOf(section))[key := value]]
      ensures GetConfig(section, Some(key)) == Ok(value)
    {
      if section !in config {
        config := config[section := map[]];
      }
      config := config[section := config[section][key := value]];
    }
  }

  /**
   * A mode, profile or query-type configuration holds every default and
   * every setting of its own entry, its own settings winning; a missing
   * entry gives the defaults alone.
   */
  lemma LayeredFacts(c: SearchConfig, group: string, name: string)
    requires c.Layered(group, name).Ok?
    ensures var r := c.Layered(group, name).value;
      var own := SubSection(c.SectionOf(group), name).value;
      var defaults := c.SectionOf(DefaultSection);
      && (forall k :: k in r <==> k in defaults || k in own)
      && (forall k :: k in own ==> r[k] == own[k])
      && (forall k :: k in defaults && k !in own ==> r[k] == defaults[k])
      && (name !in c.SectionOf(group) ==> r == defaults)
  {
    var defaults := c.SectionOf(DefaultSection);
    if name !in c.SectionOf(group) {
      assert defaults + map[] == defaults;
    }
  }

  /**
   * The layering of `get_optimized_config`: a setting of the query type's
   * entry wins; otherwise a default setting keeps its default value, even
   * when the profile sets it, since the query-type layer carries the
   * defaults again; only settings absent from the defaults survive from the
   * profile.
   */
  lemma OptimizedLayering(c: SearchConfig, query: string, profile: string)
    requires c.GetOptimizedConfig(query, Some(profile)).Ok? && profile != []
    ensures var r := c.GetOptimizedConfig(query, Some(profile)).value;
      var defaults := c.SectionOf(DefaultSection);
      var p := SubSection(c.SectionOf("profiles"), profile).value;
      var q := SubSection(c.SectionOf("query_types"), DetectQueryType(query)).value;
      && (forall k :: k in r <==> k in defaults || k in p || k in q)
      && (forall k :: k in q ==> r[k] == q[k])
      && (forall k :: k !in q && k in defaults ==> r[k] == defaults[k])
      && (forall k :: k !in q && k !in defaults && k in p ==> r[k] == p[k])
  {
  }

  /** Without a profile the optimized configuration is the query type's configuration. */
  lemma OptimizedWithoutProfile(c: SearchConfig, query: string)
    ensures c.GetOptimizedConfig(query, None) == c.GetQueryTypeConfig(DetectQueryType(query))
  {
    var defaults := c.SectionOf(DefaultSection);
    match c.GetQueryTypeConfig(DetectQueryType(query))
    case Err(_) =>
    case Ok(q) =>
      assert Merge(defaults, q) == q;
  }

  /** After an update, every other section, and every other key of the section, is as before. */
  lemma UpdateKeepsOthers(before: Config, after: Config, section: string, key: string, value: Value)
    requires after == before[section := (if section in before then before[section] else map[])[key := value]]
    ensures section in after && key in after[section] && after[section][key] == value
    ensures forall s :: s != section ==> (s in after <==> s in before) && (s in before ==> after[s] == before[s])
    ensures forall k :: k != key ==>
      (k in after[section] <==> section in before && k in before[section]) &&
      (section in before && k in before[section] ==> after[section][k] == before[section][k])
  {
  }
}
