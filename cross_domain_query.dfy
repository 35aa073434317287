/**
 * `CrossDomainQueryEngine`: decides which knowledge domains a request needs, which
 * categories to query in each, which keywords to score candidates with, and keeps the
 * best candidate of a category only when it scores above 20.
 *
 * The `elements` table is the row sequence of `ElementLookup`; the variable sampler the
 * engine consults per element is a parameter returning what one sampling call yields.
 */
module CrossDomainQuery {
  import opened Wrappers
  import opened Text
  import opened Seqs
  import opened PyValue
  import opened ElementLookup
  import opened ElementSelector
  import Generator = CrossDomainGenerator

  // ---------------------------------------------------------------------------
  // analyze_required_domains

  const VideoKeys: seq<string> := ["action", "pose", "energy", "movement", "motion", "dynamic"]
  const EnergyCues: seq<string> := ["kamehameha", "龟派气功", "能量", "energy", "气息"]
  const ArtKeywords: seq<string> := ["3d", "wax", "蜡像", "holographic", "sculpture", "rendering"]
  const DesignKeys: seq<string> := ["layout", "composition", "typography", "poster", "card"]

  /** `any(k in intent for k in keys)` */
  predicate AnyKey(intent: Dict, keys: seq<string>)
  {
    exists k :: 0 <= k < |keys| && keys[k] in intent
  }

  /** `intent.get('raw_input', '').lower()`; a value without `lower` raises AttributeError. */
  function RawLower(intent: Dict): Result<string>
  {
    match Get(intent, "raw_input", VStr(""))
    case VStr(s) => Ok(Lower(s))
    case _ => Err("AttributeError")
  }

  /**
   * The lowercased art style: the `art_style` entry of a dict-valued `visual_style`
   * (default ''), or `str()` of any other value, whose rendering of floats, lists and
   * dicts is `repr`.
   */
  function ArtText(intent: Dict, repr: Value -> string): Result<string>
  {
    var visual := Get(intent, "visual_style", VDict(map[]));
    if visual.VDict? then
      match Get(visual.entries, "art_style", VStr(""))
      case VStr(s) => Ok(Lower(s))
      case _ => Err("AttributeError")
    else Ok(Lower(Str(visual, repr)))
  }

  predicate HasArtKey(intent: Dict)
  {
    "art_style" in intent || "visual_style" in intent
  }

  /** The domains the request needs, as the set the source builds, or the exception it raises. */
  function RequiredDomains(intent: Dict, repr: Value -> string): Result<set<string>>
  {
    match RawLower(intent)
    case Err(e) => Err(e)
    case Ok(raw) =>
      var art := if HasArtKey(intent) then ArtText(intent, repr) else Ok("");
      match art
      case Err(e) => Err(e)
      case Ok(artText) =>
        Ok(DomainsOf("subject" in intent, AnyKey(intent, VideoKeys) || AnyContained(raw, EnergyCues),
                     AnyContained(artText, ArtKeywords), AnyKey(intent, DesignKeys), "product" in intent))
  }

  /** The domain set from the individual decisions; `common` is always in it. */
  function DomainsOf(portrait: bool, video: bool, art: bool, design: bool, product: bool): set<string>
  {
    (if portrait then {"portrait"} else {})
    + (if video then {"video"} else {})
    + (if art then {"art"} else {})
    + (if design then {"design"} else {})
    + (if product then {"product"} else {})
    + {"common"}
  }

  /** Adding `x` when `c` holds, as the source's `domains.add` under an `if`. */
  function AddIf(domains: set<string>, c: bool, x: string): set<string>
  {
    if c then domains + {x} else domains
  }

  /** The source's sequence of conditional additions builds `DomainsOf`. */
  lemma AddsBuildDomains(portrait: bool, videoKey: bool, energy: bool, art: bool, design: bool, product: bool)
    ensures AddIf(AddIf(AddIf(AddIf(AddIf(AddIf({}, portrait, "portrait"), videoKey, "video"), energy, "video"), art, "art"),
                  design, "design"), product, "product") + {"common"}
      == DomainsOf(portrait, videoKey || energy, art, design, product)
  {
  }

  /**
   * `analyze_required_domains`, adding to the set step by step. Its list conversion
   * has no defined order, so the result is the set itself.
   */
  method AnalyzeRequiredDomains(intent: Dict, repr: Value -> string) returns (r: Result<set<string>>)
    ensures r == RequiredDomains(intent, repr)
  {
    var domains: set<string> := {};
    if "subject" in intent {
      domains := domains + {"portrait"};
    }
    ghost var d1 := domains;
    var anyVideoKey := AnyKeyIn(intent, VideoKeys);
    if anyVideoKey {
      domains := domains + {"video"};
    }
    ghost var d2 := domains;
    var raw := RawLower(intent);
    if raw.Err? {
      return Err(raw.error);
    }
    var energy := AnyCue(raw.value, EnergyCues);
    if energy {
      domains := domains + {"video"};
    }
    ghost var d3 := domains;
    var special := false;
    if HasArtKey(intent) {
      var art := ArtText(intent, repr);
      if art.Err? {
        return Err(art.error);
      }
      special := AnyCue(art.value, ArtKeywords);
      if special {
        domains := domains + {"art"};
      }
    } else {
      NoArtKeyword("");
    }
    ghost var d4 := domains;
    var anyDesignKey := AnyKeyIn(intent, DesignKeys);
    if anyDesignKey {
      domains := domains + {"design"};
    }
    ghost var d5 := domains;
    if "product" in intent {
      domains := domains + {"product"};
    }
    ghost var d6 := domains;
    domains := domains + {"common"};
    assert d1 == AddIf({}, "subject" in intent, "portrait");
    assert d2 == AddIf(d1, anyVideoKey, "video");
    assert d3 == AddIf(d2, energy, "video");
    assert d4 == AddIf(d3, special, "art");
    assert d5 == AddIf(d4, anyDesignKey, "design");
    assert d6 == AddIf(d5, "product" in intent, "product");
    AddsBuildDomains("subject" in intent, anyVideoKey, energy, special, anyDesignKey, "product" in intent);
    return Ok(domains);
  }

  /**
   * The request needs `common` always; `portrait` exactly when it has a `subject` key,
   * even an empty one; `video` exactly for a motion key or an energy cue in the raw
   * input; `art` exactly for an art keyword in the art style; `design` and `product`
   * exactly for their keys; and nothing else. Only a raw input or art style without
   * `lower` makes it raise.
   */
  lemma RequiredDomainsMembers(intent: Dict, repr: Value -> string)
    ensures var r := RequiredDomains(intent, repr);
      (r.Err? <==> RawLower(intent).Err? || (HasArtKey(intent) && ArtText(intent, repr).Err?))
      && (r.Ok? ==>
        "common" in r.value
        && ("portrait" in r.value <==> "subject" in intent)
        && ("video" in r.value <==> AnyKey(intent, VideoKeys) || AnyContained(RawLower(intent).value, EnergyCues))
        && ("art" in r.value <==> HasArtKey(intent) && AnyContained(ArtText(intent, repr).value, ArtKeywords))
        && ("design" in r.value <==> AnyKey(intent, DesignKeys))
        && ("product" in r.value <==> "product" in intent)
        && r.value <= {"portrait", "video", "art", "design", "product", "common"})
  {
    if !HasArtKey(intent) {
      NoArtKeyword("");
    }
    if RawLower(intent).Ok? && (HasArtKey(intent) ==> ArtText(intent, repr).Ok?) {
      var artText := if HasArtKey(intent) then ArtText(intent, repr).value else "";
      DomainsOfMembers("subject" in intent, AnyKey(intent, VideoKeys) || AnyContained(RawLower(intent).value, EnergyCues),
                       AnyContained(artText, ArtKeywords), AnyKey(intent, DesignKeys), "product" in intent);
    }
  }

  /** Each domain is in the set exactly when its decision is true; `common` always is, and nothing else. */
  lemma DomainsOfMembers(portrait: bool, video: bool, art: bool, design: bool, product: bool)
    ensures var r := DomainsOf(portrait, video, art, design, product);
      "common" in r && ("portrait" in r <==> portrait) && ("video" in r <==> video) && ("art" in r <==> art)
      && ("design" in r <==> design) && ("product" in r <==> product)
      && r <= {"portrait", "video", "art", "design", "product", "common"}
  {
  }

  method AnyKeyIn(intent: Dict, keys: seq<string>) returns (found: bool)
    ensures found == AnyKey(intent, keys)
  {
    found := false;
    var i := 0;
    while i < |keys|
      invariant 0 <= i <= |keys|
      invariant found <==> exists k :: 0 <= k < i && keys[k] in intent
    {
      if keys[i] in intent {
        found := true;
      }
      i := i + 1;
    }
  }

  method AnyCue(text: string, cues: seq<string>) returns (found: bool)
    ensures found == AnyContained(text, cues)
  {
    found := false;
    var i := 0;
    while i < |cues|
      invariant 0 <= i <= |cues|
      invariant found <==> exists k :: 0 <= k < i && Contains(text, cues[k])
    {
      if Contains(text, cues[i]) {
        found := true;
      }
      i := i + 1;
    }
  }

  // ---------------------------------------------------------------------------
  // build_query_plan

  /** The fixed category list of a recognised domain. */
  function CategoriesOf(domain: string): Option<seq<string>>
  {
    if domain == "portrait" then
      Some(["gender", "age_range", "ethnicity", "eye_types", "face_shapes", "skin_tones",
            "makeup_styles", "hair_styles", "hair_colors", "expressions", "poses"])
    else if domain == "video" then Some(["scene_types", "motion_effects", "camera_movements"])
    else if domain == "art" then Some(["art_styles", "special_effects"])
    else if domain == "design" then Some(["layout_types", "visual_styles", "composition_techniques"])
    else if domain == "product" then Some(["photography_styles", "lighting_setups"])
    else if domain == "common" then Some(["lighting_techniques", "photography_techniques", "poses", "technical_quality"])
    else None
  }

  type Plan = seq<(string, seq<string>)>

  function Keys(plan: Plan): seq<string>
  {
    seq(|plan|, i requires 0 <= i < |plan| => plan[i].0)
  }

  /** Python's `plan[key] = value`: overwrite in place when present, append otherwise. */
  function Assign(plan: Plan, key: string, value: seq<string>): (r: Plan)
    ensures key in Keys(plan) ==> |r| == |plan|
    ensures key !in Keys(plan) ==> r == plan + [(key, value)]
  {
    if key in Keys(plan) then
      seq(|plan|, i requires 0 <= i < |plan| => if plan[i].0 == key then (key, value) else plan[i])
    else plan + [(key, value)]
  }

  /** `build_query_plan`: one assignment per recognised domain, in list order. */
  function QueryPlan(domains: seq<string>): Plan
  {
    if domains == [] then []
    else
      var plan := QueryPlan(domains[..|domains| - 1]);
      var d := domains[|domains| - 1];
      match CategoriesOf(d)
      case None => plan
      case Some(cs) => Assign(plan, d, cs)
  }

  /**
   * The plan has one entry per recognised requested domain, in first-request order,
   * each holding that domain's category list; unknown domains have none.
   */
  lemma {:induction false} QueryPlanProps(domains: seq<string>)
    ensures NoDuplicates(Keys(QueryPlan(domains)))
    ensures forall d :: d in Keys(QueryPlan(domains)) <==> d in domains && CategoriesOf(d).Some?
    ensures forall i :: 0 <= i < |QueryPlan(domains)| ==> Some(QueryPlan(domains)[i].1) == CategoriesOf(QueryPlan(domains)[i].0)
  {
    if domains != [] {
      var init := domains[..|domains| - 1];
      var d := domains[|domains| - 1];
      QueryPlanProps(init);
      var plan := QueryPlan(init);
      assert forall x :: x in domains <==> x in init || x == d by {
        assert domains == init + [d];
      }
      match CategoriesOf(d)
      case None =>
      case Some(cs) =>
        var r := Assign(plan, d, cs);
        if d in Keys(plan) {
          assert forall i :: 0 <= i < |r| ==> r[i].0 == plan[i].0;
          assert Keys(r) == Keys(plan);
        } else {
          assert Keys(r) == Keys(plan) + [d];
        }
    }
  }

  // ---------------------------------------------------------------------------
  // extract_keywords_from_intent

  const SceneKeywords: seq<string> := ["energy", "aura", "atmosphere", "power", "能量", "气息", "氛围"]
  const MotionKeywords: seq<string> := ["motion", "movement", "action", "dynamic", "动作", "运动", "动态"]
  const ArtStyleKeywords: seq<string> := ["3d", "wax", "蜡像", "holographic", "realistic", "rendering"]
  const EffectKeywords: seq<string> := ["glow", "particle", "holographic", "energy", "发光", "粒子", "全息"]

  /** `[kw for kw in cues if kw in text]` */
  function Found(cues: seq<string>, text: string): (r: seq<string>)
    ensures IsSubsequence(r, cues)
    ensures forall k :: 0 <= k < |cues| ==> (cues[k] in r <==> Contains(text, cues[k]))
  {
    if cues == [] then []
    else
      var rest := Found(cues[1..], text);
      assert forall k :: 1 <= k < |cues| ==> cues[k] == cues[1..][k - 1];
      if Contains(text, cues[0]) then
        assert ([cues[0]] + rest)[1..] == rest;
        [cues[0]] + rest
      else
        assert cues[0] in rest ==> cues[0] in cues[1..] by {
          if cues[0] in rest {
            SubsequenceMember(rest, cues[1..], cues[0]);
          }
        }
        SubsequenceExtend(rest, cues[1..], cues[0]);
        assert [cues[0]] + cues[1..] == cues;
        rest
  }

  function Strings(words: seq<string>): seq<Value>
  {
    seq(|words|, i requires 0 <= i < |words| => VStr(words[i]))
  }

  /**
   * The keywords for one category: cues found in the lowercased raw input for the four
   * cue categories (a truthy dict `art_style` first for art styles), the `lighting`
   * value (default 'natural') when truthy for lighting techniques, nothing otherwise.
   */
  function ExtractKeywords(intent: Dict, category: string): (r: Result<seq<Value>>)
    ensures category !in {"scene_types", "motion_effects", "art_styles", "special_effects"} ==> r.Ok?
    ensures category == "lighting_techniques" ==>
      r == Ok(var l := Get(intent, "lighting", VStr("natural")); if Truthy(l) then [l] else [])
    ensures category !in {"scene_types", "motion_effects", "art_styles", "special_effects", "lighting_techniques"} ==> r == Ok([])
    ensures category in {"scene_types", "motion_effects", "art_styles", "special_effects"} ==> (r.Err? <==> RawLower(intent).Err?)
  {
    if category == "lighting_techniques" then
      var lighting := Get(intent, "lighting", VStr("natural"));
      Ok(if Truthy(lighting) then [lighting] else [])
    else if category !in {"scene_types", "motion_effects", "art_styles", "special_effects"} then Ok([])
    else if RawLower(intent).Err? then Err(RawLower(intent).error)
    else
      var raw := RawLower(intent).value;
      if category == "scene_types" then Ok(Strings(Found(SceneKeywords, raw)))
      else if category == "motion_effects" then Ok(Strings(Found(MotionKeywords, raw)))
      else if category == "special_effects" then Ok(Strings(Found(EffectKeywords, raw)))
      else Ok(StyleFirst(intent) + Strings(Found(ArtStyleKeywords, raw)))
  }

  /** A truthy `art_style` of a dict-valued `visual_style`, which leads the art-style keywords. */
  function StyleFirst(intent: Dict): seq<Value>
  {
    var visual := Get(intent, "visual_style", VDict(map[]));
    if visual.VDict? && Truthy(Get(visual.entries, "art_style", VStr(""))) then [visual.entries["art_style"]] else []
  }

  /** `VStr(w)` is among the wrapped words exactly when `w` is among the words. */
  lemma StringsMember(words: seq<string>, w: string)
    ensures VStr(w) in Strings(words) <==> w in words
  {
    if VStr(w) in Strings(words) {
      var j :| 0 <= j < |words| && Strings(words)[j] == VStr(w);
      assert words[j] == w;
    }
    if w in words {
      var j :| 0 <= j < |words| && words[j] == w;
      assert Strings(words)[j] == VStr(w);
    }
  }

  /** For the three cue categories, the keywords are exactly the table's cues found in the lowercased raw input. */
  lemma CueKeywords(intent: Dict, category: string, cues: seq<string>)
    requires RawLower(intent).Ok?
    requires (category == "scene_types" && cues == SceneKeywords)
          || (category == "motion_effects" && cues == MotionKeywords)
          || (category == "special_effects" && cues == EffectKeywords)
    ensures ExtractKeywords(intent, category).Ok?
    ensures forall v :: v in ExtractKeywords(intent, category).value ==> v.VStr? && v.s in cues
    ensures forall k :: 0 <= k < |cues| ==>
      (VStr(cues[k]) in ExtractKeywords(intent, category).value <==> Contains(RawLower(intent).value, cues[k]))
  {
    var found := Found(cues, RawLower(intent).value);
    assert ExtractKeywords(intent, category).value == Strings(found);
    forall v | v in Strings(found)
      ensures v.VStr? && v.s in cues
    {
      StringsMember(found, v.s);
      SubsequenceMember(found, cues, v.s);
    }
    forall k | 0 <= k < |cues|
      ensures VStr(cues[k]) in Strings(found) <==> cues[k] in found
    {
      StringsMember(found, cues[k]);
    }
  }

  /** The raw input's art-style cues, in table order, after a truthy dict `art_style`. */
  lemma ArtStyleKeywordsProps(intent: Dict)
    requires RawLower(intent).Ok?
    ensures ExtractKeywords(intent, "art_styles").Ok?
    ensures var kws := ExtractKeywords(intent, "art_styles").value;
      var lead := |StyleFirst(intent)|;
      lead <= 1 && lead <= |kws|
      && (lead == 1 <==> Get(intent, "visual_style", VDict(map[])).VDict?
                         && Truthy(Get(Get(intent, "visual_style", VDict(map[])).entries, "art_style", VStr(""))))
      && (forall k :: 0 <= k < |ArtStyleKeywords| ==>
            (VStr(ArtStyleKeywords[k]) in kws[lead..] <==> Contains(RawLower(intent).value, ArtStyleKeywords[k])))
  {
    var raw := RawLower(intent).value;
    var found := Found(ArtStyleKeywords, raw);
    var kws := ExtractKeywords(intent, "art_styles").value;
    var lead := |StyleFirst(intent)|;
    assert kws[lead..] == Strings(found);
    forall k | 0 <= k < |ArtStyleKeywords|
      ensures VStr(ArtStyleKeywords[k]) in Strings(found) <==> ArtStyleKeywords[k] in found
    {
      StringsMember(found, ArtStyleKeywords[k]);
    }
  }

  /** The keywords as the scorer needs them: all strings, or None when one is not. */
  function KeywordStrings(kws: seq<Value>): (r: Option<seq<string>>)
    ensures r.Some? <==> forall i :: 0 <= i < |kws| ==> kws[i].VStr?
    ensures r.Some? ==> |r.value| == |kws| && forall i :: 0 <= i < |kws| ==> kws[i] == VStr(r.value[i])
  {
    if kws == [] then Some([])
    else
      match (kws[0], KeywordStrings(kws[1..]))
      case (VStr(s), Some(rest)) =>
        assert forall i :: 1 <= i < |kws| ==> kws[i] == kws[1..][i - 1];
        Some([s] + rest)
      case (VStr(_), None) =>
        var i :| 0 <= i < |kws[1..]| && !kws[1..][i].VStr?;
        assert !kws[i + 1].VStr?;
        None
      case _ => None
  }

  // ---------------------------------------------------------------------------
  // query_domain

  /** How the scorer rates an element for the given keywords. */
  function Score(ks: seq<string>): Element -> real
  {
    e => MatchScore(CandidateOf(e), ks)
  }

  /** The keywords the category is scored with, or None when extracting them or scoring with them raises. */
  function KeywordsFor(intent: Dict, category: string): Option<seq<string>>
  {
    match ExtractKeywords(intent, category)
    case Err(_) => None
    case Ok(kws) => KeywordStrings(kws)
  }

  /** The candidate elements of each category of one domain. */
  type Lookup = string -> seq<Element>

  /** `get_all_elements_by_category(domain, category)` for each category. */
  function CategoryLookup(rows: seq<Row>, domain: string): Lookup
  {
    c => GetAllElementsByCategory(rows, domain, c, "")
  }

  /** Every candidate a lookup returns for a category belongs to that category. */
  ghost predicate FromCategories(lookup: Lookup)
  {
    forall c, e :: e in lookup(c) ==> e.category == c
  }

  lemma CategoryLookupSound(rows: seq<Row>, domain: string)
    ensures FromCategories(CategoryLookup(rows, domain))
  {
    forall c, e | e in CategoryLookup(rows, domain)(c)
      ensures e.category == c
    {
      var cands := GetAllElementsByCategory(rows, domain, c, "");
      var i :| 0 <= i < |cands| && cands[i] == e;
    }
  }

  /**
   * One category's contribution: nothing without candidates, otherwise the selector's
   * choice when it scored above 20.
   */
  function Selected(lookup: Lookup, category: string, intent: Dict): Result<Option<Element>>
  {
    match ExtractKeywords(intent, category)
    case Err(e) => Err(e)
    case Ok(kws) =>
      var cands := lookup(category);
      if cands == [] then Ok(None)
      else
        match KeywordStrings(kws)
        case None => Err("AttributeError")
        case Some(ks) =>
          var best := Best(cands, Score(ks));
          if best.0.Some? && best.1 > 20.0 then Ok(best.0) else Ok(None)
  }

  /**
   * A category contributes exactly when it has candidates and the best of them scores
   * above 20; the contribution is a candidate no other candidate beats.
   */
  lemma SelectedProps(lookup: Lookup, category: string, intent: Dict)
    ensures var cands := lookup(category);
      var s := Selected(lookup, category, intent);
      (s.Err? <==> KeywordsFor(intent, category).None? && (ExtractKeywords(intent, category).Err? || cands != []))
      && (s.Ok? && cands == [] ==> s.value.None?)
      && (s.Ok? && s.value.Some? ==>
            var e := s.value.value; var score := Score(KeywordsFor(intent, category).value);
            e in cands && score(e) > 20.0
            && forall c :: c in cands ==> score(c) <= score(e))
      && (s.Ok? && s.value.None? && cands != [] ==>
            forall c :: c in cands ==> Score(KeywordsFor(intent, category).value)(c) <= 20.0)
  {
    var cands := lookup(category);
    var s := Selected(lookup, category, intent);
    if s.Ok? && cands != [] {
      var ks := KeywordsFor(intent, category).value;
      var score := Score(ks);
      assert forall i :: 0 <= i < |cands| ==> score(cands[i]) >= 0.0;
      BestProps(cands, score);
      var best := Best(cands, score);
      if best.0.Some? {
        var k :| FirstGreatest(cands, score, k) && cands[k] == best.0.value && best.1 == score(cands[k]);
        assert forall c :: c in cands ==> score(c) <= score(cands[k]);
      }
    }
  }

  function OptionSeq<T>(o: Option<T>): seq<T>
  {
    if o.Some? then [o.value] else []
  }

  /** `query_domain`: the categories in order, stopping at the first exception. */
  function QueriedDomain(lookup: Lookup, categories: seq<string>, intent: Dict): Result<seq<Element>>
  {
    if categories == [] then Ok([])
    else
      match QueriedDomain(lookup, categories[..|categories| - 1], intent)
      case Err(e) => Err(e)
      case Ok(prev) =>
        match Selected(lookup, categories[|categories| - 1], intent)
        case Err(e) => Err(e)
        case Ok(o) => Ok(prev + OptionSeq(o))
  }

  function CategoryList(elements: seq<Element>): seq<string>
  {
    seq(|elements|, i requires 0 <= i < |elements| => elements[i].category)
  }

  /** The element was drawn from its category's candidates and scored above 20 there. */
  predicate Kept(lookup: Lookup, intent: Dict, e: Element)
  {
    KeywordsFor(intent, e.category).Some?
    && e in lookup(e.category)
    && Score(KeywordsFor(intent, e.category).value)(e) > 20.0
  }

  /** One more category: the earlier categories' elements and then what it selects. */
  lemma QueriedDomainStep(lookup: Lookup, categories: seq<string>, intent: Dict)
    requires categories != []
    ensures var r := QueriedDomain(lookup, categories, intent);
      var prev := QueriedDomain(lookup, categories[..|categories| - 1], intent);
      var s := Selected(lookup, categories[|categories| - 1], intent);
      r.Ok? ==> prev.Ok? && s.Ok? && r.value == prev.value + OptionSeq(s.value)
  {
  }

  /** A selected element is one of its category's candidates. */
  lemma SelectedFrom(lookup: Lookup, category: string, intent: Dict)
    requires FromCategories(lookup)
    ensures var s := Selected(lookup, category, intent);
      s.Ok? && s.value.Some? ==> s.value.value.category == category
  {
    SelectedProps(lookup, category, intent);
  }

  /** At most one element per category, in category order. */
  lemma {:induction false} QueriedDomainOrder(lookup: Lookup, categories: seq<string>, intent: Dict)
    requires FromCategories(lookup)
    ensures var r := QueriedDomain(lookup, categories, intent);
      r.Ok? ==> |r.value| <= |categories| && IsSubsequence(CategoryList(r.value), categories)
  {
    if categories != [] {
      var init := categories[..|categories| - 1];
      var c := categories[|categories| - 1];
      QueriedDomainOrder(lookup, init, intent);
      QueriedDomainStep(lookup, categories, intent);
      SelectedFrom(lookup, c, intent);
      assert init + [c] == categories;
      OrderStep(QueriedDomain(lookup, categories, intent), QueriedDomain(lookup, init, intent),
                Selected(lookup, c, intent), init, c);
    }
  }

  lemma OrderStep(r: Result<seq<Element>>, prev: Result<seq<Element>>, s: Result<Option<Element>>, init: seq<string>, c: string)
    requires r.Ok? ==> prev.Ok? && s.Ok? && r.value == prev.value + OptionSeq(s.value)
    requires prev.Ok? ==> |prev.value| <= |init| && IsSubsequence(CategoryList(prev.value), init)
    requires s.Ok? && s.value.Some? ==> s.value.value.category == c
    ensures r.Ok? ==> |r.value| <= |init| + 1 && IsSubsequence(CategoryList(r.value), init + [c])
  {
    if r.Ok? {
      CategoryStep(prev.value, s.value, init, c);
    }
  }

  /** Every element kept scored above 20 among its category's candidates. */
  lemma {:induction false} QueriedDomainKept(lookup: Lookup, categories: seq<string>, intent: Dict)
    requires FromCategories(lookup)
    ensures var r := QueriedDomain(lookup, categories, intent);
      r.Ok? ==> forall i :: 0 <= i < |r.value| ==> Kept(lookup, intent, r.value[i])
  {
    if categories != [] {
      var init := categories[..|categories| - 1];
      var c := categories[|categories| - 1];
      QueriedDomainKept(lookup, init, intent);
      var r := QueriedDomain(lookup, categories, intent);
      if r.Ok? {
        var prev := QueriedDomain(lookup, init, intent).value;
        var o := Selected(lookup, c, intent).value;
        assert o.Some? ==> Kept(lookup, intent, o.value) by {
          SelectedProps(lookup, c, intent);
        }
        assert r.value == prev + OptionSeq(o);
      }
    }
  }

  /** One more category adds at most its own element to the category list. */
  lemma CategoryStep(prev: seq<Element>, o: Option<Element>, init: seq<string>, c: string)
    requires IsSubsequence(CategoryList(prev), init) && |prev| <= |init|
    requires o.Some? ==> o.value.category == c
    ensures IsSubsequence(CategoryList(prev + OptionSeq(o)), init + [c])
    ensures |prev + OptionSeq(o)| <= |init| + 1
  {
    assert CategoryList(prev + OptionSeq(o)) == CategoryList(prev) + CategoryList(OptionSeq(o));
    if o.Some? {
      assert CategoryList(OptionSeq(o)) == [c];
      assert IsSubsequence([c], [c]) by {
        assert [c][1..] == [];
      }
    } else {
      assert CategoryList(OptionSeq(o)) == [];
    }
    SubsequenceConcat(CategoryList(prev), init, CategoryList(OptionSeq(o)), [c]);
  }

  /** `query_domain` */
  method QueryDomain(rows: seq<Row>, domain: string, categories: seq<string>, intent: Dict) returns (r: Result<seq<Element>>)
    ensures r == QueriedDomain(CategoryLookup(rows, domain), categories, intent)
  {
    var elements: seq<Element> := [];
    var i := 0;
    while i < |categories|
      invariant 0 <= i <= |categories|
      invariant QueriedDomain(CategoryLookup(rows, domain), categories[..i], intent) == Ok(elements)
    {
      var selected := SelectFromCategory(rows, domain, categories[i], intent);
      QueriedNext(CategoryLookup(rows, domain), categories, i, intent, elements, selected);
      if selected.Err? {
        return Err(selected.error);
      }
      elements := elements + OptionSeq(selected.value);
      i := i + 1;
    }
    assert categories[..i] == categories;
    r := Ok(elements);
  }

  /** An exception in the first categories is the exception of the whole query. */
  lemma {:induction false} QueriedPrefixError(lookup: Lookup, categories: seq<string>, k: nat, intent: Dict)
    requires k <= |categories| && QueriedDomain(lookup, categories[..k], intent).Err?
    ensures QueriedDomain(lookup, categories, intent) == QueriedDomain(lookup, categories[..k], intent)
    decreases |categories|
  {
    if k < |categories| {
      var init := categories[..|categories| - 1];
      assert init[..k] == categories[..k];
      QueriedPrefixError(lookup, init, k, intent);
    } else {
      assert categories[..k] == categories;
    }
  }

  /** The query after one more category, from its result so far and that category's contribution. */
  lemma QueriedNext(lookup: Lookup, categories: seq<string>, i: nat, intent: Dict,
                    elements: seq<Element>, selected: Result<Option<Element>>)
    requires i < |categories|
    requires QueriedDomain(lookup, categories[..i], intent) == Ok(elements)
    requires selected == Selected(lookup, categories[i], intent)
    ensures selected.Ok? ==> QueriedDomain(lookup, categories[..i + 1], intent) == Ok(elements + OptionSeq(selected.value))
    ensures selected.Err? ==> QueriedDomain(lookup, categories, intent) == Err(selected.error)
  {
    QueriedStep(lookup, categories, i, intent);
    if selected.Err? {
      QueriedPrefixError(lookup, categories, i + 1, intent);
    }
  }

  lemma QueriedStep(lookup: Lookup, categories: seq<string>, i: nat, intent: Dict)
    requires i < |categories|
    ensures QueriedDomain(lookup, categories[..i + 1], intent) ==
      match QueriedDomain(lookup, categories[..i], intent)
      case Err(e) => Err(e)
      case Ok(prev) =>
        match Selected(lookup, categories[i], intent)
        case Err(e) => Err(e)
        case Ok(o) => Ok(prev + OptionSeq(o))
  {
    assert categories[..i + 1][..i] == categories[..i];
  }

  /** One pass of the category loop: keywords, candidates, the selector's choice and the threshold. */
  method SelectFromCategory(rows: seq<Row>, domain: string, category: string, intent: Dict) returns (r: Result<Option<Element>>)
    ensures r == Selected(CategoryLookup(rows, domain), category, intent)
  {
    var keywords := ExtractKeywords(intent, category);
    if keywords.Err? {
      return Err(keywords.error);
    }
    var candidates := GetAllElementsByCategory(rows, domain, category, "");
    assert candidates == CategoryLookup(rows, domain)(category);
    if candidates == [] {
      return Ok(None);
    }
    var ks := KeywordStrings(keywords.value);
    if ks.None? {
      return Err("AttributeError");
    }
    var best, score := BestElement(candidates, ks.value);
    if best.Some? && score > 20.0 {
      return Ok(best);
    }
    return Ok(None);
  }

  /** `select_best_element` over element dicts, seen through the scorer's view of them. */
  method BestElement(cands: seq<Element>, ks: seq<string>) returns (best: Option<Element>, bestScore: real)
    ensures (best, bestScore) == Best(cands, Score(ks))
  {
    best, bestScore := None, 0.0;
    var i := 0;
    while i < |cands|
      invariant 0 <= i <= |cands|
      invariant (best, bestScore) == Best(cands[..i], Score(ks))
    {
      assert cands[..i + 1][..i] == cands[..i];
      var score := CalculateMatchScore(CandidateOf(cands[i]), ks);
      if score > bestScore {
        best, bestScore := Some(cands[i]), score;
      }
      i := i + 1;
    }
    assert cands[..i] == cands;
  }

  // ---------------------------------------------------------------------------
  // query_by_intent: variable substitution

  /** What one `sample_element_with_variables` call yields: an exception, or the sampled variables and filled template. */
  datatype SampleOutcome = SampleFailed | Sampled(variables: Dict, result: string)

  /** An element as `query_by_intent` returns it, with the sampled variables when a copy was made. */
  datatype QueriedElement = QueriedElement(element: Element, sampledVariables: Option<Dict>)

  /** The filled template replaces the element's only when sampling succeeded with variables. */
  function Substituted(e: Element, outcome: SampleOutcome): (r: QueriedElement)
    ensures r.sampledVariables.Some? <==> outcome.Sampled? && outcome.variables != map[]
    ensures r.sampledVariables.None? ==> r.element == e
    ensures r.sampledVariables.Some? ==>
      r.element == e.(template := outcome.result) && r.sampledVariables.value == outcome.variables
  {
    if outcome.Sampled? && Truthy(VDict(outcome.variables)) then
      QueriedElement(e.(template := outcome.result), Some(outcome.variables))
    else QueriedElement(e, None)
  }

  function SubstitutedAll(elements: seq<Element>, sample: string -> SampleOutcome): (r: seq<QueriedElement>)
    ensures |r| == |elements|
    ensures forall i :: 0 <= i < |r| ==> r[i] == Substituted(elements[i], sample(elements[i].elementId))
  {
    seq(|elements|, i requires 0 <= i < |elements| => Substituted(elements[i], sample(elements[i].elementId)))
  }

  /** One domain's entry in `query_by_intent`'s result: its query, every element substituted. */
  function DomainResult(rows: seq<Row>, domain: string, intent: Dict, sample: string -> SampleOutcome): Result<seq<QueriedElement>>
  {
    match CategoriesOf(domain)
    case None => Ok([])
    case Some(categories) =>
      match QueriedDomain(CategoryLookup(rows, domain), categories, intent)
      case Err(e) => Err(e)
      case Ok(elements) => Ok(SubstitutedAll(elements, sample))
  }

  /**
   * `query_by_intent`: the required domains in some order, each queried with its plan's
   * categories, then every element substituted with its sampling outcome. `sample`
   * stands for the sampler called with the element id and the intent's visual style.
   */
  method QueryByIntent(rows: seq<Row>, intent: Dict, repr: Value -> string, sample: string -> SampleOutcome)
    returns (r: Result<map<string, seq<QueriedElement>>>)
    ensures RequiredDomains(intent, repr).Err? ==> r == Err(RequiredDomains(intent, repr).error)
    ensures r.Ok? ==> RequiredDomains(intent, repr).Ok? && r.value.Keys == RequiredDomains(intent, repr).value
    ensures r.Ok? ==> forall d :: d in r.value ==> DomainResult(rows, d, intent, sample) == Ok(r.value[d])
    ensures r.Err? && RequiredDomains(intent, repr).Ok? ==>
      exists d :: d in RequiredDomains(intent, repr).value && DomainResult(rows, d, intent, sample).Err?
  {
    var required := AnalyzeRequiredDomains(intent, repr);
    if required.Err? {
      return Err(required.error);
    }
    var domains := ListOf(required.value);
    var plan := QueryPlan(domains);
    QueryPlanProps(domains);
    r := RunPlan(rows, plan, intent, sample);
    PlanCoversRequired(intent, repr, domains);
  }

  /** The plan of a listing of the required domains has exactly those domains as keys. */
  lemma PlanCoversRequired(intent: Dict, repr: Value -> string, domains: seq<string>)
    requires RequiredDomains(intent, repr).Ok?
    requires forall x :: x in domains <==> x in RequiredDomains(intent, repr).value
    ensures forall d :: d in Keys(QueryPlan(domains)) <==> d in RequiredDomains(intent, repr).value
  {
    RequiredDomainsMembers(intent, repr);
    QueryPlanProps(domains);
    forall d | d in RequiredDomains(intent, repr).value
      ensures CategoriesOf(d).Some?
    {
      assert d in {"portrait", "video", "art", "design", "product", "common"};
    }
  }

  /** The plan's domains in order, each queried and substituted, stopping at the first exception. */
  method RunPlan(rows: seq<Row>, plan: Plan, intent: Dict, sample: string -> SampleOutcome)
    returns (r: Result<map<string, seq<QueriedElement>>>)
    requires forall j :: 0 <= j < |plan| ==> Some(plan[j].1) == CategoriesOf(plan[j].0)
    ensures r.Ok? ==> forall d :: d in r.value <==> d in Keys(plan)
    ensures r.Ok? ==> forall d :: d in r.value ==> DomainResult(rows, d, intent, sample) == Ok(r.value[d])
    ensures r.Err? ==> exists d :: d in Keys(plan) && DomainResult(rows, d, intent, sample).Err?
  {
    var result: map<string, seq<QueriedElement>> := map[];
    var i := 0;
    while i < |plan|
      invariant 0 <= i <= |plan|
      invariant forall d :: d in result <==> d in Keys(plan)[..i]
      invariant forall d :: d in result ==> DomainResult(rows, d, intent, sample) == Ok(result[d])
    {
      var (domain, categories) := plan[i];
      assert Keys(plan)[i] == domain;
      assert Keys(plan)[..i + 1] == Keys(plan)[..i] + [domain];
      var entry := QueryAndSample(rows, domain, categories, intent, sample);
      if entry.Err? {
        return Err(entry.error);
      }
      result := result[domain := entry.value];
      i := i + 1;
    }
    assert Keys(plan)[..i] == Keys(plan);
    return Ok(result);
  }

  /** `query_domain` for one planned domain, then the substitution of its elements. */
  method QueryAndSample(rows: seq<Row>, domain: string, categories: seq<string>, intent: Dict, sample: string -> SampleOutcome)
    returns (r: Result<seq<QueriedElement>>)
    requires CategoriesOf(domain) == Some(categories)
    ensures r == DomainResult(rows, domain, intent, sample)
  {
    var elements := QueryDomain(rows, domain, categories, intent);
    if elements.Err? {
      return Err(elements.error);
    }
    var sampled := SubstituteElements(elements.value, sample);
    return Ok(sampled);
  }

  /** The elements in order, each replaced by its substituted form. */
  method SubstituteElements(elements: seq<Element>, sample: string -> SampleOutcome) returns (out: seq<QueriedElement>)
    ensures out == SubstitutedAll(elements, sample)
  {
    out := [];
    var i := 0;
    while i < |elements|
      invariant 0 <= i <= |elements|
      invariant |out| == i
      invariant forall j :: 0 <= j < i ==> out[j] == Substituted(elements[j], sample(elements[j].elementId))
    {
      var outcome := sample(elements[i].elementId);
      var copy := Substituted(elements[i], outcome);
      out := out + [copy];
      i := i + 1;
    }
  }

  // ---------------------------------------------------------------------------
  // Parsed requests

  /**
   * Every request the parser produces needs the portrait, video and common domains (the
   * parser always writes `subject` and `action`), plus art exactly when it found a wax
   * or 3D cue; it never needs design or product.
   */
  lemma ParsedDomains(input: string, repr: Value -> string)
    ensures RequiredDomains(Generator.ParsedIntent(input), repr) ==
      Ok({"portrait", "video", "common"} + (if AnyContained(input, Generator.WaxCues) then {"art"} else {}))
  {
    var d := Generator.ReadingOf(input);
    var intent := Generator.IntentOf(input, d);
    ParsedKeys(input, d);
    ParsedAbsentKeys(input, d);
    assert d.visual == Generator.VisualStyle(input);
    ParsedArtText(input, d, repr);
    ParsedArt(input);
    DomainsOfParsedShape(intent, repr, AnyContained(input, Generator.WaxCues));
  }

  /** The domains of any request with the keys a parsed one has. */
  lemma DomainsOfParsedShape(intent: Dict, repr: Value -> string, art: bool)
    requires "subject" in intent && AnyKey(intent, VideoKeys) && RawLower(intent).Ok? && HasArtKey(intent)
    requires "product" !in intent && !AnyKey(intent, DesignKeys)
    requires ArtText(intent, repr).Ok? && AnyContained(ArtText(intent, repr).value, ArtKeywords) == art
    ensures RequiredDomains(intent, repr) == Ok({"portrait", "video", "common"} + (if art then {"art"} else {}))
  {
    RequiredDomainsMembers(intent, repr);
    var r := RequiredDomains(intent, repr).value;
    var expected := {"portrait", "video", "common"} + (if art then {"art"} else {});
    assert forall x :: x in r <==> x in expected;
    assert r == expected;
  }

  /** The keys `parse_user_input` always writes. */
  lemma ParsedKeys(input: string, d: Generator.Reading)
    ensures var intent := Generator.IntentOf(input, d);
      "subject" in intent && AnyKey(intent, VideoKeys) && RawLower(intent) == Ok(Lower(input)) && HasArtKey(intent)
  {
    var intent := Generator.IntentOf(input, d);
    assert VideoKeys[0] == "action";
    ParsedRaw(input, d);
  }

  lemma ParsedRaw(input: string, d: Generator.Reading)
    ensures Get(Generator.IntentOf(input, d), "raw_input", VStr("")) == VStr(input)
  {
  }

  /** The keys `parse_user_input` never writes. */
  lemma ParsedAbsentKeys(input: string, d: Generator.Reading)
    ensures var intent := Generator.IntentOf(input, d);
      "product" !in intent && !AnyKey(intent, DesignKeys)
  {
    ParsedNoProduct(input, d);
    ParsedNoDesignKey(input, d);
  }

  lemma ParsedNoProduct(input: string, d: Generator.Reading)
    ensures "product" !in Generator.IntentOf(input, d)
  {
  }

  lemma ParsedNoDesignKey(input: string, d: Generator.Reading)
    ensures !AnyKey(Generator.IntentOf(input, d), DesignKeys)
  {
    forall k | 0 <= k < |DesignKeys|
      ensures DesignKeys[k] !in Generator.IntentOf(input, d)
    {
      ParsedNoKey(input, d, DesignKeys[k]);
    }
  }

  lemma ParsedNoKey(input: string, d: Generator.Reading, key: string)
    requires key in DesignKeys
    ensures key !in Generator.IntentOf(input, d)
  {
  }

  /** The art text of a parsed request is its lowercased art style, or '' without one. */
  lemma ParsedArtText(input: string, d: Generator.Reading, repr: Value -> string)
    requires d.visual == Generator.VisualStyle(input)
    ensures ArtText(Generator.IntentOf(input, d), repr) ==
      Ok(if AnyContained(input, Generator.WaxCues) then Lower("wax_figure_3d")
         else if AnyContained(input, Generator.AnimeCues) then Lower("anime") else "")
  {
    Generator.IntentVisual(input, d);
  }

  /** That art text holds an art keyword exactly for a wax or 3D cue. */
  lemma ParsedArt(input: string)
    ensures AnyContained(if AnyContained(input, Generator.WaxCues) then Lower("wax_figure_3d")
                         else if AnyContained(input, Generator.AnimeCues) then Lower("anime") else "", ArtKeywords)
            == AnyContained(input, Generator.WaxCues)
  {
    LowerStyles();
    if AnyContained(input, Generator.WaxCues) {
      WaxStyleIsArt();
    } else if AnyContained(input, Generator.AnimeCues) {
      NoArtKeyword("anime");
    } else {
      NoArtKeyword("");
    }
  }

  lemma WaxStyleIsArt()
    ensures AnyContained("wax_figure_3d", ArtKeywords)
  {
    assert OccursAt("wax_figure_3d", ArtKeywords[1], 0);
    OccursContains("wax_figure_3d", ArtKeywords[1], 0);
  }

  /** The parser's art styles are already lowercase. */
  lemma LowerStyles()
    ensures Lower("wax_figure_3d") == "wax_figure_3d"
    ensures Lower("anime") == "anime"
  {
    var wax := "wax_figure_3d";
    assert forall i :: 0 <= i < |wax| ==> LowerChar(wax[i]) == wax[i];
    var anime := "anime";
    assert forall i :: 0 <= i < |anime| ==> LowerChar(anime[i]) == anime[i];
  }

  /** Neither "anime" nor the empty default contains an art keyword. */
  lemma NoArtKeyword(art: string)
    requires art == "anime" || art == ""
    ensures !AnyContained(art, ArtKeywords)
  {
    forall k | 0 <= k < |ArtKeywords|
      ensures !Contains(art, ArtKeywords[k])
    {
      var cue := ArtKeywords[k];
      ContainsIff(art, cue);
      forall i | 0 <= i && i + |cue| <= |art|
        ensures !OccursAt(art, cue, i)
      {
        assert art[i..i + |cue|][0] == art[i];
      }
    }
  }
}
