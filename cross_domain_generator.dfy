/**
 * `CrossDomainGenerator`: parses a request into an intent dict, classifies it,
 * routes it to one of four generators, and on the cross-domain path merges the
 * per-domain elements, tops them up from the portrait selection and puts the
 * English scene description in front of the composed prompt.
 *
 * The software task, language, framework and gender cues are matched on the
 * lower-cased request; all other cues on the request exactly as typed.
 */
module CrossDomainGenerator {
  import opened Wrappers
  import opened Text
  import opened Seqs
  import opened PyValue

  // ---------------------------------------------------------------------------
  // parse_user_input: the field-by-field description

  const TestCues: seq<string> := ["test", "测试", "bug", "qa"]
  const DeployCues: seq<string> := ["deploy", "部署", "docker", "pipeline", "ci/cd"]
  const ArchitectureCues: seq<string> := ["architect", "架构", "c4", "system design", "系统设计"]
  const DatabaseCues: seq<string> := ["database", "db", "schema", "sql", "数据库", "表结构"]
  const DocsCues: seq<string> := ["readme", "doc", "文档", "documentation"]
  const SecurityCues: seq<string> := ["security", "audit", "vuln", "安全", "漏洞"]
  const CodeCues: seq<string> := ["code", "代码", "script", "脚本", "implement", "实现"]

  const FemaleCues: seq<string> := ["女", "woman", "female", "女性", "少女"]
  const MaleCues: seq<string> := ["男", "man", "male", "男性", "悟空", "goku"]
  const EthnicityCues: seq<string> := ["东亚", "East_Asian", "中国", "日本", "韩国"]
  const YoungCues: seq<string> := ["年轻", "young", "少女"]
  const ChildCues: seq<string> := ["儿童", "child", "孩子"]
  const ActionCues: seq<string> := ["龟派气功", "kamehameha", "能量波"]
  const WaxCues: seq<string> := ["3d", "3D", "蜡像", "wax"]
  const AnimeCues: seq<string> := ["动漫", "anime"]
  const CuteCues: seq<string> := ["温馨可爱", "可爱", "cute", "warm"]
  const MinimalCues: seq<string> := ["现代简约", "简约", "minimal", "modern"]
  const DesignRequirementCues: seq<string> := ["海报", "poster", "卡片", "card"]
  const CinematicCues: seq<string> := ["电影", "cinematic", "电影级"]

  /** The software tasks the parser can recognise. */
  const SoftwareTasks: set<string> := {
    "unit_test", "api_test", "docker_file", "ci_pipeline", "architecture_design",
    "db_schema_design", "readme_generation", "security_audit", "code_generation"}

  /** The software task: the first cue group that matches, in the order test, deploy, architecture, database, docs, security, code. */
  function SoftwareTask(lower: string): (r: Option<string>)
    ensures r.Some? ==> r.value in SoftwareTasks
  {
    if AnyContained(lower, TestCues) then Some(if Contains(lower, "unit") || Contains(lower, "单元") then "unit_test" else "api_test")
    else if AnyContained(lower, DeployCues) then Some(if Contains(lower, "docker") then "docker_file" else "ci_pipeline")
    else if AnyContained(lower, ArchitectureCues) then Some("architecture_design")
    else if AnyContained(lower, DatabaseCues) then Some("db_schema_design")
    else if AnyContained(lower, DocsCues) then Some("readme_generation")
    else if AnyContained(lower, SecurityCues) then Some("security_audit")
    else if AnyContained(lower, CodeCues) then Some("code_generation")
    else None
  }

  /**
   * The language the four independent `if`s leave behind, read from the last
   * one backwards: the last of Python, JavaScript, Java, Go whose cue matches.
   */
  function Language(lower: string): Option<string>
  {
    if Contains(lower, "go") || Contains(lower, "golang") then Some("Go")
    else if Contains(lower, "java") then Some("Java")
    else if Contains(lower, "javascript") || Contains(lower, "js") then Some("JavaScript")
    else if Contains(lower, "python") then Some("Python")
    else None
  }

  /** Likewise the framework: the last of React, Vue, pytest, Jest whose cue matches. */
  function Framework(lower: string): Option<string>
  {
    if Contains(lower, "jest") then Some("Jest")
    else if Contains(lower, "pytest") then Some("pytest")
    else if Contains(lower, "vue") then Some("Vue")
    else if Contains(lower, "react") then Some("React")
    else None
  }

  function Gender(lower: string): Option<string>
  {
    if AnyContained(lower, FemaleCues) then Some("female")
    else if AnyContained(lower, MaleCues) then Some("male")
    else None
  }

  function AgeRange(input: string): Option<string>
  {
    if AnyContained(input, YoungCues) then Some("young_adult")
    else if AnyContained(input, ChildCues) then Some("child")
    else None
  }

  function ArtStyle(input: string): Option<string>
  {
    if AnyContained(input, WaxCues) then Some("wax_figure_3d")
    else if AnyContained(input, AnimeCues) then Some("anime")
    else None
  }

  function DesignStyle(input: string): (r: Option<string>)
    ensures r.Some? ==> r.value in {"温馨可爱", "现代简约"}
  {
    if AnyContained(input, CuteCues) then Some("温馨可爱")
    else if AnyContained(input, MinimalCues) then Some("现代简约")
    else None
  }

  /** Starts as 'natural'; the 'natural' cues only set it to what it already is. */
  function Lighting(input: string): string
  {
    if AnyContained(input, CinematicCues) then "cinematic" else "natural"
  }

  /** `d[key] = value` when there is a value to set. */
  function SetIf(d: Dict, key: string, o: Option<string>): Dict
  {
    if o.Some? then d[key := VStr(o.value)] else d
  }

  function Subject(input: string): Dict
  {
    var withGender := SetIf(map[], "gender", Gender(Lower(input)));
    var withEthnicity := SetIf(withGender, "ethnicity", if AnyContained(input, EthnicityCues) then Some("East_Asian") else None);
    SetIf(withEthnicity, "age_range", AgeRange(input))
  }

  function VisualStyle(input: string): Dict
  {
    SetIf(map[], "art_style", ArtStyle(input))
  }

  /** The intent every parse starts from. */
  const InitialIntent: Dict := map[
    "subject" := VDict(map[]),
    "action" := VNone,
    "visual_style" := VDict(map[]),
    "atmosphere" := VDict(map[]),
    "design_style" := VNone,
    "lighting" := VStr("natural"),
    "software_task" := VNone]

  /** The decisions `parse_user_input` takes, one per field. */
  datatype Reading = Reading(
    task: Option<string>, language: Option<string>, framework: Option<string>, subject: Dict,
    kamehameha: bool, visual: Dict, designStyle: Option<string>, requirement: bool, lighting: string)

  function ReadingOf(input: string): Reading
  {
    var lower := Lower(input);
    Reading(SoftwareTask(lower), Language(lower), Framework(lower), Subject(input), AnyContained(input, ActionCues),
      VisualStyle(input), DesignStyle(input), AnyContained(input, DesignRequirementCues), Lighting(input))
  }

  /** The intent those decisions produce, the fields written in the order the source writes them. */
  function IntentOf(input: string, d: Reading): Dict
  {
    var start := InitialIntent["raw_input" := VStr(input)];
    var withTask := SetIf(start, "software_task", d.task);
    var withLanguage := SetIf(withTask, "language", d.language);
    var withFramework := SetIf(withLanguage, "framework", d.framework);
    var withSubject := withFramework["subject" := VDict(d.subject)];
    var withAction := if d.kamehameha then withSubject["action" := VStr("kamehameha")]["energy" := VStr("blue_energy_blast")] else withSubject;
    var withVisual := withAction["visual_style" := VDict(d.visual)];
    var withDesign := SetIf(withVisual, "design_style", d.designStyle);
    var withRequirement := if d.requirement then withDesign["design_requirement" := VBool(true)] else withDesign;
    withRequirement["lighting" := VStr(d.lighting)]
  }

  /** The intent `parse_user_input` returns. */
  function ParsedIntent(input: string): Dict
  {
    IntentOf(input, ReadingOf(input))
  }

  // ---------------------------------------------------------------------------
  // parse_user_input: the statements in source order

  /** `any(kw in text for kw in cues)` */
  method AnyCue(text: string, cues: seq<string>) returns (found: bool)
    ensures found == AnyContained(text, cues)
  {
    var i := 0;
    while i < |cues|
      invariant 0 <= i <= |cues|
      invariant forall k :: 0 <= k < i ==> !Contains(text, cues[k])
    {
      if Contains(text, cues[i]) {
        return true;
      }
      i := i + 1;
    }
    return false;
  }

  /**
   * `parse_user_input`. The `subject` and `visual_style` dicts the source updates
   * through `intent[...]` are the locals `subject` and `visual`, stored back in
   * the intent once they are complete.
   */
  method ParseUserInput(input: string) returns (intent: Dict)
    ensures intent == ParsedIntent(input)
  {
    intent := InitialIntent["raw_input" := VStr(input)];
    var lower := Lower(input);
    var task := SoftwareTaskOf(lower);
    if task.Some? {
      intent := intent["software_task" := VStr(task.value)];
    }
    var language := LanguageOf(lower);
    intent := SetIf(intent, "language", language);
    var framework := FrameworkOf(lower);
    intent := SetIf(intent, "framework", framework);

    var subject := SubjectOf(input, lower);
    intent := intent["subject" := VDict(subject)];
    var kamehameha := AnyCue(input, ActionCues);
    if kamehameha {
      intent := intent["action" := VStr("kamehameha")];
      intent := intent["energy" := VStr("blue_energy_blast")];
    }
    var visual := VisualStyleOf(input);
    intent := intent["visual_style" := VDict(visual)];
    var style := DesignStyleOf(input);
    if style.Some? {
      intent := intent["design_style" := VStr(style.value)];
    }
    var requirement := AnyCue(input, DesignRequirementCues);
    if requirement {
      intent := intent["design_requirement" := VBool(true)];
    }
    var lighting := LightingOf(input);
    intent := intent["lighting" := VStr(lighting)];
  }

  /** Gender, ethnicity and age, as the source stores them into `intent['subject']`. */
  method SubjectOf(input: string, lower: string) returns (subject: Dict)
    requires lower == Lower(input)
    ensures subject == Subject(input)
  {
    subject := map[];
    var hit := AnyCue(lower, FemaleCues);
    var other := AnyCue(lower, MaleCues);
    if hit {
      subject := subject["gender" := VStr("female")];
    } else if other {
      subject := subject["gender" := VStr("male")];
    }
    hit := AnyCue(input, EthnicityCues);
    if hit {
      subject := subject["ethnicity" := VStr("East_Asian")];
    }
    hit := AnyCue(input, YoungCues);
    other := AnyCue(input, ChildCues);
    if hit {
      subject := subject["age_range" := VStr("young_adult")];
    } else if other {
      subject := subject["age_range" := VStr("child")];
    }
  }

  /** The art style, as the source stores it into `intent['visual_style']`. */
  method VisualStyleOf(input: string) returns (visual: Dict)
    ensures visual == VisualStyle(input)
  {
    visual := map[];
    var wax := AnyCue(input, WaxCues);
    var anime := AnyCue(input, AnimeCues);
    if wax {
      visual := visual["art_style" := VStr("wax_figure_3d")];
    } else if anime {
      visual := visual["art_style" := VStr("anime")];
    }
  }

  method DesignStyleOf(input: string) returns (style: Option<string>)
    ensures style == DesignStyle(input)
  {
    var cute := AnyCue(input, CuteCues);
    var minimal := AnyCue(input, MinimalCues);
    if cute {
      style := Some("温馨可爱");
    } else if minimal {
      style := Some("现代简约");
    } else {
      style := None;
    }
  }

  /** The lighting starts as 'natural' and is overwritten by the cinematic or the natural cues. */
  method LightingOf(input: string) returns (lighting: string)
    ensures lighting == Lighting(input)
  {
    lighting := "natural";
    var cinematic := AnyCue(input, CinematicCues);
    var natural := AnyCue(input, ["自然", "natural"]);
    if cinematic {
      lighting := "cinematic";
    } else if natural {
      lighting := "natural";
    }
  }

  /** The software-task `if`/`elif` chain. */
  method SoftwareTaskOf(lower: string) returns (task: Option<string>)
    ensures task == SoftwareTask(lower)
  {
    var hit := AnyCue(lower, TestCues);
    if hit {
      return Some(if Contains(lower, "unit") || Contains(lower, "单元") then "unit_test" else "api_test");
    }
    hit := AnyCue(lower, DeployCues);
    if hit {
      return Some(if Contains(lower, "docker") then "docker_file" else "ci_pipeline");
    }
    hit := AnyCue(lower, ArchitectureCues);
    if hit {
      return Some("architecture_design");
    }
    hit := AnyCue(lower, DatabaseCues);
    if hit {
      return Some("db_schema_design");
    }
    hit := AnyCue(lower, DocsCues);
    if hit {
      return Some("readme_generation");
    }
    hit := AnyCue(lower, SecurityCues);
    if hit {
      return Some("security_audit");
    }
    hit := AnyCue(lower, CodeCues);
    if hit {
      return Some("code_generation");
    }
    return None;
  }

  /** The four independent language `if`s, each later match overwriting the earlier. */
  method LanguageOf(lower: string) returns (language: Option<string>)
    ensures language == Language(lower)
  {
    language := None;
    if Contains(lower, "python") { language := Some("Python"); }
    if Contains(lower, "javascript") || Contains(lower, "js") { language := Some("JavaScript"); }
    if Contains(lower, "java") { language := Some("Java"); }
    if Contains(lower, "go") || Contains(lower, "golang") { language := Some("Go"); }
  }

  /** The four independent framework `if`s, each later match overwriting the earlier. */
  method FrameworkOf(lower: string) returns (framework: Option<string>)
    ensures framework == Framework(lower)
  {
    framework := None;
    if Contains(lower, "react") { framework := Some("React"); }
    if Contains(lower, "vue") { framework := Some("Vue"); }
    if Contains(lower, "pytest") { framework := Some("pytest"); }
    if Contains(lower, "jest") { framework := Some("Jest"); }
  }

  /** Every request that mentions JavaScript (and not "go") is read as Java, because "java" is part of "javascript". */
  lemma JavaScriptReadsAsJava(lower: string)
    requires Contains(lower, "javascript") && !Contains(lower, "go")
    ensures Language(lower) == Some("Java")
  {
    assert OccursAt("javascript", "java", 0);
    OccursContains("javascript", "java", 0);
    ContainsTrans(lower, "javascript", "java");
    if Contains(lower, "golang") {
      assert OccursAt("golang", "go", 0);
      OccursContains("golang", "go", 0);
      ContainsTrans(lower, "golang", "go");
    }
  }

  /** "woman" contains "man", yet the female cues are tried first. */
  lemma WomanIsFemale(lower: string)
    requires Contains(lower, "woman")
    ensures Gender(lower) == Some("female")
  {
    assert Contains(lower, FemaleCues[1]);
  }

  // ---------------------------------------------------------------------------
  // classify_generation_type and the routing in generate

  datatype GenerationType = Portrait | Design | CrossDomain | Software

  const SpecialArtCues: seq<string> := ["3d", "wax", "holographic"]

  /** `any(kw in v for kw in keys)` with Python's `in`, which raises a TypeError on a value that is not a container. */
  function AnyIn(keys: seq<string>, v: Value): (r: Result<bool>)
    ensures r.Err? <==> keys != [] && !(v.VDict? || v.VStr? || v.VList?)
    ensures v.VStr? ==> r == Ok(AnyContained(v.s, keys))
  {
    if keys == [] then Ok(false)
    else
      match PyIn(keys[0], v)
      case Err(e) => Err(e)
      case Ok(found) => if found then Ok(true) else AnyIn(keys[1..], v)
  }

  /**
   * `classify_generation_type`. A `visual_style` that is not a dict has no `.get`
   * (AttributeError), an `art_style` that is not a container fails the `in`
   * test (TypeError); both are checked even when an action was already found.
   */
  function Classify(intent: Dict): (r: Result<GenerationType>)
    ensures var visual := Get(intent, "visual_style", VDict(map[]));
      var art := if visual.VDict? then Get(visual.entries, "art_style", VStr("")) else VNone;
      r.Err? <==>
        !Truthy(Get(intent, "software_task", VNone)) &&
        !Truthy(Get(intent, "design_style", VNone)) && !Truthy(Get(intent, "design_requirement", VNone)) &&
        !(art.VDict? || art.VStr? || art.VList?)
  {
    if Truthy(Get(intent, "software_task", VNone)) then Ok(Software)
    else if Truthy(Get(intent, "design_style", VNone)) || Truthy(Get(intent, "design_requirement", VNone)) then Ok(Design)
    else
      var visual := Get(intent, "visual_style", VDict(map[]));
      if !visual.VDict? then Err("AttributeError")
      else
        var special := AnyIn(SpecialArtCues, Get(visual.entries, "art_style", VStr("")));
        if special.Err? then Err(special.error)
        else if Truthy(Get(intent, "action", VNone)) || Truthy(Get(intent, "energy", VNone)) || special.value then Ok(CrossDomain)
        else if Truthy(Get(intent, "subject", VNone)) then Ok(Portrait)
        else Ok(CrossDomain)
  }

  /** How an intent built by the parser is classified, in terms of the decisions behind it. */
  lemma ClassifyIntentOf(input: string, d: Reading, wax: bool)
    requires d.task.Some? ==> d.task.value != ""
    requires d.designStyle.Some? ==> d.designStyle.value != ""
    requires AnyIn(SpecialArtCues, Get(d.visual, "art_style", VStr(""))) == Ok(wax)
    ensures Classify(IntentOf(input, d)) == Ok(
      if d.task.Some? then Software
      else if d.designStyle.Some? || d.requirement then Design
      else if d.kamehameha || wax then CrossDomain
      else if d.subject != map[] then Portrait
      else CrossDomain)
  {
    IntentTask(input, d);
    IntentDesignStyle(input, d);
    IntentRequirement(input, d);
    IntentAction(input, d);
    IntentEnergy(input, d);
    IntentVisual(input, d);
    IntentSubject(input, d);
    assert d.subject != map[] <==> |d.subject| > 0;
  }

  lemma IntentTask(input: string, d: Reading)
    ensures Get(IntentOf(input, d), "software_task", VNone) == if d.task.Some? then VStr(d.task.value) else VNone
  {
  }

  lemma IntentDesignStyle(input: string, d: Reading)
    ensures Get(IntentOf(input, d), "design_style", VNone) == if d.designStyle.Some? then VStr(d.designStyle.value) else VNone
  {
  }

  lemma IntentRequirement(input: string, d: Reading)
    ensures Get(IntentOf(input, d), "design_requirement", VNone) == if d.requirement then VBool(true) else VNone
  {
  }

  lemma IntentAction(input: string, d: Reading)
    ensures Get(IntentOf(input, d), "action", VNone) == if d.kamehameha then VStr("kamehameha") else VNone
  {
  }

  lemma IntentEnergy(input: string, d: Reading)
    ensures Get(IntentOf(input, d), "energy", VNone) == if d.kamehameha then VStr("blue_energy_blast") else VNone
  {
  }

  lemma IntentVisual(input: string, d: Reading)
    ensures Get(IntentOf(input, d), "visual_style", VDict(map[])) == VDict(d.visual)
  {
  }

  lemma IntentSubject(input: string, d: Reading)
    ensures Get(IntentOf(input, d), "subject", VNone) == VDict(d.subject)
  {
  }

  /** The classification of a parsed request, in terms of the cues it contains; it never fails. */
  lemma ClassifyParsed(input: string)
    ensures Classify(ParsedIntent(input)) == Ok(
      if SoftwareTask(Lower(input)).Some? then Software
      else if DesignStyle(input).Some? || AnyContained(input, DesignRequirementCues) then Design
      else if AnyContained(input, ActionCues) || AnyContained(input, WaxCues) then CrossDomain
      else if Subject(input) != map[] then Portrait
      else CrossDomain)
  {
    var d := ReadingOf(input);
    NamesNonEmpty(d.task, SoftwareTasks);
    NamesNonEmpty(d.designStyle, {"温馨可爱", "现代简约"});
    VisualSpecial(input);
    ClassifyIntentOf(input, d, AnyContained(input, WaxCues));
  }

  lemma NamesNonEmpty(name: Option<string>, names: set<string>)
    requires name.Some? ==> name.value in names
    requires "" !in names
    ensures name.Some? ==> name.value != ""
  {
  }

  /** Only the wax / 3D art style counts as special; "anime" does not. */
  lemma VisualSpecial(input: string)
    ensures AnyIn(SpecialArtCues, Get(VisualStyle(input), "art_style", VStr(""))) == Ok(AnyContained(input, WaxCues))
  {
    var art := Get(VisualStyle(input), "art_style", VStr(""));
    if AnyContained(input, WaxCues) {
      assert art == VStr("wax_figure_3d");
      assert OccursAt("wax_figure_3d", SpecialArtCues[1], 0);
      OccursContains("wax_figure_3d", SpecialArtCues[1], 0);
    } else {
      assert art == VStr("anime") || art == VStr("");
      NotSpecial(art.s);
    }
  }

  /** Neither "anime" nor the empty default contains one of the special art cues. */
  lemma NotSpecial(art: string)
    requires art == "anime" || art == ""
    ensures !AnyContained(art, SpecialArtCues)
  {
    forall k | 0 <= k < |SpecialArtCues|
      ensures !Contains(art, SpecialArtCues[k])
    {
      var cue := SpecialArtCues[k];
      ContainsIff(art, cue);
      forall i | 0 <= i && i + |cue| <= |art|
        ensures !OccursAt(art, cue, i)
      {
        assert art[i..i + |cue|][0] == art[i];
      }
    }
  }

  function TypeName(t: GenerationType): string
  {
    match t
    case Portrait => "portrait"
    case Design => "design"
    case CrossDomain => "cross_domain"
    case Software => "software"
  }

  /**
   * The generator `generate` hands the intent to: the classified one for 'auto',
   * else the one named, and a ValueError for any other name.
   */
  function Route(intent: Dict, generationType: string): (r: Result<GenerationType>)
    ensures generationType != "auto" && r.Ok? ==> TypeName(r.value) == generationType
  {
    if generationType == "auto" then Classify(intent)
    else if generationType == "portrait" then Ok(Portrait)
    else if generationType == "design" then Ok(Design)
    else if generationType == "cross_domain" then Ok(CrossDomain)
    else if generationType == "software" then Ok(Software)
    else Err("ValueError")
  }

  /** Naming a generator routes to it; a name that is no generator's and not 'auto' is a ValueError. */
  lemma RouteByName(intent: Dict, generationType: string)
    requires generationType != "auto"
    ensures (exists t :: TypeName(t) == generationType) ==> Route(intent, generationType).Ok?
    ensures (forall t :: TypeName(t) != generationType) ==> Route(intent, generationType) == Err("ValueError")
  {
  }

  /** With 'auto', every request reaches a generator, the one its cues select. */
  lemma RouteParsed(input: string)
    ensures Route(ParsedIntent(input), "auto") == Classify(ParsedIntent(input))
    ensures Route(ParsedIntent(input), "auto").Ok?
  {
    ClassifyParsed(input);
  }

  // ---------------------------------------------------------------------------
  // generate_cross_domain: merging, topping up, the scene description

  /** An element after the merge step: template and category filled in where missing, its domain recorded. */
  function Normalized(e: Dict, domain: string): (r: Dict)
    ensures r.Keys == e.Keys + {"template", "category", "source_domain"}
    ensures r["source_domain"] == VStr(domain)
    ensures "template" in e ==> r["template"] == e["template"]
    ensures "template" !in e ==> r["template"] == Get(e, "ai_prompt_template", VStr(""))
    ensures "category" in e ==> r["category"] == e["category"]
    ensures "category" !in e ==> r["category"] == Get(e, "category_id", VStr("unknown"))
    ensures forall k :: k in e && k !in {"template", "category", "source_domain"} ==> r[k] == e[k]
  {
    var withTemplate := if "template" in e then e else e["template" := Get(e, "ai_prompt_template", VStr(""))];
    var withCategory := if "category" in withTemplate then withTemplate else withTemplate["category" := Get(withTemplate, "category_id", VStr("unknown"))];
    withCategory["source_domain" := VStr(domain)]
  }

  function NormalizedAll(elements: seq<Dict>, domain: string): (r: seq<Dict>)
    ensures |r| == |elements|
    ensures forall i :: 0 <= i < |r| ==> r[i] == Normalized(elements[i], domain)
  {
    if elements == [] then [] else [Normalized(elements[0], domain)] + NormalizedAll(elements[1..], domain)
  }

  /** Every domain's elements, in domain order, as the merge step leaves them. */
  function Merged(byDomain: seq<(string, seq<Dict>)>): seq<Dict>
  {
    if byDomain == [] then [] else NormalizedAll(byDomain[0].1, byDomain[0].0) + Merged(byDomain[1..])
  }

  function ElementTotal(byDomain: seq<(string, seq<Dict>)>): nat
  {
    if byDomain == [] then 0 else |byDomain[0].1| + ElementTotal(byDomain[1..])
  }

  function DomainNames(byDomain: seq<(string, seq<Dict>)>): (r: seq<string>)
    ensures |r| == |byDomain|
    ensures forall k :: 0 <= k < |r| ==> r[k] == byDomain[k].0
  {
    if byDomain == [] then [] else [byDomain[0].0] + DomainNames(byDomain[1..])
  }

  /** A merged element: it has a template and a category and names one of the domains as its source. */
  predicate MergedShape(e: Dict, domains: seq<string>)
  {
    "template" in e && "category" in e && "source_domain" in e &&
    e["source_domain"].VStr? && e["source_domain"].s in domains
  }

  /** The merge keeps every element, and each one carries a template, a category and the domain it came from. */
  lemma {:induction false} MergedProps(byDomain: seq<(string, seq<Dict>)>)
    ensures |Merged(byDomain)| == ElementTotal(byDomain)
    ensures forall e :: e in Merged(byDomain) ==> MergedShape(e, DomainNames(byDomain))
  {
    if byDomain != [] {
      MergedProps(byDomain[1..]);
      var head := NormalizedAll(byDomain[0].1, byDomain[0].0);
      forall e | e in Merged(byDomain)
        ensures MergedShape(e, DomainNames(byDomain))
      {
        if e in head {
          var i :| 0 <= i < |head| && head[i] == e;
          assert e == Normalized(byDomain[0].1[i], byDomain[0].0);
        } else {
          assert e in Merged(byDomain[1..]);
          assert DomainNames(byDomain) == [byDomain[0].0] + DomainNames(byDomain[1..]);
        }
      }
    }
  }

  /** The merge loop of `generate_cross_domain`. */
  method MergeElements(byDomain: seq<(string, seq<Dict>)>) returns (all: seq<Dict>)
    ensures all == Merged(byDomain)
  {
    all := [];
    var i := 0;
    while i < |byDomain|
      invariant 0 <= i <= |byDomain|
      invariant all + Merged(byDomain[i..]) == Merged(byDomain)
    {
      var normalized := NormalizeElements(byDomain[i].1, byDomain[i].0);
      MergedStep(byDomain, i);
      AppendStep(all, normalized, Merged(byDomain[i..]), Merged(byDomain[i + 1..]), Merged(byDomain));
      all := all + normalized;
      i := i + 1;
    }
    assert byDomain[i..] == [];
    assert all + [] == all;
  }

  /** Moving one block from the pending rest onto the result keeps their concatenation. */
  lemma AppendStep<T>(all: seq<T>, block: seq<T>, rest: seq<T>, later: seq<T>, whole: seq<T>)
    requires rest == block + later && all + rest == whole
    ensures (all + block) + later == whole
  {
    assert all + (block + later) == (all + block) + later;
  }

  lemma MergedStep(byDomain: seq<(string, seq<Dict>)>, i: nat)
    requires i < |byDomain|
    ensures Merged(byDomain[i..]) == NormalizedAll(byDomain[i].1, byDomain[i].0) + Merged(byDomain[i + 1..])
  {
    assert byDomain[i..][1..] == byDomain[i + 1..];
  }

  /** The inner loop of the merge: one domain's elements, in order. */
  method NormalizeElements(elements: seq<Dict>, domain: string) returns (out: seq<Dict>)
    ensures out == NormalizedAll(elements, domain)
  {
    out := [];
    var j := 0;
    while j < |elements|
      invariant 0 <= j <= |elements|
      invariant |out| == j
      invariant forall k :: 0 <= k < j ==> out[k] == Normalized(elements[k], domain)
    {
      var elem := elements[j];
      if "template" !in elem {
        elem := elem["template" := Get(elem, "ai_prompt_template", VStr(""))];
      }
      if "category" !in elem {
        elem := elem["category" := Get(elem, "category_id", VStr("unknown"))];
      }
      elem := elem["source_domain" := VStr(domain)];
      out := out + [elem];
      j := j + 1;
    }
  }

  /** `{e.get('element_id') for e in elements}` */
  function Ids(elements: seq<Dict>): set<Value>
  {
    set e | e in elements :: Get(e, "element_id", VNone)
  }

  /** The extra elements whose id is not among `existing`, each marked as a portrait supplement. */
  function Additions(extra: seq<Dict>, existing: set<Value>): seq<Dict>
  {
    if extra == [] then []
    else
      var rest := Additions(extra[1..], existing);
      if Get(extra[0], "element_id", VNone) in existing then rest
      else [extra[0]["source_domain" := VStr("portrait_supplement")]] + rest
  }

  /**
   * Fewer than five merged elements are topped up from the portrait selection.
   * The ids to avoid are taken once, before the loop, so an id repeated in
   * `extra` is added every time it occurs.
   */
  function Supplemented(all: seq<Dict>, extra: seq<Dict>): seq<Dict>
  {
    if |all| < 5 then all + Additions(extra, Ids(all)) else all
  }

  /** What the top-up adds: only elements whose id is new, marked as a supplement, at most one per extra element. */
  lemma {:induction false} AdditionsProps(extra: seq<Dict>, existing: set<Value>)
    ensures |Additions(extra, existing)| <= |extra|
    ensures forall e: Dict :: e in Additions(extra, existing) ==>
      Get(e, "element_id", VNone) !in existing && "source_domain" in e && e["source_domain"] == VStr("portrait_supplement")
    ensures IsSubsequence(Additions(extra, existing), Marked(extra))
  {
    if extra != [] {
      AdditionsProps(extra[1..], existing);
      var rest := Additions(extra[1..], existing);
      var marked := Marked(extra);
      assert marked == [Mark(extra[0])] + Marked(extra[1..]);
      if Get(extra[0], "element_id", VNone) in existing {
        SubsequenceExtend(rest, Marked(extra[1..]), Mark(extra[0]));
      } else {
        assert ([Mark(extra[0])] + rest)[1..] == rest;
        assert marked[1..] == Marked(extra[1..]);
      }
    }
  }

  function Mark(e: Dict): Dict
  {
    e["source_domain" := VStr("portrait_supplement")]
  }

  function Marked(extra: seq<Dict>): (r: seq<Dict>)
    ensures |r| == |extra|
  {
    if extra == [] then [] else [Mark(extra[0])] + Marked(extra[1..])
  }

  /** Enough merged elements are left alone; otherwise they stay in front of the additions. */
  lemma SupplementedProps(all: seq<Dict>, extra: seq<Dict>)
    ensures |all| >= 5 ==> Supplemented(all, extra) == all
    ensures all <= Supplemented(all, extra)
    ensures forall e: Dict :: e in Supplemented(all, extra)[|all|..] ==>
      Get(e, "element_id", VNone) !in Ids(all) && "source_domain" in e && e["source_domain"] == VStr("portrait_supplement")
  {
    AdditionsProps(extra, Ids(all));
    if |all| < 5 {
      assert Supplemented(all, extra)[|all|..] == Additions(extra, Ids(all));
    }
  }

  /** An element whose new id comes twice in the portrait selection is added twice. */
  lemma RepeatedExtraAddedTwice(all: seq<Dict>, x: Dict)
    requires |all| < 5 && Get(x, "element_id", VNone) !in Ids(all)
    ensures Supplemented(all, [x, x]) == all + [Mark(x), Mark(x)]
  {
    var ids := Ids(all);
    assert [x, x][1..] == [x];
    assert [x][1..] == [];
    assert Additions([x], ids) == [Mark(x)];
    assert Additions([x, x], ids) == [Mark(x)] + Additions([x], ids);
  }

  /** One element of the top-up: kept out when its id is known, otherwise appended marked. */
  lemma SupplementStep(r: seq<Dict>, rest: seq<Dict>, existing: set<Value>, whole: seq<Dict>)
    requires rest != [] && r + Additions(rest, existing) == whole
    ensures (if Get(rest[0], "element_id", VNone) in existing then r else r + [Mark(rest[0])])
      + Additions(rest[1..], existing) == whole
  {
    if Get(rest[0], "element_id", VNone) !in existing {
      assert Additions(rest, existing) == [Mark(rest[0])] + Additions(rest[1..], existing);
    }
  }

  /** The top-up loop of `generate_cross_domain`. */
  method SupplementElements(all: seq<Dict>, extra: seq<Dict>) returns (r: seq<Dict>)
    ensures r == Supplemented(all, extra)
  {
    r := all;
    if |all| < 5 {
      var existing := set e | e in all :: Get(e, "element_id", VNone);
      var i := 0;
      while i < |extra|
        invariant 0 <= i <= |extra|
        invariant r + Additions(extra[i..], existing) == all + Additions(extra, existing)
      {
        var elem := extra[i];
        assert extra[i..][1..] == extra[i + 1..];
        SupplementStep(r, extra[i..], existing, all + Additions(extra, existing));
        if Get(elem, "element_id", VNone) !in existing {
          elem := elem["source_domain" := VStr("portrait_supplement")];
          r := r + [elem];
        }
        i := i + 1;
      }
      assert extra[i..] == [];
    }
  }

  /** The scene cue groups, matched on the request as typed, in table order ... */
  const SceneCues: seq<seq<string>> := [
    ["秦", "宫殿", "大殿"],
    ["战国", "秦国"],
    ["古代", "古装"],
    ["宫廷", "皇宫"],
    ["战场", "战争"],
    ["比武", "对决", "决斗"],
    ["剑术", "剑", "刀"],
    ["武术", "功夫"],
    ["打斗", "格斗"],
    ["武将", "将军", "将领"],
    ["武士", "剑客"],
    ["王", "皇帝", "君主"],
    ["史诗", "壮观"],
    ["电影级", "大片"],
    ["激烈", "紧张"]]

  /** ... and the English description each group adds. */
  const SceneDescriptions: seq<string> := [
    "ancient Chinese Qin Dynasty palace hall, grand imperial architecture",
    "Warring States period, ancient Chinese military setting",
    "ancient Chinese historical setting",
    "Chinese imperial palace, ornate traditional architecture",
    "epic battlefield, war scene",
    "intense combat duel, martial arts battle",
    "sword fighting, blade combat, weapon clash",
    "martial arts, kung fu action",
    "fighting scene, combat action",
    "powerful military general, armored warrior",
    "skilled swordsman, warrior",
    "noble king, imperial ruler",
    "epic cinematic scene, grand scale",
    "blockbuster movie quality, cinematic composition",
    "intense dramatic action, high tension"]

  /** The character names, matched on the request as typed ... */
  const CharacterNames: seq<string> := ["赢稷", "秦王", "白起", "项羽", "刘邦", "韩信", "悟空"]

  /** ... and their English rendering. */
  const CharacterDescriptions: seq<string> := [
    "King Yingji of Qin",
    "King of Qin",
    "General Baiqi, legendary military commander",
    "Xiang Yu, mighty warrior king",
    "Liu Bang, founder of Han Dynasty",
    "Han Xin, brilliant military strategist",
    "Son Goku, powerful martial artist"]

  const DramaCues: seq<string> := ["电影", "cinematic", "史诗"]
  const DramaDescription: string := "dramatic lighting, dust particles in the air"
  const PeriodCues: seq<string> := ["古代", "战国", "秦"]
  const PeriodDescription: string := "elaborate period costume with intricate bronze patterns"

  /** The descriptions whose cue `hit` accepts, in table order; a table is its cues and its descriptions side by side. */
  function Picked<K>(cues: seq<K>, descriptions: seq<string>, hit: K -> bool): (r: seq<string>)
    requires |cues| == |descriptions|
    ensures IsSubsequence(r, descriptions)
    ensures forall i :: 0 <= i < |cues| && hit(cues[i]) ==> descriptions[i] in r
  {
    if cues == [] then []
    else
      var rest := Picked(cues[1..], descriptions[1..], hit);
      assert descriptions == [descriptions[0]] + descriptions[1..];
      if hit(cues[0]) then
        assert ([descriptions[0]] + rest)[1..] == rest;
        [descriptions[0]] + rest
      else
        SubsequenceExtend(rest, descriptions[1..], descriptions[0]);
        rest
  }

  function SceneHit(raw: string): seq<string> -> bool
  {
    cues => AnyContained(raw, cues)
  }

  function CharacterHit(raw: string): string -> bool
  {
    name => Contains(raw, name)
  }

  /** The parts in the order they are collected: scenes, characters, then the two style cues on the lower-cased request. */
  function SceneParts(raw: string): seq<string>
  {
    var lower := Lower(raw);
    Picked(SceneCues, SceneDescriptions, SceneHit(raw)) + Picked(CharacterNames, CharacterDescriptions, CharacterHit(raw))
      + StyleParts(lower)
  }

  /**
   * `_extract_scene_description`: empty for a missing or empty request, an
   * AttributeError for a request that is not a string, otherwise the
   * de-duplicated parts joined with ", ".
   */
  function SceneDescription(intent: Dict): Result<string>
  {
    var raw := Get(intent, "raw_input", VStr(""));
    if !Truthy(raw) then Ok("")
    else if !raw.VStr? then Err("AttributeError")
    else Ok(Join(Dedupe(SceneParts(raw.s)), ", "))
  }

  /** Every description a request can produce, in collection order. */
  const AllDescriptions: seq<string> := SceneDescriptions + CharacterDescriptions + [DramaDescription, PeriodDescription]

  /** The parts are drawn from distinct descriptions, in order, so none is ever repeated. */
  lemma ScenePartsDistinct(raw: string)
    ensures NoDuplicates(SceneParts(raw))
  {
    ScenePartsDrawn(raw);
    DescriptionsDistinct();
    SubsequenceNoDuplicates(SceneParts(raw), AllDescriptions);
  }

  lemma ScenePartsDrawn(raw: string)
    ensures IsSubsequence(SceneParts(raw), AllDescriptions)
  {
    var lower := Lower(raw);
    var styles := StyleParts(lower);
    var tail := [DramaDescription, PeriodDescription];
    var scenes := Picked(SceneCues, SceneDescriptions, SceneHit(raw));
    var characters := Picked(CharacterNames, CharacterDescriptions, CharacterHit(raw));
    SubsequenceConcat(characters, CharacterDescriptions, styles, tail);
    SubsequenceConcat(scenes, SceneDescriptions, characters + styles, CharacterDescriptions + tail);
    assert SceneParts(raw) == scenes + (characters + styles);
    assert AllDescriptions == SceneDescriptions + (CharacterDescriptions + tail);
  }

  function StyleParts(lower: string): (r: seq<string>)
    ensures IsSubsequence(r, [DramaDescription, PeriodDescription])
  {
    var drama: seq<string> := if AnyContained(lower, DramaCues) then [DramaDescription] else [];
    var period: seq<string> := if AnyContained(lower, PeriodCues) then [PeriodDescription] else [];
    assert IsSubsequence(drama, [DramaDescription]);
    assert IsSubsequence(period, [PeriodDescription]);
    SubsequenceConcat(drama, [DramaDescription], period, [PeriodDescription]);
    drama + period
  }

  lemma DescriptionsDistinct()
    ensures NoDuplicates(AllDescriptions)
  {
    ScenesRanked();
    CharactersRanked();
    assert DescriptionRank(DramaDescription) == 22 && DescriptionRank(PeriodDescription) == 23;
    RanksOfParts(SceneDescriptions, CharacterDescriptions, [DramaDescription, PeriodDescription]);
  }

  lemma ScenesRanked()
    ensures forall i :: 0 <= i < |SceneDescriptions| ==> DescriptionRank(SceneDescriptions[i]) == i
  {
    SceneRanks0();
    SceneRanks1();
    SceneRanks2();
    SceneRanks3();
  }

  lemma CharactersRanked()
    ensures forall i :: 0 <= i < |CharacterDescriptions| ==> DescriptionRank(CharacterDescriptions[i]) == 15 + i
  {
    CharacterRanks0();
    CharacterRanks1();
  }

  /** Three runs whose ranks continue one another rank their concatenation, which then repeats nothing. */
  lemma RanksOfParts(a: seq<string>, b: seq<string>, c: seq<string>)
    requires forall i :: 0 <= i < |a| ==> DescriptionRank(a[i]) == i
    requires forall i :: 0 <= i < |b| ==> DescriptionRank(b[i]) == |a| + i
    requires forall i :: 0 <= i < |c| ==> DescriptionRank(c[i]) == |a| + |b| + i
    ensures NoDuplicates(a + b + c)
  {
    var s := a + b + c;
    forall i | 0 <= i < |s|
      ensures DescriptionRank(s[i]) == i
    {
      if i < |a| {
        assert s[i] == a[i];
      } else if i < |a| + |b| {
        assert s[i] == b[i - |a|];
      } else {
        assert s[i] == c[i - |a| - |b|];
      }
    }
  }

  /**
   * The position of a description in `AllDescriptions`, recovered from its length
   * and its last two characters, which already tell all of them apart.
   */
  function DescriptionRank(s: string): int
  {
    if |s| < 2 then -1
    else if |s| == 68 && s[|s| - 1] == 'e' && s[|s| - 2] == 'r' then 0
    else if |s| == 55 && s[|s| - 1] == 'g' && s[|s| - 2] == 'n' then 1
    else if |s| == 34 && s[|s| - 1] == 'g' && s[|s| - 2] == 'n' then 2
    else if |s| == 56 && s[|s| - 1] == 'e' && s[|s| - 2] == 'r' then 3
    else if |s| == 27 && s[|s| - 1] == 'e' && s[|s| - 2] == 'n' then 4
    else if |s| == 40 && s[|s| - 1] == 'e' && s[|s| - 2] == 'l' then 5
    else if |s| == 42 && s[|s| - 1] == 'h' && s[|s| - 2] == 's' then 6
    else if |s| == 28 && s[|s| - 1] == 'n' && s[|s| - 2] == 'o' then 7
    else if |s| == 29 && s[|s| - 1] == 'n' && s[|s| - 2] == 'o' then 8
    else if |s| == 42 && s[|s| - 1] == 'r' && s[|s| - 2] == 'o' then 9
    else if |s| == 26 && s[|s| - 1] == 'r' && s[|s| - 2] == 'o' then 10
    else if |s| == 26 && s[|s| - 1] == 'r' && s[|s| - 2] == 'e' then 11
    else if |s| == 33 && s[|s| - 1] == 'e' && s[|s| - 2] == 'l' then 12
    else if |s| == 48 && s[|s| - 1] == 'n' && s[|s| - 2] == 'o' then 13
    else if |s| == 37 && s[|s| - 1] == 'n' && s[|s| - 2] == 'o' then 14
    else if |s| == 18 && s[|s| - 1] == 'n' && s[|s| - 2] == 'i' then 15
    else if |s| == 11 && s[|s| - 1] == 'n' && s[|s| - 2] == 'i' then 16
    else if |s| == 43 && s[|s| - 1] == 'r' && s[|s| - 2] == 'e' then 17
    else if |s| == 29 && s[|s| - 1] == 'g' && s[|s| - 2] == 'n' then 18
    else if |s| == 32 && s[|s| - 1] == 'y' && s[|s| - 2] == 't' then 19
    else if |s| == 38 && s[|s| - 1] == 't' && s[|s| - 2] == 's' then 20
    else if |s| == 33 && s[|s| - 1] == 't' && s[|s| - 2] == 's' then 21
    else if |s| == 44 && s[|s| - 1] == 'r' && s[|s| - 2] == 'i' then 22
    else if |s| == 55 && s[|s| - 1] == 's' && s[|s| - 2] == 'n' then 23
    else -1
  }

  lemma SceneRanks0()
    ensures DescriptionRank(SceneDescriptions[0]) == 0 && DescriptionRank(SceneDescriptions[1]) == 1 && DescriptionRank(SceneDescriptions[2]) == 2 && DescriptionRank(SceneDescriptions[3]) == 3
  {
  }

  lemma SceneRanks1()
    ensures DescriptionRank(SceneDescriptions[4]) == 4 && DescriptionRank(SceneDescriptions[5]) == 5 && DescriptionRank(SceneDescriptions[6]) == 6 && DescriptionRank(SceneDescriptions[7]) == 7
  {
  }

  lemma SceneRanks2()
    ensures DescriptionRank(SceneDescriptions[8]) == 8 && DescriptionRank(SceneDescriptions[9]) == 9 && DescriptionRank(SceneDescriptions[10]) == 10 && DescriptionRank(SceneDescriptions[11]) == 11
  {
  }

  lemma SceneRanks3()
    ensures DescriptionRank(SceneDescriptions[12]) == 12 && DescriptionRank(SceneDescriptions[13]) == 13 && DescriptionRank(SceneDescriptions[14]) == 14
  {
  }

  lemma CharacterRanks0()
    ensures DescriptionRank(CharacterDescriptions[0]) == 15 && DescriptionRank(CharacterDescriptions[1]) == 16 && DescriptionRank(CharacterDescriptions[2]) == 17 && DescriptionRank(CharacterDescriptions[3]) == 18
  {
  }

  lemma CharacterRanks1()
    ensures DescriptionRank(CharacterDescriptions[4]) == 19 && DescriptionRank(CharacterDescriptions[5]) == 20 && DescriptionRank(CharacterDescriptions[6]) == 21
  {
  }

  /** So the de-duplication in `_extract_scene_description` never removes a part. */
  lemma SceneDescriptionParts(intent: Dict)
    requires var raw := Get(intent, "raw_input", VStr("")); raw.VStr? && raw.s != ""
    ensures SceneDescription(intent) == Ok(Join(SceneParts(intent["raw_input"].s), ", "))
  {
    var raw := intent["raw_input"].s;
    SceneDescriptionOf(intent, raw);
    ScenePartsDeduped(raw);
  }

  lemma SceneDescriptionOf(intent: Dict, raw: string)
    requires Get(intent, "raw_input", VStr("")) == VStr(raw) && raw != ""
    ensures SceneDescription(intent) == Ok(Join(Dedupe(SceneParts(raw)), ", "))
  {
  }

  /** De-duplication leaves the parts as they are. */
  lemma ScenePartsDeduped(raw: string)
    ensures Dedupe(SceneParts(raw)) == SceneParts(raw)
  {
    ScenePartsDistinct(raw);
    DedupeFromIdentity(SceneParts(raw), {});
  }

  /** Each matched description appears in the scene description. */
  lemma SceneDescriptionMentions(intent: Dict, p: string)
    requires var raw := Get(intent, "raw_input", VStr("")); raw.VStr? && raw.s != ""
    requires p in SceneParts(intent["raw_input"].s)
    ensures SceneDescription(intent).Ok? && Contains(SceneDescription(intent).value, p)
  {
    var parts := SceneParts(intent["raw_input"].s);
    SceneDescriptionParts(intent);
    var i :| 0 <= i < |parts| && parts[i] == p;
    JoinContainsPart(parts, ", ", i);
  }

  lemma PickedStep<K>(cues: seq<K>, descriptions: seq<string>, hit: K -> bool, i: nat)
    requires |cues| == |descriptions| && i < |cues|
    ensures Picked(cues[i..], descriptions[i..], hit)
      == (if hit(cues[i]) then [descriptions[i]] else []) + Picked(cues[i + 1..], descriptions[i + 1..], hit)
  {
    assert cues[i..][1..] == cues[i + 1..];
    assert descriptions[i..][1..] == descriptions[i + 1..];
  }

  /** The scene-table loop: the descriptions of the matching cue groups, appended to `parts`. */
  method PickScenes(raw: string) returns (parts: seq<string>)
    ensures parts == Picked(SceneCues, SceneDescriptions, SceneHit(raw))
  {
    parts := [];
    var i := 0;
    while i < |SceneCues|
      invariant 0 <= i <= |SceneCues|
      invariant parts + Picked(SceneCues[i..], SceneDescriptions[i..], SceneHit(raw)) == Picked(SceneCues, SceneDescriptions, SceneHit(raw))
    {
      PickedStep(SceneCues, SceneDescriptions, SceneHit(raw), i);
      var hit := AnyCue(raw, SceneCues[i]);
      AppendStep(parts, if hit then [SceneDescriptions[i]] else [], Picked(SceneCues[i..], SceneDescriptions[i..], SceneHit(raw)),
                 Picked(SceneCues[i + 1..], SceneDescriptions[i + 1..], SceneHit(raw)), Picked(SceneCues, SceneDescriptions, SceneHit(raw)));
      if hit {
        parts := parts + [SceneDescriptions[i]];
      }
      i := i + 1;
    }
    assert parts + [] == parts;
  }

  /** The character-table loop. */
  method PickCharacters(raw: string) returns (parts: seq<string>)
    ensures parts == Picked(CharacterNames, CharacterDescriptions, CharacterHit(raw))
  {
    parts := [];
    var i := 0;
    while i < |CharacterNames|
      invariant 0 <= i <= |CharacterNames|
      invariant parts + Picked(CharacterNames[i..], CharacterDescriptions[i..], CharacterHit(raw)) == Picked(CharacterNames, CharacterDescriptions, CharacterHit(raw))
    {
      PickedStep(CharacterNames, CharacterDescriptions, CharacterHit(raw), i);
      var hit := Contains(raw, CharacterNames[i]);
      AppendStep(parts, if hit then [CharacterDescriptions[i]] else [], Picked(CharacterNames[i..], CharacterDescriptions[i..], CharacterHit(raw)),
                 Picked(CharacterNames[i + 1..], CharacterDescriptions[i + 1..], CharacterHit(raw)), Picked(CharacterNames, CharacterDescriptions, CharacterHit(raw)));
      if hit {
        parts := parts + [CharacterDescriptions[i]];
      }
      i := i + 1;
    }
    assert parts + [] == parts;
  }

  /** The `seen`-set loop that keeps the first occurrence of each part. */
  method DedupeParts(parts: seq<string>) returns (unique: seq<string>)
    ensures unique == Dedupe(parts)
  {
    var seen: set<string> := {};
    unique := [];
    var j := 0;
    while j < |parts|
      invariant 0 <= j <= |parts|
      invariant unique == Dedupe(parts[..j])
      invariant forall x :: x in seen <==> x in parts[..j]
    {
      PrefixStep(parts, j);
      assert parts[..j + 1] == parts[..j] + [parts[j]];
      if parts[j] !in seen {
        seen := seen + {parts[j]};
        unique := unique + [parts[j]];
      }
      j := j + 1;
    }
    assert parts[..j] == parts;
  }

  /** The parts in collection order, from the hits of each kind. */
  lemma ScenePartsOf(raw: string, scenes: seq<string>, characters: seq<string>, drama: bool, period: bool)
    requires scenes == Picked(SceneCues, SceneDescriptions, SceneHit(raw))
    requires characters == Picked(CharacterNames, CharacterDescriptions, CharacterHit(raw))
    requires drama == AnyContained(Lower(raw), DramaCues) && period == AnyContained(Lower(raw), PeriodCues)
    ensures SceneParts(raw) == scenes + characters + (if drama then [DramaDescription] else [])
      + (if period then [PeriodDescription] else [])
  {
  }

  /** `_extract_scene_description` */
  method ExtractSceneDescription(intent: Dict) returns (r: Result<string>)
    ensures r == SceneDescription(intent)
  {
    var raw := Get(intent, "raw_input", VStr(""));
    if !Truthy(raw) {
      return Ok("");
    }
    if !raw.VStr? {
      return Err("AttributeError");
    }
    var parts := CollectParts(raw.s);
    var unique := DedupeParts(parts);
    return Ok(Join(unique, ", "));
  }

  /** The collection of parts in `_extract_scene_description`, before de-duplication. */
  method CollectParts(raw: string) returns (parts: seq<string>)
    ensures parts == SceneParts(raw)
  {
    var lower := Lower(raw);
    var scenes := PickScenes(raw);
    var characters := PickCharacters(raw);
    parts := scenes + characters;
    var drama := AnyCue(lower, DramaCues);
    if drama {
      parts := parts + [DramaDescription];
    }
    var period := AnyCue(lower, PeriodCues);
    if period {
      parts := parts + [PeriodDescription];
    }
    ScenePartsOf(raw, scenes, characters, drama, period);
  }

  /** The result `generate_cross_domain` returns: the prompt and its metadata. */
  datatype CrossDomainResult = CrossDomainResult(
    prompt: string, domainsUsed: seq<string>, elementCount: nat, issuesFixed: nat, enhanced: bool)

  /** The scene description, when there is one, in front of the composed prompt. */
  function FinalPrompt(scene: string, base: string): (r: string)
    ensures |r| == |base| + (if scene == "" then 0 else |scene| + 2)
    ensures r[|r| - |base|..] == base
    ensures scene != "" ==> StartsWith(r, scene + ", ")
  {
    if scene != "" then scene + ", " + base else base
  }

  /**
   * The consistency check and, when it found issues, the repair: the issue count and
   * the elements the prompt is composed from, or the first error either raises.
   */
  function Repaired(elements: seq<Dict>, countIssues: seq<Dict> -> Result<nat>, resolve: seq<Dict> -> Result<seq<Dict>>): Result<(nat, seq<Dict>)>
  {
    match countIssues(elements)
    case Err(e) => Err(e)
    case Ok(issues) =>
      if issues == 0 then Ok((0, elements))
      else
        match resolve(elements)
        case Err(e) => Err(e)
        case Ok(fixed) => Ok((issues, fixed))
  }

  /**
   * `generate_cross_domain`, given what the query engine returned per domain and
   * what the portrait generator would select, count as issues, resolve and
   * compose (those are parameters here, each of which may raise).
   */
  method GenerateCrossDomain(
    intent: Dict, byDomain: seq<(string, seq<Dict>)>, extra: seq<Dict>,
    countIssues: seq<Dict> -> Result<nat>, resolve: seq<Dict> -> Result<seq<Dict>>, compose: seq<Dict> -> Result<string>)
    returns (r: Result<CrossDomainResult>)
    ensures var rep := Repaired(Supplemented(Merged(byDomain), extra), countIssues, resolve);
      rep.Err? ==> r == Err(rep.error)
    ensures var rep := Repaired(Supplemented(Merged(byDomain), extra), countIssues, resolve);
      rep.Ok? && SceneDescription(intent).Err? ==> r == Err(SceneDescription(intent).error)
    ensures var rep := Repaired(Supplemented(Merged(byDomain), extra), countIssues, resolve);
      rep.Ok? && SceneDescription(intent).Ok? && compose(rep.value.1).Err? ==> r == Err(compose(rep.value.1).error)
    ensures var rep := Repaired(Supplemented(Merged(byDomain), extra), countIssues, resolve);
      rep.Ok? && SceneDescription(intent).Ok? && compose(rep.value.1).Ok? ==>
        var scene := SceneDescription(intent).value;
        r == Ok(CrossDomainResult(FinalPrompt(scene, compose(rep.value.1).value), DomainNames(byDomain),
          |rep.value.1|, rep.value.0, scene != ""))
  {
    var all := MergeElements(byDomain);
    all := SupplementElements(all, extra);
    var issues := countIssues(all);
    if issues.Err? {
      return Err(issues.error);
    }
    if issues.value > 0 {
      var fixed := resolve(all);
      if fixed.Err? {
        return Err(fixed.error);
      }
      all := fixed.value;
    }
    var scene := ExtractSceneDescription(intent);
    if scene.Err? {
      return Err(scene.error);
    }
    var base := compose(all);
    if base.Err? {
      return Err(base.error);
    }
    var prompt := if scene.value != "" then scene.value + ", " + base.value else base.value;
    var domains := DomainNames(byDomain);
    return Ok(CrossDomainResult(prompt, domains, |all|, issues.value, scene.value != ""));
  }
}
