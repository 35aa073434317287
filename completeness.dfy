/**
 * The generator's completeness check: for each user requirement (clothing,
 * hairstyle, era, director style, lighting) a fixed table gives the words the
 * prompt is expected to mention; a requirement none of whose words occurs in the
 * lowercased prompt is reported.
 */
module Completeness {
  import opened Wrappers
  import opened Text
  import opened Seqs
  import opened PyValue

  /** One unmet requirement. */
  datatype Missing = Missing(requirement: string, expected: seq<string>, description: string, suggestion: string)

  function ClothingKeywords(k: string): seq<string>
  {
    match k
    case "traditional_chinese" => ["traditional", "costume", "hanfu", "chinese dress", "period dress"]
    case "kimono" => ["kimono", "traditional japanese"]
    case "business" => ["business", "suit", "professional"]
    case "casual" => ["casual"]
    case "formal" => ["formal", "evening gown", "dress"]
    case _ => []
  }

  function HairstyleKeywords(k: string): seq<string>
  {
    match k
    case "ancient_chinese" => ["traditional hairstyle", "classical hair", "hair ornament", "hairpin", "bun"]
    case "traditional_japanese" => ["traditional japanese hair", "kanzashi"]
    case _ => []
  }

  function EraKeywords(k: string): seq<string>
  {
    match k
    case "ancient" => ["traditional", "period", "classical", "ancient"]
    case "republic_of_china" => ["republic era", "1920s", "1930s", "vintage"]
    case _ => []
  }

  function DirectorKeywords(k: string): seq<string>
  {
    match k
    case "tsui_hark" => ["wuxia", "martial arts", "flowing", "dynamic"]
    case "zhang_yimou" => ["traditional", "red", "gold", "dramatic"]
    case "wong_kar_wai" => ["nostalgic", "atmospheric", "saturated"]
    case _ => []
  }

  function LightingKeywords(k: string): seq<string>
  {
    match k
    case "natural" => ["natural", "window light", "daylight", "soft light"]
    case "cinematic" => ["cinematic", "dramatic", "rim light"]
    case "zhang_yimou" => ["dramatic", "shadow", "rim", "chiaroscuro"]
    case "film_noir" => ["shadow", "contrast", "chiaroscuro", "low key"]
    case "neon" => ["neon", "colorful", "glow"]
    case "soft" => ["soft", "gentle", "diffused"]
    case "dramatic" => ["dramatic", "shadow", "contrast"]
    case _ => []
  }

  /** The requirements in the order they are checked. */
  const Requirements: seq<string> := ["clothing", "hairstyle", "era", "director_style", "lighting"]

  function Table(req: string): string -> seq<string>
  {
    match req
    case "clothing" => ClothingKeywords
    case "hairstyle" => HairstyleKeywords
    case "era" => EraKeywords
    case "director_style" => DirectorKeywords
    case _ => LightingKeywords
  }

  /**
   * `table.get(v, [])` for a Python value `v`: only a string can equal a key, and a
   * list or dict raises TypeError because it cannot be hashed.
   */
  function TableGet(table: string -> seq<string>, v: Value): Result<seq<string>>
  {
    if v.VList? || v.VDict? then Err("TypeError: unhashable type")
    else if v.VStr? then Ok(table(v.s))
    else Ok([])
  }

  /**
   * The value the source looks at for a requirement, or None when its guard skips
   * the requirement. A present `atmosphere` that is not a dict has no `get`.
   */
  function Demand(intent: Dict, req: string): Result<Option<Value>>
  {
    if req == "director_style" then
      var atmosphere := Get(intent, "atmosphere", VDict(map[]));
      if !atmosphere.VDict? then Err("AttributeError: 'get'")
      else
        var style := Get(atmosphere.entries, "director_style", VNone);
        Ok(if Truthy(style) then Some(style) else None)
    else if req == "lighting" then
      var lighting := Get(intent, "lighting", VStr("natural"));
      Ok(Some(if lighting.VDict? then Get(lighting.entries, "lighting_type", VStr("natural")) else lighting))
    else
      var v := Get(intent, req, VNone);
      Ok(if Truthy(v) && v != VStr("modern") then Some(v) else None)
  }

  /** The expected words for a requirement: empty when skipped or when the table has no entry. */
  function Expected(intent: Dict, req: string): Result<seq<string>>
  {
    match Demand(intent, req)
    case Err(e) => Err(e)
    case Ok(None) => Ok([])
    case Ok(Some(v)) => TableGet(Table(req), v)
  }

  function Noun(req: string): string
  {
    match req
    case "clothing" => "'服装，但提示词中未找到相关描述"
    case "hairstyle" => "'发型，但提示词中未找到相关描述"
    case "era" => "'时代背景，但提示词中未找到相关描述"
    case "director_style" => "'导演风格，但提示词中未找到特征关键词"
    case _ => "'光影，但提示词中未找到相关描述"
  }

  /** The value that produced a non-empty expectation, as text (it is always a string). */
  function DemandText(intent: Dict, req: string): string
  {
    match Demand(intent, req)
    case Ok(Some(VStr(s))) => s
    case _ => ""
  }

  function MissingFor(intent: Dict, req: string, expected: seq<string>): Missing
  {
    Missing(req, expected, "用户要求'" + DemandText(intent, req) + Noun(req),
            "应包含: " + Join(Take(expected, 3), ", "))
  }

  /** Whether a requirement with these expected words is unmet by the prompt. */
  predicate Unmet(expected: seq<string>, prompt: string)
  {
    expected != [] && !AnyContained(Lower(prompt), expected)
  }

  /** The checks for `reqs`, in order; the first failing lookup is the result. */
  function CompletenessOf(intent: Dict, prompt: string, reqs: seq<string>): Result<seq<Missing>>
  {
    if reqs == [] then Ok([])
    else
      match Expected(intent, reqs[0])
      case Err(e) => Err(e)
      case Ok(expected) =>
        match CompletenessOf(intent, prompt, reqs[1..])
        case Err(e) => Err(e)
        case Ok(rest) => Ok(Here(intent, prompt, reqs[0], expected) + rest)
  }

  /** What one requirement reports: itself when unmet, nothing otherwise. */
  function Here(intent: Dict, prompt: string, req: string, expected: seq<string>): seq<Missing>
  {
    if Unmet(expected, prompt) then [MissingFor(intent, req, expected)] else []
  }

  /** `CompletenessOf` on its first requirement. */
  lemma CompletenessHead(intent: Dict, prompt: string, reqs: seq<string>)
    requires reqs != []
    ensures var r := CompletenessOf(intent, prompt, reqs);
      var e := Expected(intent, reqs[0]);
      var rest := CompletenessOf(intent, prompt, reqs[1..]);
      (e.Err? ==> r == Err(e.error))
      && (e.Ok? && rest.Err? ==> r == rest)
      && (e.Ok? && rest.Ok? ==> r == Ok(Here(intent, prompt, reqs[0], e.value) + rest.value))
  {
  }

  function CompletenessIssues(intent: Dict, prompt: string): Result<seq<Missing>>
  {
    CompletenessOf(intent, prompt, Requirements)
  }

  /** One requirement's block of `check_completeness`. */
  method CheckRequirement(intent: Dict, prompt: string, req: string) returns (r: Result<seq<Missing>>)
    ensures r.Err? <==> Expected(intent, req).Err?
    ensures r.Err? ==> r.error == Expected(intent, req).error
    ensures r.Ok? ==> r.value == Here(intent, prompt, req, Expected(intent, req).value)
  {
    var v: Value;
    if req == "director_style" {
      var atmosphere := Get(intent, "atmosphere", VDict(map[]));
      if !atmosphere.VDict? {
        return Err("AttributeError: 'get'");
      }
      v := Get(atmosphere.entries, "director_style", VNone);
      if !Truthy(v) {
        return Ok([]);
      }
    } else if req == "lighting" {
      v := Get(intent, "lighting", VStr("natural"));
      if v.VDict? {
        v := Get(v.entries, "lighting_type", VStr("natural"));
      }
    } else {
      v := Get(intent, req, VNone);
      if !Truthy(v) || v == VStr("modern") {
        return Ok([]);
      }
    }
    var lookup := TableGet(Table(req), v);
    if lookup.Err? {
      return Err(lookup.error);
    }
    var expected := lookup.value;
    var promptLower := Lower(prompt);
    if expected != [] && !AnyContained(promptLower, expected) {
      r := Ok([MissingFor(intent, req, expected)]);
    } else {
      r := Ok([]);
    }
  }

  /** The requirement blocks of `check_completeness`, run in the order given. */
  method CheckRequirements(intent: Dict, prompt: string, reqs: seq<string>) returns (r: Result<seq<Missing>>)
    ensures r == CompletenessOf(intent, prompt, reqs)
  {
    var missing: seq<Missing> := [];
    var i := 0;
    assert reqs[i..] == reqs;
    ghost var whole := CompletenessOf(intent, prompt, reqs);
    assert whole.Ok? ==> [] + whole.value == whole.value;
    while i < |reqs|
      invariant 0 <= i <= |reqs|
      invariant Pending(whole, missing, CompletenessOf(intent, prompt, reqs[i..]))
    {
      assert reqs[i..][0] == reqs[i] && reqs[i..][1..] == reqs[i + 1..];
      CompletenessHead(intent, prompt, reqs[i..]);
      var found := CheckRequirement(intent, prompt, reqs[i]);
      AccumulateStep(whole, CompletenessOf(intent, prompt, reqs[i..]), found, CompletenessOf(intent, prompt, reqs[i + 1..]), missing);
      if found.Err? {
        return Err(found.error);
      }
      missing := missing + found.value;
      i := i + 1;
    }
    assert reqs[i..] == [];
    assert missing + [] == missing;
    r := Ok(missing);
  }

  /** The loop's invariant: the whole result is the reports so far followed by what the rest yields, or the rest's error. */
  predicate Pending(whole: Result<seq<Missing>>, missing: seq<Missing>, cur: Result<seq<Missing>>)
  {
    (cur.Err? ==> whole == cur) && (cur.Ok? ==> whole == Ok(missing + cur.value))
  }

  /** The loop's invariant carried over one requirement. */
  lemma AccumulateStep(whole: Result<seq<Missing>>, cur: Result<seq<Missing>>, found: Result<seq<Missing>>,
                       rest: Result<seq<Missing>>, missing: seq<Missing>)
    requires found.Err? ==> cur == Err(found.error)
    requires found.Ok? && rest.Err? ==> cur == rest
    requires found.Ok? && rest.Ok? ==> cur == Ok(found.value + rest.value)
    requires Pending(whole, missing, cur)
    ensures found.Err? ==> whole == Err(found.error)
    ensures found.Ok? ==> Pending(whole, missing + found.value, rest)
  {
    if found.Ok? && rest.Ok? {
      assert missing + (found.value + rest.value) == (missing + found.value) + rest.value;
    }
  }

  /** `check_completeness` */
  method CheckCompleteness(intent: Dict, prompt: string) returns (r: Result<seq<Missing>>)
    ensures r == CompletenessIssues(intent, prompt)
  {
    r := CheckRequirements(intent, prompt, Requirements);
  }

  /** Every reported requirement has expected words, none of which is in the lowercased prompt. */
  lemma {:induction false} CompletenessOfSound(intent: Dict, prompt: string, reqs: seq<string>)
    requires CompletenessOf(intent, prompt, reqs).Ok?
    ensures forall k :: 0 <= k < |CompletenessOf(intent, prompt, reqs).value| ==>
      var m := CompletenessOf(intent, prompt, reqs).value[k];
      m.requirement in reqs && Expected(intent, m.requirement) == Ok(m.expected) && Unmet(m.expected, prompt)
  {
    if reqs != [] {
      CompletenessOfSound(intent, prompt, reqs[1..]);
    }
  }

  /** Each requirement is reported iff its expected words are non-empty and none occurs in the prompt. */
  lemma {:induction false} CompletenessOfComplete(intent: Dict, prompt: string, reqs: seq<string>, req: string)
    requires CompletenessOf(intent, prompt, reqs).Ok?
    requires req in reqs
    ensures Expected(intent, req).Ok?
    ensures (exists k :: 0 <= k < |CompletenessOf(intent, prompt, reqs).value| && CompletenessOf(intent, prompt, reqs).value[k].requirement == req)
      <==> Unmet(Expected(intent, req).value, prompt)
  {
    CompletenessOfSound(intent, prompt, reqs);
    CompletenessHead(intent, prompt, reqs);
    var out := CompletenessOf(intent, prompt, reqs).value;
    var here := Here(intent, prompt, reqs[0], Expected(intent, reqs[0]).value);
    var rest := CompletenessOf(intent, prompt, reqs[1..]).value;
    assert out == here + rest;
    if req == reqs[0] {
      if Unmet(Expected(intent, req).value, prompt) {
        assert out[0].requirement == req;
      }
    } else {
      CompletenessOfComplete(intent, prompt, reqs[1..], req);
      ReportedShift(here, rest, req);
    }
  }

  /** Leading reports for other requirements do not change whether `req` is reported. */
  lemma ReportedShift(here: seq<Missing>, rest: seq<Missing>, req: string)
    requires forall k :: 0 <= k < |here| ==> here[k].requirement != req
    ensures (exists k :: 0 <= k < |here + rest| && (here + rest)[k].requirement == req)
      <==> (exists k :: 0 <= k < |rest| && rest[k].requirement == req)
  {
    if exists k :: 0 <= k < |rest| && rest[k].requirement == req {
      var k :| 0 <= k < |rest| && rest[k].requirement == req;
      assert (here + rest)[|here| + k] == rest[k];
    }
    if exists k :: 0 <= k < |here + rest| && (here + rest)[k].requirement == req {
      var k :| 0 <= k < |here + rest| && (here + rest)[k].requirement == req;
      assert rest[k - |here|] == (here + rest)[k];
    }
  }

  /**
   * `check_completeness` reports, in the fixed requirement order, exactly the
   * requirements whose expected words are non-empty and absent from the
   * lowercased prompt.
   */
  lemma CompletenessExact(intent: Dict, prompt: string, req: string)
    requires CompletenessIssues(intent, prompt).Ok?
    requires req in Requirements
    ensures Expected(intent, req).Ok?
    ensures (exists k :: 0 <= k < |CompletenessIssues(intent, prompt).value| && CompletenessIssues(intent, prompt).value[k].requirement == req)
      <==> Unmet(Expected(intent, req).value, prompt)
    ensures forall k :: 0 <= k < |CompletenessIssues(intent, prompt).value| ==>
      CompletenessIssues(intent, prompt).value[k].requirement in Requirements
      && Unmet(CompletenessIssues(intent, prompt).value[k].expected, prompt)
  {
    CompletenessOfComplete(intent, prompt, Requirements, req);
    CompletenessOfSound(intent, prompt, Requirements);
  }

  /** Lighting is always checked: an intent without it is held to the natural-light words. */
  lemma LightingDefaultsToNatural(intent: Dict)
    requires "lighting" !in intent
    ensures Expected(intent, "lighting") == Ok(["natural", "window light", "daylight", "soft light"])
  {
  }

  /** A requirement set to "modern" is never checked. */
  lemma ModernIsNotChecked(intent: Dict, req: string)
    requires req in ["clothing", "hairstyle", "era"]
    requires req in intent && intent[req] == VStr("modern")
    ensures Expected(intent, req) == Ok([])
  {
  }

  /** The only failures: a present non-dict `atmosphere`, or an unhashable looked-up value. */
  lemma CompletenessErrors(intent: Dict, prompt: string)
    ensures CompletenessIssues(intent, prompt).Err? ==>
      ("atmosphere" in intent && !intent["atmosphere"].VDict?)
      || exists k :: 0 <= k < |Requirements| && Unhashable(intent, Requirements[k])
  {
    ErrorsOf(intent, prompt, Requirements);
  }

  lemma {:induction false} ErrorsOf(intent: Dict, prompt: string, reqs: seq<string>)
    ensures CompletenessOf(intent, prompt, reqs).Err? ==>
      ("atmosphere" in intent && !intent["atmosphere"].VDict?)
      || exists k :: 0 <= k < |reqs| && Unhashable(intent, reqs[k])
  {
    if reqs != [] && CompletenessOf(intent, prompt, reqs).Err? {
      if Expected(intent, reqs[0]).Err? {
        if Demand(intent, reqs[0]).Ok? {
          assert Demand(intent, reqs[0]).value.Some?;
          WitnessAt(intent, reqs, 0);
        }
      } else {
        ErrorsOf(intent, prompt, reqs[1..]);
        if !("atmosphere" in intent && !intent["atmosphere"].VDict?) {
          var k :| 0 <= k < |reqs[1..]| && Unhashable(intent, reqs[1..][k]);
          WitnessAt(intent, reqs, k + 1);
        }
      }
    }
  }

  predicate Unhashable(intent: Dict, req: string)
  {
    Demand(intent, req).Ok? && Demand(intent, req).value.Some?
    && (Demand(intent, req).value.value.VList? || Demand(intent, req).value.value.VDict?)
  }

  lemma WitnessAt(intent: Dict, reqs: seq<string>, k: nat)
    requires k < |reqs| && Unhashable(intent, reqs[k])
    ensures exists j :: 0 <= j < |reqs| && Unhashable(intent, reqs[j])
  {
  }
}
