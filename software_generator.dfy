/**
 * `SoftwareGenerator`: software-engineering prompts from the loaded `software.yaml`
 * data (given as a value) and the parsed intent. The role and framework decisions are
 * if-chains; a software task's template is filled by a fixed sequence of replacements.
 */
module SoftwareGenerator {
  import opened Wrappers
  import opened Text
  import opened PyValue

  const DefaultRole: string := "You are a software engineering expert."
  const Constraints: string :=
    "\n\nConstraints:\n- Ensure code quality and best practices.\n- Include comments and documentation."
  const StandardLibrary: string := "standard library"

  const RoleKeys: set<string> :=
    {"qa_engineer", "devops_engineer", "system_architect", "security_engineer", "tech_writer", "frontend_dev", "backend_dev"}

  /** The software-task keywords and the role each selects, in the order they are tried. */
  const TaskRules: seq<(seq<string>, string)> := [
    (["test"], "qa_engineer"),
    (["deploy", "pipeline", "docker"], "devops_engineer"),
    (["architecture", "design", "schema"], "system_architect"),
    (["security", "audit"], "security_engineer"),
    (["readme", "doc"], "tech_writer")
  ]

  const FrontendCues: seq<string> := ["ui", "frontend", "css"]

  /** `v.get(k, default)`, which only a dict has. */
  function DGet(v: Value, k: string, default: Value): Result<Value>
  {
    if v.VDict? then Ok(Get(v.entries, k, default)) else Err("AttributeError")
  }

  /** Python's `any(k in v for k in keys)`, stopping at the first hit. */
  function InAny(keys: seq<string>, v: Value): (r: Result<bool>)
    ensures keys != [] ==> (r.Ok? <==> (v.VDict? || v.VStr? || v.VList?))
    ensures r.Ok? ==> (r.value <==> exists k :: k in keys && PyIn(k, v) == Ok(true))
  {
    if keys == [] then Ok(false)
    else
      match PyIn(keys[0], v)
      case Err(e) => Err(e)
      case Ok(hit) => if hit then Ok(true) else InAny(keys[1..], v)
  }

  /** Every keyword of the software-task rules. */
  function RuleKeywords(rules: seq<(seq<string>, string)>): seq<string>
  {
    if rules == [] then [] else rules[0].0 + RuleKeywords(rules[1..])
  }

  /** The first rule whose keywords the software task mentions, else the frontend test on the raw input. */
  function RoleFor(rules: seq<(seq<string>, string)>, task: Value, raw: string): Result<string>
  {
    if rules == [] then
      Ok(if AnyContained(raw, FrontendCues) then "frontend_dev" else "backend_dev")
    else
      match InAny(rules[0].0, task)
      case Err(e) => Err(e)
      case Ok(hit) => if hit then Ok(rules[0].1) else RoleFor(rules[1..], task, raw)
  }

  /** `_determine_role`: the lowered raw input is computed first, then the software task is tested. */
  function DetermineRole(intent: Dict): Result<string>
  {
    match Get(intent, "raw_input", VStr(""))
    case VStr(s) => RoleFor(TaskRules, Get(intent, "software_task", VStr("")), Lower(s))
    case _ => Err("AttributeError")
  }

  lemma {:induction false} RoleForProps(rules: seq<(seq<string>, string)>, task: Value, raw: string)
    requires forall i :: 0 <= i < |rules| ==> rules[i].0 != []
    ensures rules != [] ==> (RoleFor(rules, task, raw).Ok? <==> (task.VDict? || task.VStr? || task.VList?))
    ensures rules == [] ==> RoleFor(rules, task, raw).Ok?
    ensures RoleFor(rules, task, raw).Ok? ==>
      var role := RoleFor(rules, task, raw).value;
      (exists i :: 0 <= i < |rules| && role == rules[i].1) || role == "frontend_dev" || role == "backend_dev"
    ensures RoleFor(rules, task, raw).Ok? && (forall k :: k in RuleKeywords(rules) ==> PyIn(k, task) == Ok(false)) ==>
      RoleFor(rules, task, raw).value == (if AnyContained(raw, FrontendCues) then "frontend_dev" else "backend_dev")
    ensures RoleFor(rules, task, raw).Ok? && (exists k :: k in RuleKeywords(rules) && PyIn(k, task) == Ok(true)) ==>
      exists i :: 0 <= i < |rules| && RoleFor(rules, task, raw).value == rules[i].1
  {
    if rules != [] {
      RoleForProps(rules[1..], task, raw);
      assert RuleKeywords(rules) == rules[0].0 + RuleKeywords(rules[1..]);
      if RoleFor(rules, task, raw).Ok? && !InAny(rules[0].0, task).value {
        var role := RoleFor(rules, task, raw).value;
        if exists i :: 0 <= i < |rules[1..]| && role == rules[1..][i].1 {
          var i :| 0 <= i < |rules[1..]| && role == rules[1..][i].1;
          assert role == rules[i + 1].1;
        }
      }
    }
  }

  /**
   * The role is one of the seven keys; 'test' in the software task always wins; with no task
   * keyword the raw input alone decides between frontend and backend; a task that is
   * not a string, list or dict (None included) raises TypeError once the raw input is a
   * string, and a non-string raw input raises AttributeError.
   */
  lemma DetermineRoleProps(intent: Dict)
    ensures DetermineRole(intent).Ok? ==> DetermineRole(intent).value in RoleKeys
    ensures !Get(intent, "raw_input", VStr("")).VStr? ==> DetermineRole(intent) == Err("AttributeError")
    ensures Get(intent, "raw_input", VStr("")).VStr? ==>
      var task := Get(intent, "software_task", VStr(""));
      (DetermineRole(intent).Ok? <==> (task.VDict? || task.VStr? || task.VList?))
    ensures Get(intent, "raw_input", VStr("")).VStr? && Get(intent, "software_task", VStr("")).VNone? ==>
      DetermineRole(intent) == Err("TypeError")
    ensures Get(intent, "raw_input", VStr("")).VStr? && PyIn("test", Get(intent, "software_task", VStr(""))) == Ok(true) ==>
      DetermineRole(intent) == Ok("qa_engineer")
    ensures (DetermineRole(intent).Ok? &&
             forall k :: k in RuleKeywords(TaskRules) ==> PyIn(k, Get(intent, "software_task", VStr(""))) == Ok(false)) ==>
      DetermineRole(intent).value ==
        (if AnyContained(Lower(Get(intent, "raw_input", VStr("")).s), FrontendCues) then "frontend_dev" else "backend_dev")
  {
    var raw := Get(intent, "raw_input", VStr(""));
    if raw.VStr? {
      TaskRoleProps(Get(intent, "software_task", VStr("")), Lower(raw.s));
    }
  }

  /** The role decision on a software task and a lowered raw input, the intent set aside. */
  lemma TaskRoleProps(task: Value, raw: string)
    ensures RoleFor(TaskRules, task, raw).Ok? ==> RoleFor(TaskRules, task, raw).value in RoleKeys
    ensures RoleFor(TaskRules, task, raw).Ok? <==> (task.VDict? || task.VStr? || task.VList?)
    ensures task.VNone? ==> RoleFor(TaskRules, task, raw) == Err("TypeError")
    ensures PyIn("test", task) == Ok(true) ==> RoleFor(TaskRules, task, raw) == Ok("qa_engineer")
    ensures (RoleFor(TaskRules, task, raw).Ok? && forall k :: k in RuleKeywords(TaskRules) ==> PyIn(k, task) == Ok(false)) ==>
      RoleFor(TaskRules, task, raw).value == (if AnyContained(raw, FrontendCues) then "frontend_dev" else "backend_dev")
  {
    RoleForProps(TaskRules, task, raw);
    if RoleFor(TaskRules, task, raw).Ok? {
      var role := RoleFor(TaskRules, task, raw).value;
      if exists i :: 0 <= i < |TaskRules| && role == TaskRules[i].1 {
        var i :| 0 <= i < |TaskRules| && role == TaskRules[i].1;
        assert role in RoleKeys;
      }
    }
  }

  // ---------------------------------------------------------------------------
  // _recommend_framework

  /** `v[0]` on a sequence-like YAML value. */
  function First(v: Value): Result<Value>
  {
    match v
    case VList(items) => if items == [] then Err("IndexError") else Ok(items[0])
    case VStr(s) => if s == "" then Err("IndexError") else Ok(VStr([s[0]]))
    case VDict(_) => Err("KeyError")
    case _ => Err("TypeError")
  }

  /** The first framework listed under `kind`, 'standard library' when the kind is missing. */
  function FirstFramework(frameworks: Value, kind: string): Result<Value>
  {
    match DGet(frameworks, kind, VList([VStr(StandardLibrary)]))
    case Err(e) => Err(e)
    case Ok(listed) => First(listed)
  }

  /** `_recommend_framework`: the language's testing, performance or web framework. */
  function RecommendFramework(data: Value, language: Value, taskType: Value): Result<Value>
  {
    if !language.VStr? then Err("AttributeError")
    else
      match DGet(data, "languages", VDict(map[]))
      case Err(e) => Err(e)
      case Ok(languages) =>
        match DGet(languages, Lower(language.s), VNone)
        case Err(e) => Err(e)
        case Ok(config) =>
          if !Truthy(config) then Ok(VStr(StandardLibrary))
          else
            match DGet(config, "frameworks", VDict(map[]))
            case Err(e) => Err(e)
            case Ok(frameworks) =>
              match PyIn("test", taskType)
              case Err(e) => Err(e)
              case Ok(isTest) =>
                if isTest then FirstFramework(frameworks, "testing")
                else
                  match PyIn("performance", taskType)
                  case Err(e) => Err(e)
                  case Ok(isPerf) =>
                    FirstFramework(frameworks, if isPerf then "performance" else "web")
  }

  /**
   * A language the data does not configure gets 'standard library'; the language is
   * matched case-insensitively; a testing task gets the first testing framework, a
   * performance task the first performance framework, any other task the first web one.
   */
  lemma RecommendFrameworkProps(data: Value, l: string, taskType: Value)
    ensures data.VDict? ==> RecommendFramework(data, VStr(l), taskType) == RecommendFramework(data, VStr(Lower(l)), taskType)
    ensures data == VDict(map[]) ==> RecommendFramework(data, VStr(l), taskType) == Ok(VStr(StandardLibrary))
    ensures (data.VDict? && "languages" in data.entries && data.entries["languages"].VDict? &&
             Lower(l) !in data.entries["languages"].entries) ==>
      RecommendFramework(data, VStr(l), taskType) == Ok(VStr(StandardLibrary))
    ensures var r := RecommendFramework(data, VStr(l), taskType);
      r.Ok? && r != Ok(VStr(StandardLibrary)) ==>
        var config := data.entries["languages"].entries[Lower(l)];
        var frameworks := Get(config.entries, "frameworks", VDict(map[]));
        var kind := if PyIn("test", taskType) == Ok(true) then "testing"
                    else if PyIn("performance", taskType) == Ok(true) then "performance" else "web";
        r == FirstFramework(frameworks, kind)
  {
    LowerIdempotent(l);
  }

  // ---------------------------------------------------------------------------
  // generate

  /** Each placeholder is replaced only when present, as `if p in s: s = s.replace(p, x)`. */
  function ReplaceIfPresent(s: string, pat: string, rep: string): string
    requires pat != []
  {
    if Contains(s, pat) then Replace(s, pat, rep) else s
  }

  /** Lines 57-73: the language, framework and tool everywhere, the quoted raw input, then the fixed fillers. */
  function FillTemplate(template: string, language: string, framework: string, tool: string, raw: string): string
  {
    var t := Replace(Replace(Replace(template, "{language}", language), "{framework}", framework), "{tool}", tool);
    var t := ReplaceIfPresent(t, "{feature}", "'" + raw + "'");
    var t := ReplaceIfPresent(t, "{target}", "the specified target");
    var t := ReplaceIfPresent(t, "{stages}", "build, test, deploy");
    var t := ReplaceIfPresent(t, "{load}", "1000");
    ReplaceIfPresent(t, "{type}", "script")
  }

  predicate NoBrace(s: string)
  {
    forall i :: 0 <= i < |s| ==> s[i] != '{'
  }

  lemma {:induction false} NoBraceNoPlaceholder(s: string, p: string)
    requires p != [] && p[0] == '{' && NoBrace(s)
    ensures !Contains(s, p)
    decreases |s|
  {
    if |s| > 0 {
      NoBraceNoPlaceholder(s[1..], p);
    }
  }

  lemma NoBraceUnchanged(s: string, p: string, rep: string)
    requires p != [] && p[0] == '{' && NoBrace(s)
    ensures Replace(s, p, rep) == s && ReplaceIfPresent(s, p, rep) == s
  {
    NoBraceNoPlaceholder(s, p);
    ReplaceAbsent(s, p, rep);
  }

  /** A template without placeholders is left as written. */
  lemma FillTemplateNoPlaceholders(template: string, language: string, framework: string, tool: string, raw: string)
    requires NoBrace(template)
    ensures FillTemplate(template, language, framework, tool, raw) == template
  {
    NoBraceUnchanged(template, "{language}", language);
    NoBraceUnchanged(template, "{framework}", framework);
    NoBraceUnchanged(template, "{tool}", tool);
    NoBraceUnchanged(template, "{feature}", "'" + raw + "'");
    NoBraceUnchanged(template, "{target}", "the specified target");
    NoBraceUnchanged(template, "{stages}", "build, test, deploy");
    NoBraceUnchanged(template, "{load}", "1000");
    NoBraceUnchanged(template, "{type}", "script");
  }

  /** The `{feature}` placeholder becomes the quoted raw input. */
  lemma FillTemplateFeature(language: string, framework: string, tool: string, raw: string)
    requires NoBrace(raw)
    ensures FillTemplate("{feature}", language, framework, tool, raw) == "'" + raw + "'"
  {
    var f := "{feature}";
    FeatureKept("{language}", language);
    FeatureKept("{framework}", framework);
    FeatureKept("{tool}", tool);
    var q := "'" + raw + "'";
    ContainsSelf(f);
    assert Replace(f, f, q) == q + Replace([], f, q);
    assert ReplaceIfPresent(f, f, q) == q;
    QuotedKept(raw);
  }

  /** The language, framework and tool replacements leave a lone `{feature}` alone. */
  lemma FeatureKept(p: string, rep: string)
    requires p == "{language}" || p == "{framework}" || p == "{tool}"
    ensures Replace("{feature}", p, rep) == "{feature}"
  {
    var f := "{feature}";
    NoBraceUnchanged(f[1..], p, rep);
    if |p| <= |f| {
      assert f[..|p|] != p by { assert f[1] != p[1]; }
      assert Replace(f, p, rep) == [f[0]] + Replace(f[1..], p, rep);
    }
  }

  /** The fixed fillers leave a quoted raw input without braces alone. */
  lemma QuotedKept(raw: string)
    requires NoBrace(raw)
    ensures var q := "'" + raw + "'";
      ReplaceIfPresent(ReplaceIfPresent(ReplaceIfPresent(ReplaceIfPresent(q, "{target}", "the specified target"),
        "{stages}", "build, test, deploy"), "{load}", "1000"), "{type}", "script") == q
  {
    var q := "'" + raw + "'";
    assert NoBrace(q);
    NoBraceUnchanged(q, "{target}", "the specified target");
    NoBraceUnchanged(q, "{stages}", "build, test, deploy");
    NoBraceUnchanged(q, "{load}", "1000");
    NoBraceUnchanged(q, "{type}", "script");
  }

  // A template seen as text pieces and `{name}` slots, to state what filling does everywhere.

  datatype Piece = Text(t: string) | Slot(name: string)

  function Render(ps: seq<Piece>): string
  {
    if ps == [] then "" else (if ps[0].Text? then ps[0].t else "{" + ps[0].name + "}") + Render(ps[1..])
  }

  /** A placeholder name holds neither `{` nor `}`. */
  predicate SlotName(name: string)
  {
    NoBrace(name) && forall k :: 0 <= k < |name| ==> name[k] != '}'
  }

  /** Text pieces hold no `{`: the slots are exactly the template's placeholders. */
  predicate WellFormed(ps: seq<Piece>)
  {
    forall i :: 0 <= i < |ps| ==> if ps[i].Text? then NoBrace(ps[i].t) else SlotName(ps[i].name)
  }

  /** The value lines 57-73 put in for a placeholder name, if they handle it. */
  function SlotValue(name: string, language: string, framework: string, tool: string, raw: string): Option<string>
  {
    if name == "language" then Some(language)
    else if name == "framework" then Some(framework)
    else if name == "tool" then Some(tool)
    else if name == "feature" then Some("'" + raw + "'")
    else if name == "target" then Some("the specified target")
    else if name == "stages" then Some("build, test, deploy")
    else if name == "load" then Some("1000")
    else if name == "type" then Some("script")
    else None
  }

  /** Every handled slot becomes its value; text and every other slot stay. */
  function Fill(ps: seq<Piece>, language: string, framework: string, tool: string, raw: string): seq<Piece>
  {
    if ps == [] then []
    else
      var p := if ps[0].Slot? && SlotValue(ps[0].name, language, framework, tool, raw).Some?
        then Text(SlotValue(ps[0].name, language, framework, tool, raw).value) else ps[0];
      [p] + Fill(ps[1..], language, framework, tool, raw)
  }

  /** One replacement of `{name}` by `rep`, piece by piece. */
  function Substitute(ps: seq<Piece>, name: string, rep: string): seq<Piece>
  {
    if ps == [] then []
    else [if ps[0] == Slot(name) then Text(rep) else ps[0]] + Substitute(ps[1..], name, rep)
  }

  lemma {:induction false} ReplaceText(lit: string, rest: string, pat: string, rep: string)
    requires pat != [] && pat[0] == '{' && NoBrace(lit)
    ensures Replace(lit + rest, pat, rep) == lit + Replace(rest, pat, rep)
    decreases |lit|
  {
    if lit == [] {
      assert lit + rest == rest;
    } else {
      var s := lit + rest;
      assert s[0] == lit[0] != '{';
      if |s| < |pat| {
        assert Replace(rest, pat, rep) == rest;
      } else {
        assert s[..|pat|] != pat by {
          assert s[..|pat|][0] == lit[0];
        }
        assert Replace(s, pat, rep) == [lit[0]] + Replace(s[1..], pat, rep);
        assert s[1..] == lit[1..] + rest;
        ReplaceText(lit[1..], rest, pat, rep);
        assert [lit[0]] + (lit[1..] + Replace(rest, pat, rep)) == lit + Replace(rest, pat, rep);
      }
    }
  }

  lemma ReplaceSlot(name: string, rest: string, pn: string, rep: string)
    requires SlotName(name) && SlotName(pn)
    ensures var pat := "{" + pn + "}";
      Replace("{" + name + "}" + rest, pat, rep) == (if name == pn then rep else "{" + name + "}") + Replace(rest, pat, rep)
  {
    var pat := "{" + pn + "}";
    var s := "{" + name + "}" + rest;
    if name == pn {
      assert s[..|pat|] == pat && s[|pat|..] == rest;
    } else if |s| < |pat| {
      assert Replace(rest, pat, rep) == rest;
    } else {
      SlotMismatch(name, pn, rest);
      assert s[1..] == (name + "}") + rest;
      ReplaceText(name + "}", rest, pat, rep);
    }
  }

  /** A slot of another name does not start with the placeholder. */
  lemma SlotMismatch(name: string, pn: string, rest: string)
    requires SlotName(name) && SlotName(pn) && name != pn
    requires |"{" + name + "}" + rest| >= |"{" + pn + "}"|
    ensures ("{" + name + "}" + rest)[..|"{" + pn + "}"|] != "{" + pn + "}"
  {
    var pat := "{" + pn + "}";
    var s := "{" + name + "}" + rest;
    if |name| < |pn| {
      assert s[|name| + 1] == '}' && pat[|name| + 1] == pn[|name|] != '}';
      assert s[..|pat|][|name| + 1] != pat[|name| + 1];
    } else if |name| > |pn| {
      assert pat[|pn| + 1] == '}' && s[|pn| + 1] == name[|pn|] != '}';
      assert s[..|pat|][|pn| + 1] != pat[|pn| + 1];
    } else {
      assert s[..|pat|] == "{" + name + "}";
      assert ("{" + name + "}")[1..|name| + 1] == name && pat[1..|pn| + 1] == pn;
    }
  }

  /** Replacing one placeholder in the rendered template is substituting its slots. */
  lemma {:induction false} ReplaceRender(ps: seq<Piece>, pn: string, rep: string)
    requires WellFormed(ps) && SlotName(pn) && NoBrace(rep)
    ensures Replace(Render(ps), "{" + pn + "}", rep) == Render(Substitute(ps, pn, rep))
    ensures ReplaceIfPresent(Render(ps), "{" + pn + "}", rep) == Render(Substitute(ps, pn, rep))
    ensures WellFormed(Substitute(ps, pn, rep))
    decreases |ps|
  {
    var pat := "{" + pn + "}";
    if ps != [] {
      assert WellFormed(ps[1..]) by {
        forall i | 0 <= i < |ps[1..]| ensures ps[1..][i] == ps[i + 1] { }
      }
      ReplaceRender(ps[1..], pn, rep);
      if ps[0].Text? {
        ReplaceText(ps[0].t, Render(ps[1..]), pat, rep);
      } else {
        ReplaceSlot(ps[0].name, Render(ps[1..]), pn, rep);
      }
      var sub := Substitute(ps, pn, rep);
      assert sub[1..] == Substitute(ps[1..], pn, rep);
      forall i | 0 <= i < |sub|
        ensures if sub[i].Text? then NoBrace(sub[i].t) else SlotName(sub[i].name)
      {
        if i > 0 {
          assert sub[i] == Substitute(ps[1..], pn, rep)[i - 1];
        }
      }
    }
    ReplaceIfPresentIsReplace(Render(ps), pat, rep);
  }

  lemma ReplaceIfPresentIsReplace(s: string, pat: string, rep: string)
    requires pat != []
    ensures ReplaceIfPresent(s, pat, rep) == Replace(s, pat, rep)
  {
    if !Contains(s, pat) {
      ReplaceAbsent(s, pat, rep);
    }
  }

  /** The eight substitutions in the order of lines 57-73 fill every handled slot. */
  lemma {:induction false} SubstituteAll(ps: seq<Piece>, language: string, framework: string, tool: string, raw: string)
    ensures Substitute(Substitute(Substitute(Substitute(Substitute(Substitute(Substitute(Substitute(ps,
      "language", language), "framework", framework), "tool", tool), "feature", "'" + raw + "'"),
      "target", "the specified target"), "stages", "build, test, deploy"), "load", "1000"), "type", "script")
      == Fill(ps, language, framework, tool, raw)
    decreases |ps|
  {
    if ps != [] {
      SubstituteAll(ps[1..], language, framework, tool, raw);
    }
  }

  /**
   * Filling a template replaces every `{language}`, `{framework}`, `{tool}` and
   * `{feature}` (and the four fixed fillers) wherever they occur, and keeps all other
   * text and placeholders, provided the values put in hold no `{` themselves.
   */
  lemma FillTemplateSlots(ps: seq<Piece>, language: string, framework: string, tool: string, raw: string)
    requires WellFormed(ps) && NoBrace(language) && NoBrace(framework) && NoBrace(tool) && NoBrace(raw)
    ensures FillTemplate(Render(ps), language, framework, tool, raw) == Render(Fill(ps, language, framework, tool, raw))
  {
    var q := "'" + raw + "'";
    assert NoBrace(q);
    var p3 := Substitute(Substitute(Substitute(ps, "language", language), "framework", framework), "tool", tool);
    var p4 := Substitute(p3, "feature", q);
    var p5 := Substitute(p4, "target", "the specified target");
    var p6 := Substitute(p5, "stages", "build, test, deploy");
    var p7 := Substitute(p6, "load", "1000");
    var p8 := Substitute(p7, "type", "script");
    FillFirstThree(ps, language, framework, tool);
    FillNames();
    var t3 := Replace(Replace(Replace(Render(ps), "{language}", language), "{framework}", framework), "{tool}", tool);
    ReplaceRender(p3, "feature", q);
    var t4 := ReplaceIfPresent(t3, "{feature}", q);
    ReplaceRender(p4, "target", "the specified target");
    var t5 := ReplaceIfPresent(t4, "{target}", "the specified target");
    ReplaceRender(p5, "stages", "build, test, deploy");
    var t6 := ReplaceIfPresent(t5, "{stages}", "build, test, deploy");
    ReplaceRender(p6, "load", "1000");
    var t7 := ReplaceIfPresent(t6, "{load}", "1000");
    ReplaceRender(p7, "type", "script");
    assert ReplaceIfPresent(t7, "{type}", "script") == Render(p8);
    assert FillTemplate(Render(ps), language, framework, tool, raw) == ReplaceIfPresent(t7, "{type}", "script");
    SubstituteAll(ps, language, framework, tool, raw);
  }

  /** The unconditional replacements of lines 57-59. */
  lemma FillFirstThree(ps: seq<Piece>, language: string, framework: string, tool: string)
    requires WellFormed(ps) && NoBrace(language) && NoBrace(framework) && NoBrace(tool)
    ensures var p3 := Substitute(Substitute(Substitute(ps, "language", language), "framework", framework), "tool", tool);
      Replace(Replace(Replace(Render(ps), "{language}", language), "{framework}", framework), "{tool}", tool) == Render(p3)
      && WellFormed(p3)
  {
    var p1 := Substitute(ps, "language", language);
    var p2 := Substitute(p1, "framework", framework);
    FillNames();
    ReplaceRender(ps, "language", language);
    ReplaceRender(p1, "framework", framework);
    ReplaceRender(p2, "tool", tool);
  }

  /** The handled placeholders, braced, and their names are valid slot names. */
  lemma FillNames()
    ensures "{" + "language" + "}" == "{language}" && "{" + "framework" + "}" == "{framework}"
    ensures "{" + "tool" + "}" == "{tool}" && "{" + "feature" + "}" == "{feature}"
    ensures "{" + "target" + "}" == "{target}" && "{" + "stages" + "}" == "{stages}"
    ensures "{" + "load" + "}" == "{load}" && "{" + "type" + "}" == "{type}"
    ensures SlotName("language") && SlotName("framework") && SlotName("tool") && SlotName("feature")
    ensures SlotName("target") && SlotName("stages") && SlotName("load") && SlotName("type")
  {
  }

  /** `roles[role_key]['description']`, with the generic expert text as default. */
  function RoleDescription(data: Value, roleKey: string): Result<Value>
  {
    match DGet(data, "roles", VDict(map[]))
    case Err(e) => Err(e)
    case Ok(roles) =>
      match DGet(roles, roleKey, VDict(map[]))
      case Err(e) => Err(e)
      case Ok(roleData) => DGet(roleData, "description", VStr(DefaultRole))
  }

  /** `tasks[task_type]['template']`, '' by default; a list or dict task is unhashable. */
  function TaskTemplate(data: Value, taskType: Value): Result<Value>
  {
    match DGet(data, "tasks", VDict(map[]))
    case Err(e) => Err(e)
    case Ok(tasks) =>
      if !tasks.VDict? then Err("AttributeError")
      else if taskType.VList? || taskType.VDict? then Err("TypeError")
      else
        var entry := if taskType.VStr? then Get(tasks.entries, taskType.s, VDict(map[])) else VDict(map[]);
        DGet(entry, "template", VStr(""))
  }

  /** The intent's framework, or the recommendation when it is absent or 'standard library'. */
  function ChosenFramework(data: Value, intent: Dict, taskType: Value): Result<Value>
  {
    var given := Get(intent, "framework", VStr(StandardLibrary));
    if given == VStr(StandardLibrary) then RecommendFramework(data, Get(intent, "language", VStr("Python")), taskType)
    else Ok(given)
  }

  datatype Metadata = Metadata(role: string, task: Value, language: Value, framework: Value)
  datatype Generated = Generated(prompt: string, kind: string, metadata: Metadata)

  function TextOf(v: Value): string
  {
    if v.VStr? then v.s else ""
  }

  /** `generate`: the role description, the filled task, the raw input and the fixed constraints. */
  function Generate(data: Value, intent: Dict, repr: Value -> string): Result<Generated>
  {
    match DetermineRole(intent)
    case Err(e) => Err(e)
    case Ok(roleKey) =>
      match RoleDescription(data, roleKey)
      case Err(e) => Err(e)
      case Ok(roleDesc) =>
        var taskType := Get(intent, "software_task", VStr("code_generation"));
        match TaskTemplate(data, taskType)
        case Err(e) => Err(e)
        case Ok(template) =>
          match ChosenFramework(data, intent, taskType)
          case Err(e) => Err(e)
          case Ok(framework) =>
            var language := Get(intent, "language", VStr("Python"));
            var tool := Get(intent, "tool", VStr("tool"));
            if !template.VStr? then Err("AttributeError")
            else if !language.VStr? || !framework.VStr? || !tool.VStr? then Err("TypeError")
            else
              var raw := TextOf(Get(intent, "raw_input", VStr("")));
              var taskDesc := FillTemplate(template.s, language.s, framework.s, tool.s, raw);
              Ok(Generated(
                Str(roleDesc, repr) + "\n\nTask:\n" + taskDesc + "\n\nInput Context:\n" + raw + Constraints,
                "software",
                Metadata(roleKey, taskType, language, framework)))
  }

  /**
   * The metadata records the role, the software task (default code_generation), the language
   * (default Python) and the framework, which is the intent's own unless it is absent or
   * 'standard library'.
   */
  lemma GenerateMetadata(data: Value, intent: Dict, repr: Value -> string)
    ensures var r := Generate(data, intent, repr);
      r.Ok? ==>
        DetermineRole(intent).Ok? && r.value.metadata.role == DetermineRole(intent).value
        && r.value.metadata.role in RoleKeys
        && r.value.kind == "software"
        && r.value.metadata.task == (if "software_task" in intent then intent["software_task"] else VStr("code_generation"))
        && r.value.metadata.language == (if "language" in intent then intent["language"] else VStr("Python"))
    ensures var r := Generate(data, intent, repr);
      r.Ok? && "framework" in intent && intent["framework"] != VStr(StandardLibrary) ==>
        r.value.metadata.framework == intent["framework"]
    ensures var r := Generate(data, intent, repr);
      r.Ok? && ("framework" !in intent || intent["framework"] == VStr(StandardLibrary)) ==>
        Ok(r.value.metadata.framework) == RecommendFramework(data, r.value.metadata.language, r.value.metadata.task)
  {
    var r := Generate(data, intent, repr);
    if r.Ok? {
      assert DetermineRole(intent).Ok?;
      RoleInKeys(intent);
      var taskType := Get(intent, "software_task", VStr("code_generation"));
      assert ChosenFramework(data, intent, taskType).Ok?;
      assert r.value.metadata == Metadata(DetermineRole(intent).value, taskType,
        Get(intent, "language", VStr("Python")), ChosenFramework(data, intent, taskType).value);
    }
  }

  lemma RoleInKeys(intent: Dict)
    ensures DetermineRole(intent).Ok? ==> DetermineRole(intent).value in RoleKeys
  {
    DetermineRoleProps(intent);
  }

  /**
   * The prompt's layout: the role description (the generic expert text without data),
   * the task template filled with the metadata's language and framework, the intent's
   * tool and the raw input, then the raw input and the constraints.
   */
  lemma GeneratePrompt(data: Value, intent: Dict, repr: Value -> string)
    ensures var r := Generate(data, intent, repr);
      r.Ok? ==>
        RoleDescription(data, r.value.metadata.role).Ok? && TaskTemplate(data, r.value.metadata.task).Ok?
        && TaskTemplate(data, r.value.metadata.task).value.VStr?
        && r.value.metadata.language.VStr? && r.value.metadata.framework.VStr? && Get(intent, "tool", VStr("tool")).VStr?
        && r.value.prompt ==
          Str(RoleDescription(data, r.value.metadata.role).value, repr) + "\n\nTask:\n"
          + FillTemplate(TaskTemplate(data, r.value.metadata.task).value.s, r.value.metadata.language.s,
              r.value.metadata.framework.s, Get(intent, "tool", VStr("tool")).s, TextOf(Get(intent, "raw_input", VStr(""))))
          + "\n\nInput Context:\n" + TextOf(Get(intent, "raw_input", VStr(""))) + Constraints
    ensures forall role :: RoleDescription(VDict(map[]), role) == Ok(VStr(DefaultRole))
  {
    var r := Generate(data, intent, repr);
    if r.Ok? {
      GenerateMetadata(data, intent, repr);
      var taskType := Get(intent, "software_task", VStr("code_generation"));
      assert r.value.metadata.task == taskType;
      assert ChosenFramework(data, intent, taskType).Ok?;
      assert r.value.metadata.framework == ChosenFramework(data, intent, taskType).value;
    }
  }

  /** Without a task the role decision crashes: `'test' in None`. */
  lemma GenerateWithoutTask(data: Value, intent: Dict, repr: Value -> string)
    requires Get(intent, "raw_input", VStr("")).VStr? && Get(intent, "software_task", VStr("")).VNone?
    ensures Generate(data, intent, repr) == Err("TypeError")
  {
    DetermineRoleProps(intent);
  }
}
