/**
 * `DesignVariableBridge`: merges the elements the cross-domain query found with the
 * design variables the YAML sampler picked, and writes the final design prompt.
 *
 * The query's result is an insertion-ordered dict from domain to elements, here a
 * sequence of (domain, elements) pairs.
 */
module DesignBridge {
  import opened Wrappers
  import opened Text
  import opened Seqs
  import opened PyValue
  import opened ElementLookup
  import Query = CrossDomainQuery
  import Yaml = YamlSampler

  /** A content or technical entry of the merged structure. */
  datatype Item = Item(domain: string, category: string, template: string, chineseName: string)

  /** A design entry: its type (color, border, decoration) and description. */
  datatype DesignItem = DesignItem(kind: string, description: string)

  datatype Merged = Merged(content: seq<Item>, design: seq<DesignItem>, technical: seq<Item>)

  /** Elements grouped by domain, in dict order. */
  type Grouped = seq<(string, seq<Element>)>

  // ---------------------------------------------------------------------------
  // Routing elements

  function Pairs(domain: string, es: seq<Element>): seq<(string, Element)>
  {
    seq(|es|, k requires 0 <= k < |es| => (domain, es[k]))
  }

  /** Every (domain, element) pair, in the order the nested loops visit them. */
  function Flatten(g: Grouped): seq<(string, Element)>
  {
    if g == [] then [] else Flatten(g[..|g| - 1]) + Pairs(g[|g| - 1].0, g[|g| - 1].1)
  }

  /** Portrait, video and art elements are the prompt's content. */
  predicate ContentDomain(domain: string)
  {
    domain == "portrait" || domain == "video" || domain == "art"
  }

  /** Common-domain lighting and photography elements are its technical parameters. */
  predicate TechnicalElement(domain: string, category: string)
  {
    domain == "common" && (Contains(category, "lighting") || Contains(category, "photography"))
  }

  function ItemOf(p: (string, Element)): Item
  {
    Item(p.0, p.1.category, p.1.template, p.1.chineseName)
  }

  function ContentOf(flat: seq<(string, Element)>): seq<Item>
  {
    if flat == [] then []
    else
      var last := flat[|flat| - 1];
      ContentOf(flat[..|flat| - 1]) + (if ContentDomain(last.0) then [ItemOf(last)] else [])
  }

  function TechnicalOf(flat: seq<(string, Element)>): seq<Item>
  {
    if flat == [] then []
    else
      var last := flat[|flat| - 1];
      TechnicalOf(flat[..|flat| - 1])
        + (if !ContentDomain(last.0) && TechnicalElement(last.0, last.1.category) then [ItemOf(last)] else [])
  }

  /** The merged-structure entry of every visited pair. */
  function Items(flat: seq<(string, Element)>): seq<Item>
  {
    seq(|flat|, k requires 0 <= k < |flat| => ItemOf(flat[k]))
  }

  lemma ItemsSnoc(flat: seq<(string, Element)>)
    requires flat != []
    ensures Items(flat) == Items(flat[..|flat| - 1]) + [ItemOf(flat[|flat| - 1])]
  {
  }

  lemma SubsequenceSnoc<T>(a: seq<T>, b: seq<T>, x: T, keep: bool)
    requires IsSubsequence(a, b)
    ensures IsSubsequence(a + (if keep then [x] else []), b + [x])
  {
    assert IsSubsequence(if keep then [x] else [], [x]) by {
      assert [x][1..] == [];
    }
    SubsequenceConcat(a, b, if keep then [x] else [], [x]);
  }

  /** Content holds exactly the portrait, video and art elements, in visiting order. */
  lemma {:induction false} ContentRouting(flat: seq<(string, Element)>)
    ensures IsSubsequence(ContentOf(flat), Items(flat))
    ensures forall it :: it in ContentOf(flat) ==> ContentDomain(it.domain)
    ensures forall k :: 0 <= k < |flat| && ContentDomain(flat[k].0) ==> ItemOf(flat[k]) in ContentOf(flat)
  {
    if flat != [] {
      var init := flat[..|flat| - 1];
      var last := flat[|flat| - 1];
      ContentRouting(init);
      ItemsSnoc(flat);
      SubsequenceSnoc(ContentOf(init), Items(init), ItemOf(last), ContentDomain(last.0));
      assert forall k :: 0 <= k < |init| ==> init[k] == flat[k];
    }
  }

  /** Technical holds exactly the common lighting and photography elements, in visiting order. */
  lemma {:induction false} TechnicalRouting(flat: seq<(string, Element)>)
    ensures IsSubsequence(TechnicalOf(flat), Items(flat))
    ensures forall it :: it in TechnicalOf(flat) ==> TechnicalElement(it.domain, it.category)
    ensures forall k :: 0 <= k < |flat| && TechnicalElement(flat[k].0, flat[k].1.category) ==>
      ItemOf(flat[k]) in TechnicalOf(flat)
  {
    if flat != [] {
      var init := flat[..|flat| - 1];
      var last := flat[|flat| - 1];
      TechnicalRouting(init);
      ItemsSnoc(flat);
      SubsequenceSnoc(TechnicalOf(init), Items(init), ItemOf(last),
                      !ContentDomain(last.0) && TechnicalElement(last.0, last.1.category));
      assert forall k :: 0 <= k < |init| ==> init[k] == flat[k];
    }
  }

  /** No element is routed twice: the two sections together are no longer than the input. */
  lemma {:induction false} RoutingDisjoint(flat: seq<(string, Element)>)
    ensures |ContentOf(flat)| + |TechnicalOf(flat)| <= |flat|
  {
    if flat != [] {
      RoutingDisjoint(flat[..|flat| - 1]);
    }
  }

  /** Design and product elements never reach the prompt. */
  lemma DesignAndProductDropped(flat: seq<(string, Element)>)
    ensures forall it :: it in ContentOf(flat) + TechnicalOf(flat) ==> it.domain != "design" && it.domain != "product"
  {
    ContentRouting(flat);
    TechnicalRouting(flat);
  }

  // ---------------------------------------------------------------------------
  // Design entries

  function ColorItems(y: Yaml.Sampled, repr: Value -> string): Result<seq<DesignItem>>
  {
    if y.colors.Some? && Truthy(Yaml.VariantOf(y.colors.value)) then
      match Yaml.VariantOf(y.colors.value)
      case VDict(m) =>
        if "name" in m && "hex" in m then
          Ok([DesignItem("color", "Color scheme: " + Yaml.SchemeNameOf(y.colors.value) + ", primary color "
                                  + Str(m["name"], repr) + " (" + Str(m["hex"], repr) + ")")])
        else Err("KeyError")
      case _ => Err("TypeError")
    else Ok([])
  }

  function BorderItems(y: Yaml.Sampled, repr: Value -> string): Result<seq<DesignItem>>
  {
    if y.borders.Some? then
      match Yaml.Radius(Yaml.BorderConfigOf(y.borders.value))
      case Err(e) => Err(e)
      case Ok(radius) =>
        Ok(if Truthy(radius) then
             [DesignItem("border", "Border style: " + Yaml.BorderNameOf(y.borders.value) + ", border-radius: " + Str(radius, repr))]
           else [])
    else Ok([])
  }

  function DecorationItems(y: Yaml.Sampled): seq<DesignItem>
  {
    if y.decorations.Some? then
      [DesignItem("decoration", "Decorative elements: " + Yaml.DecorationNameOf(y.decorations.value))]
    else []
  }

  /** The design entries, colour before border before decoration; a failed lookup raises. */
  function DesignItems(y: Yaml.Sampled, repr: Value -> string): Result<seq<DesignItem>>
  {
    if ColorItems(y, repr).Err? then Err(ColorItems(y, repr).error)
    else if BorderItems(y, repr).Err? then Err(BorderItems(y, repr).error)
    else Ok(ColorItems(y, repr).value + BorderItems(y, repr).value + DecorationItems(y))
  }

  function Kinds(items: seq<DesignItem>): seq<string>
  {
    seq(|items|, k requires 0 <= k < |items| => items[k].kind)
  }

  /**
   * A colour entry only with a truthy variant, a border entry only with a truthy radius,
   * a decoration entry exactly when decorations were sampled, in that order.
   */
  lemma DesignItemsProps(y: Yaml.Sampled, repr: Value -> string)
    ensures var r := DesignItems(y, repr);
      r.Ok? ==>
        Kinds(r.value) ==
          (if y.colors.Some? && Truthy(Yaml.VariantOf(y.colors.value)) then ["color"] else [])
          + (if y.borders.Some? && Truthy(Yaml.Radius(Yaml.BorderConfigOf(y.borders.value)).value) then ["border"] else [])
          + (if y.decorations.Some? then ["decoration"] else [])
    ensures y.colors.None? && y.borders.None? ==> DesignItems(y, repr).Ok?
  {
    var r := DesignItems(y, repr);
    if r.Ok? {
      var c := ColorItems(y, repr).value;
      var b := BorderItems(y, repr).value;
      var d := DecorationItems(y);
      assert Kinds(c + b + d) == Kinds(c) + Kinds(b) + Kinds(d);
    }
  }

  // ---------------------------------------------------------------------------
  // merge_elements_and_variables

  lemma FlattenStep(g: Grouped, i: nat, j: nat)
    requires i < |g| && j < |g[i].1|
    ensures Flatten(g[..i]) + Pairs(g[i].0, g[i].1[..j + 1])
         == (Flatten(g[..i]) + Pairs(g[i].0, g[i].1[..j])) + [(g[i].0, g[i].1[j])]
  {
    assert Pairs(g[i].0, g[i].1[..j + 1]) == Pairs(g[i].0, g[i].1[..j]) + [(g[i].0, g[i].1[j])];
  }

  lemma FlattenNext(g: Grouped, i: nat)
    requires i < |g|
    ensures Flatten(g[..i + 1]) == Flatten(g[..i]) + Pairs(g[i].0, g[i].1[..|g[i].1|])
  {
    assert g[..i + 1][..i] == g[..i];
    assert g[i].1[..|g[i].1|] == g[i].1;
  }

  /** `merge_elements_and_variables`: elements routed in visiting order, then the design entries. */
  method MergeElementsAndVariables(groups: Grouped, yaml: Yaml.Sampled, repr: Value -> string) returns (r: Result<Merged>)
    ensures DesignItems(yaml, repr).Err? ==> r == Err(DesignItems(yaml, repr).error)
    ensures DesignItems(yaml, repr).Ok? ==>
      r == Ok(Merged(ContentOf(Flatten(groups)), DesignItems(yaml, repr).value, TechnicalOf(Flatten(groups))))
  {
    var content: seq<Item> := [];
    var technical: seq<Item> := [];
    var i := 0;
    while i < |groups|
      invariant 0 <= i <= |groups|
      invariant content == ContentOf(Flatten(groups[..i]))
      invariant technical == TechnicalOf(Flatten(groups[..i]))
    {
      var (domain, elements) := groups[i];
      var j := 0;
      assert Pairs(domain, elements[..0]) == [];
      assert Flatten(groups[..i]) + Pairs(domain, elements[..0]) == Flatten(groups[..i]);
      while j < |elements|
        invariant 0 <= j <= |elements|
        invariant content == ContentOf(Flatten(groups[..i]) + Pairs(domain, elements[..j]))
        invariant technical == TechnicalOf(Flatten(groups[..i]) + Pairs(domain, elements[..j]))
      {
        FlattenStep(groups, i, j);
        ghost var visited := Flatten(groups[..i]) + Pairs(domain, elements[..j]);
        ghost var next := visited + [(domain, elements[j])];
        assert next[..|next| - 1] == visited;
        var category := elements[j].category;
        if domain == "portrait" || domain == "video" || domain == "art" {
          content := content + [Item(domain, category, elements[j].template, elements[j].chineseName)];
        } else if domain == "common" {
          if Contains(category, "lighting") || Contains(category, "photography") {
            technical := technical + [Item(domain, category, elements[j].template, elements[j].chineseName)];
          }
        }
        j := j + 1;
      }
      FlattenNext(groups, i);
      i := i + 1;
    }
    assert groups[..i] == groups;
    var design := DesignItems(yaml, repr);
    if design.Err? {
      return Err(design.error);
    }
    r := Ok(Merged(content, design.value, technical));
  }

  // ---------------------------------------------------------------------------
  // build_final_prompt

  /** The non-empty strings, in order. */
  function NonEmpty(xs: seq<string>): seq<string>
  {
    if xs == [] then []
    else NonEmpty(xs[..|xs| - 1]) + (if xs[|xs| - 1] != "" then [xs[|xs| - 1]] else [])
  }

  lemma {:induction false} NonEmptyProps(xs: seq<string>)
    ensures IsSubsequence(NonEmpty(xs), xs)
    ensures forall x :: x in NonEmpty(xs) <==> x in xs && x != ""
  {
    if xs != [] {
      var init := xs[..|xs| - 1];
      var last := xs[|xs| - 1];
      NonEmptyProps(init);
      assert xs == init + [last];
      var tail := if last != "" then [last] else [];
      assert IsSubsequence(tail, [last]) by {
        assert [last][1..] == [];
      }
      SubsequenceConcat(NonEmpty(init), init, tail, [last]);
    }
  }

  function Templates(items: seq<Item>): seq<string>
  {
    seq(|items|, k requires 0 <= k < |items| => items[k].template)
  }

  function Descriptions(items: seq<DesignItem>): seq<string>
  {
    seq(|items|, k requires 0 <= k < |items| => items[k].description)
  }

  /** The prompt's parts: content templates, then design descriptions, then technical templates, empty ones skipped. */
  function FinalParts(m: Merged): seq<string>
  {
    NonEmpty(Templates(m.content)) + NonEmpty(Descriptions(m.design)) + NonEmpty(Templates(m.technical))
  }

  /**
   * The parts keep the three sections' order and each section's order, and hold every
   * non-empty text and no empty one.
   */
  lemma FinalPartsProps(m: Merged)
    ensures IsSubsequence(FinalParts(m), Templates(m.content) + Descriptions(m.design) + Templates(m.technical))
    ensures forall x :: x in FinalParts(m) <==>
      x != "" && x in Templates(m.content) + Descriptions(m.design) + Templates(m.technical)
  {
    NonEmptyProps(Templates(m.content));
    NonEmptyProps(Descriptions(m.design));
    NonEmptyProps(Templates(m.technical));
    SubsequenceConcat(NonEmpty(Templates(m.content)), Templates(m.content),
                      NonEmpty(Descriptions(m.design)), Descriptions(m.design));
    SubsequenceConcat(NonEmpty(Templates(m.content)) + NonEmpty(Descriptions(m.design)),
                      Templates(m.content) + Descriptions(m.design),
                      NonEmpty(Templates(m.technical)), Templates(m.technical));
  }

  /** `build_final_prompt`. */
  method BuildFinalPrompt(m: Merged) returns (prompt: string)
    ensures prompt == Join(FinalParts(m), ", ")
  {
    var parts: seq<string> := [];
    var i := 0;
    while i < |m.content|
      invariant 0 <= i <= |m.content|
      invariant parts == NonEmpty(Templates(m.content)[..i])
    {
      assert Templates(m.content)[..i + 1][..i] == Templates(m.content)[..i];
      if m.content[i].template != "" {
        parts := parts + [m.content[i].template];
      }
      i := i + 1;
    }
    assert Templates(m.content)[..i] == Templates(m.content);
    ghost var before := parts;
    i := 0;
    while i < |m.design|
      invariant 0 <= i <= |m.design|
      invariant parts == before + NonEmpty(Descriptions(m.design)[..i])
    {
      assert Descriptions(m.design)[..i + 1][..i] == Descriptions(m.design)[..i];
      if m.design[i].description != "" {
        parts := parts + [m.design[i].description];
      }
      i := i + 1;
    }
    assert Descriptions(m.design)[..i] == Descriptions(m.design);
    before := parts;
    i := 0;
    while i < |m.technical|
      invariant 0 <= i <= |m.technical|
      invariant parts == before + NonEmpty(Templates(m.technical)[..i])
    {
      assert Templates(m.technical)[..i + 1][..i] == Templates(m.technical)[..i];
      if m.technical[i].template != "" {
        parts := parts + [m.technical[i].template];
      }
      i := i + 1;
    }
    assert Templates(m.technical)[..i] == Templates(m.technical);
    prompt := Join(parts, ", ");
  }

  // ---------------------------------------------------------------------------
  // generate_design_prompt

  datatype Metadata = Metadata(designStyle: Value, elementCount: nat, domainsUsed: seq<string>)

  datatype DesignPrompt = DesignPrompt(
    prompt: string,
    sqliteElements: seq<(string, seq<Query.QueriedElement>)>,
    yamlVariables: Yaml.Sampled,
    metadata: Metadata)

  function Domains(g: seq<(string, seq<Query.QueriedElement>)>): seq<string>
  {
    seq(|g|, i requires 0 <= i < |g| => g[i].0)
  }

  /** The elements as the merge reads them: each queried element's (possibly filled) dict. */
  function ElementsOf(g: seq<(string, seq<Query.QueriedElement>)>): Grouped
  {
    seq(|g|, i requires 0 <= i < |g| => (g[i].0, seq(|g[i].1|, k requires 0 <= k < |g[i].1| => g[i].1[k].element)))
  }

  /** `sum(len(elems) for elems in ...)`: one count per element, over all domains. */
  function TotalCount(g: seq<(string, seq<Query.QueriedElement>)>): nat
  {
    if g == [] then 0 else TotalCount(g[..|g| - 1]) + |g[|g| - 1].1|
  }

  lemma {:induction false} TotalCountIsFlatLength(g: seq<(string, seq<Query.QueriedElement>)>)
    ensures TotalCount(g) == |Flatten(ElementsOf(g))|
  {
    if g != [] {
      var init := g[..|g| - 1];
      TotalCountIsFlatLength(init);
      assert ElementsOf(g)[..|g| - 1] == ElementsOf(init);
    }
  }

  method CountElements(g: seq<(string, seq<Query.QueriedElement>)>) returns (n: nat)
    ensures n == TotalCount(g) && n == |Flatten(ElementsOf(g))|
  {
    n := 0;
    var i := 0;
    while i < |g|
      invariant 0 <= i <= |g|
      invariant n == TotalCount(g[..i])
    {
      assert g[..i + 1][..i] == g[..i];
      n := n + |g[i].1|;
      i := i + 1;
    }
    assert g[..i] == g;
    TotalCountIsFlatLength(g);
  }

  /** The query's dict as (domain, elements) pairs, each domain once, in some order. */
  method Ordered(m: map<string, seq<Query.QueriedElement>>) returns (g: seq<(string, seq<Query.QueriedElement>)>)
    ensures NoDuplicates(Domains(g))
    ensures forall d :: d in Domains(g) <==> d in m
    ensures forall i :: 0 <= i < |g| ==> g[i].0 in m && g[i].1 == m[g[i].0]
  {
    var domains := ListOf(m.Keys);
    g := [];
    var i := 0;
    while i < |domains|
      invariant 0 <= i <= |domains|
      invariant Domains(g) == domains[..i]
      invariant forall k :: 0 <= k < i ==> g[k].1 == m[domains[k]]
    {
      g := g + [(domains[i], m[domains[i]])];
      i := i + 1;
    }
    assert domains[..i] == domains;
  }

  /** The style passed to the sampler: the intent's `design_style` when the key is present, even when it is None. */
  function DesignStyle(intent: Dict): Value
  {
    Get(intent, "design_style", VStr("温馨可爱"))
  }

  /** The intent query succeeds: the domains are analysed and every required domain is queried. */
  predicate QuerySucceeds(rows: seq<Row>, intent: Dict, repr: Value -> string, sample: string -> Query.SampleOutcome)
  {
    Query.RequiredDomains(intent, repr).Ok?
    && forall d :: d in Query.RequiredDomains(intent, repr).value ==> Query.DomainResult(rows, d, intent, sample).Ok?
  }

  /**
   * `generate_design_prompt`: the query's domains in some order, the YAML variables
   * sampled for the intent's design style (one more history record), and the prompt
   * built from their merge; the metadata counts every element and lists the domains.
   */
  method GenerateDesignPrompt(rows: seq<Row>, intent: Dict, repr: Value -> string,
                              sample: string -> Query.SampleOutcome, sampler: Yaml.YamlVariableSampler)
    returns (r: Result<DesignPrompt>)
    modifies sampler
    ensures r.Ok? ==>
      r.value.metadata.designStyle == (if "design_style" in intent then intent["design_style"] else VStr("温馨可爱"))
    ensures r.Ok? ==>
      |sampler.history| > 0 && sampler.history[|sampler.history| - 1] == Yaml.YamlRecord(DesignStyle(intent), r.value.yamlVariables)
    ensures r.Ok? ==>
      sampler.history == LastN(old(sampler.history) + [Yaml.YamlRecord(DesignStyle(intent), r.value.yamlVariables)], Yaml.MaxHistory)
    // The failures: the query's, then the sampler's, then a design lookup's.
    ensures Query.RequiredDomains(intent, repr).Err? ==>
      r == Err(Query.RequiredDomains(intent, repr).error) && sampler.history == old(sampler.history)
    ensures !QuerySucceeds(rows, intent, repr, sample) ==> r.Err? && sampler.history == old(sampler.history)
    ensures r.Err? && QuerySucceeds(rows, intent, repr, sample) ==>
      (sampler.history == old(sampler.history)
       && Yaml.SamplingRaises(sampler.colors, sampler.borders, sampler.decorations, None, DesignStyle(intent), old(sampler.history), r.error))
      || (exists y :: sampler.history == LastN(old(sampler.history) + [Yaml.YamlRecord(DesignStyle(intent), y)], Yaml.MaxHistory)
                      && DesignItems(y, repr) == Err(r.error))
    ensures (QuerySucceeds(rows, intent, repr, sample)
             && Yaml.SamplingSafe(sampler.colors, sampler.borders, sampler.decorations, None, DesignStyle(intent))) ==>
      r.Ok? || exists y :: sampler.history == LastN(old(sampler.history) + [Yaml.YamlRecord(DesignStyle(intent), y)], Yaml.MaxHistory)
                           && DesignItems(y, repr) == Err(r.error)
    ensures r.Ok? ==>
      var g := r.value.sqliteElements;
      Query.RequiredDomains(intent, repr).Ok?
      && NoDuplicates(Domains(g))
      && (forall d :: d in Domains(g) <==> d in Query.RequiredDomains(intent, repr).value)
      && (forall i :: 0 <= i < |g| ==> Query.DomainResult(rows, g[i].0, intent, sample) == Ok(g[i].1))
    ensures r.Ok? ==>
      r.value.metadata.elementCount == |Flatten(ElementsOf(r.value.sqliteElements))|
      && r.value.metadata.domainsUsed == Domains(r.value.sqliteElements)
    ensures r.Ok? ==>
      var flat := Flatten(ElementsOf(r.value.sqliteElements));
      DesignItems(r.value.yamlVariables, repr).Ok?
      && r.value.prompt == Join(FinalParts(Merged(ContentOf(flat), DesignItems(r.value.yamlVariables, repr).value, TechnicalOf(flat))), ", ")
  {
    var queried := Query.QueryByIntent(rows, intent, repr, sample);
    if queried.Err? {
      return Err(queried.error);
    }
    var g := Ordered(queried.value);
    assert forall i :: 0 <= i < |g| ==> Query.DomainResult(rows, g[i].0, intent, sample) == Ok(g[i].1);
    var style := DesignStyle(intent);
    var yaml := sampler.SampleVariables(style, None);
    if yaml.Err? {
      return Err(yaml.error);
    }
    LastOfLastN(old(sampler.history), Yaml.YamlRecord(style, yaml.value), Yaml.MaxHistory);
    var merged := MergeElementsAndVariables(ElementsOf(g), yaml.value, repr);
    if merged.Err? {
      return Err(merged.error);
    }
    assert DesignItems(yaml.value, repr).Ok?;
    var prompt := BuildFinalPrompt(merged.value);
    var count := CountElements(g);
    r := Ok(DesignPrompt(prompt, g, yaml.value, Metadata(style, count, Domains(g))));
  }
}
