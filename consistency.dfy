/**
 * The generator's consistency rules over a chosen element list: ethnicity against
 * eye colour, ethnicity against hair colour, and repeated categories.
 */
module Consistency {
  import opened Wrappers
  import opened Text
  import opened Seqs
  import opened ElementLookup
  import opened Knowledge

  /** One detected problem; the human-readable description and suggestion texts are not modelled. */
  datatype Issue =
    | EyeMismatch(currentEthnicity: string, currentEye: string, incompatibleColors: seq<string>, typicalEyes: seq<string>)
    | HairMismatch(currentEthnicity: string, currentHair: string, typicalHair: seq<string>)
    | DuplicateCategory(category: string, count: nat)

  function Severity(issue: Issue): string
  {
    match issue
    case EyeMismatch(_, _, _, _) => "medium"
    case HairMismatch(_, _, _) => "low"
    case DuplicateCategory(_, _) => "high"
  }

  /** Categories that may legitimately appear several times. */
  const MultiElementCategories: set<string> := {"lighting_techniques", "photography_techniques"}

  /** The eye colours an ethnicity should not show, given the lowercased eye template. */
  function IncompatibleEyeColours(ethnicity: string, eyeTemplate: string): seq<string>
  {
    if ethnicity == "East_Asian" then
      if Contains(eyeTemplate, "green") || Contains(eyeTemplate, "blue") || Contains(eyeTemplate, "violet")
      then ["green", "blue", "violet"] else []
    else if ethnicity == "African" then
      if Contains(eyeTemplate, "blue") || Contains(eyeTemplate, "green") then ["blue", "green"] else []
    else []
  }

  function TypicalEyesOrBrown(ethnicity: string): seq<string>
  {
    match TypicalEyes(ethnicity)
    case Some(t) => t
    case None => ["brown"]
  }

  function TypicalHairOrEmpty(ethnicity: string): seq<string>
  {
    match TypicalHair(ethnicity)
    case Some(t) => t
    case None => []
  }

  /** The eye rule, applied to the first ethnicity and the first eye element. */
  function EyeIssues(elements: seq<Element>): seq<Issue>
  {
    var eth := FindElementByCategory(elements, "ethnicity");
    var eye := FindElementByCategory(elements, "eye_types");
    if eth.None? || eye.None? then []
    else
      var name := ExtractEthnicityName(eth.value.name);
      var incompatible := IncompatibleEyeColours(name, Lower(eye.value.template));
      if incompatible == [] then []
      else [EyeMismatch(eth.value.chineseName, eye.value.template, incompatible, TypicalEyesOrBrown(name))]
  }

  /** The hair rule, applied to the first ethnicity and the first hair-colour element. */
  function HairIssues(elements: seq<Element>): seq<Issue>
  {
    var eth := FindElementByCategory(elements, "ethnicity");
    var hair := FindElementByCategory(elements, "hair_colors");
    if eth.None? || hair.None? then []
    else
      var typical := TypicalHairOrEmpty(ExtractEthnicityName(eth.value.name));
      if AnyContained(Lower(hair.value.template), typical) then []
      else [HairMismatch(eth.value.chineseName, hair.value.template, typical)]
  }

  /** The categories of the elements, in element order. */
  function Cats(elements: seq<Element>): (r: seq<string>)
    ensures |r| == |elements|
    ensures forall i :: 0 <= i < |r| ==> r[i] == elements[i].category
  {
    if elements == [] then [] else [elements[0].category] + Cats(elements[1..])
  }

  /** Number of elements of category `c`. */
  function CatCount(elements: seq<Element>, c: string): nat
  {
    Count(Cats(elements), c)
  }

  lemma CatsAppend(a: seq<Element>, b: seq<Element>)
    ensures Cats(a + b) == Cats(a) + Cats(b)
  {
  }

  function DuplicateFor(c: string, elements: seq<Element>): seq<Issue>
  {
    if CatCount(elements, c) > 1 && c !in MultiElementCategories
    then [DuplicateCategory(c, CatCount(elements, c))] else []
  }

  /** Duplicate issues for the listed categories, in list order. */
  function DuplicateIssuesOf(order: seq<string>, elements: seq<Element>): seq<Issue>
  {
    if order == [] then []
    else DuplicateIssuesOf(order[..|order| - 1], elements) + DuplicateFor(order[|order| - 1], elements)
  }

  /** The duplicate rule: categories in first-occurrence order (Python dict order). */
  function DuplicateIssues(elements: seq<Element>): seq<Issue>
  {
    DuplicateIssuesOf(Dedupe(Cats(elements)), elements)
  }

  /** Everything `check_consistency` reports, in its order. */
  function ConsistencyIssues(elements: seq<Element>): seq<Issue>
  {
    EyeIssues(elements) + HairIssues(elements) + DuplicateIssues(elements)
  }

  /** The `category_counts` loop: counts per category, and the categories in first-occurrence order. */
  method CountCategories(elements: seq<Element>) returns (counts: map<string, nat>, order: seq<string>)
    ensures order == Dedupe(Cats(elements))
    ensures forall c :: c in counts <==> c in order
    ensures forall c :: c in counts ==> counts[c] == CatCount(elements, c)
  {
    counts := map[];
    order := [];
    var cats := Cats(elements);
    var i := 0;
    while i < |cats|
      invariant 0 <= i <= |cats|
      invariant order == Dedupe(cats[..i])
      invariant forall c :: c in counts <==> c in order
      invariant forall c :: c in counts ==> counts[c] == Count(cats[..i], c)
    {
      var c := cats[i];
      PrefixStep(cats, i);
      var prev := counts;
      if c !in counts {
        order := order + [c];
        counts := counts[c := 1];
      } else {
        counts := counts[c := counts[c] + 1];
      }
      forall d | d in counts
        ensures counts[d] == Count(cats[..i + 1], d)
      {
        if d != c {
          assert d in prev && counts[d] == prev[d];
        }
      }
      i := i + 1;
    }
    assert cats[..i] == cats;
  }

  /** The ethnicity/eye-colour rule of `check_consistency`. */
  method CheckEyeRule(elements: seq<Element>) returns (issues: seq<Issue>)
    ensures issues == EyeIssues(elements)
  {
    issues := [];
    var eth := FindElementByCategory(elements, "ethnicity");
    var eye := FindElementByCategory(elements, "eye_types");
    if eth.Some? && eye.Some? {
      var name := ExtractEthnicityName(eth.value.name);
      var eyeTemplate := Lower(eye.value.template);
      var incompatible: seq<string> := [];
      if name == "East_Asian" {
        if Contains(eyeTemplate, "green") || Contains(eyeTemplate, "blue") || Contains(eyeTemplate, "violet") {
          incompatible := ["green", "blue", "violet"];
        }
      } else if name == "African" {
        if Contains(eyeTemplate, "blue") || Contains(eyeTemplate, "green") {
          incompatible := ["blue", "green"];
        }
      }
      assert incompatible == IncompatibleEyeColours(name, eyeTemplate);
      if incompatible != [] {
        var typicalEyes := TypicalEyesOrBrown(name);
        issues := [EyeMismatch(eth.value.chineseName, eye.value.template, incompatible, typicalEyes)];
      }
    }
  }

  /** The ethnicity/hair-colour rule of `check_consistency`. */
  method CheckHairRule(elements: seq<Element>) returns (issues: seq<Issue>)
    ensures issues == HairIssues(elements)
  {
    issues := [];
    var eth := FindElementByCategory(elements, "ethnicity");
    var hair := FindElementByCategory(elements, "hair_colors");
    if eth.Some? && hair.Some? {
      var typicalHair := TypicalHairOrEmpty(ExtractEthnicityName(eth.value.name));
      var hairTemplate := Lower(hair.value.template);
      if !AnyContained(hairTemplate, typicalHair) {
        issues := [HairMismatch(eth.value.chineseName, hair.value.template, typicalHair)];
      }
    }
  }

  /** The repeated-category rule of `check_consistency`. */
  method CheckDuplicateRule(elements: seq<Element>) returns (issues: seq<Issue>)
    ensures issues == DuplicateIssues(elements)
  {
    var counts, order := CountCategories(elements);
    issues := [];
    var j := 0;
    while j < |order|
      invariant 0 <= j <= |order|
      invariant issues == DuplicateIssuesOf(order[..j], elements)
    {
      var c := order[j];
      assert order[..j + 1][..j] == order[..j];
      if counts[c] > 1 && c !in MultiElementCategories {
        issues := issues + [DuplicateCategory(c, counts[c])];
      }
      j := j + 1;
    }
    assert order[..j] == order;
  }

  /** `check_consistency`: the three rules, in this order. */
  method CheckConsistency(elements: seq<Element>) returns (issues: seq<Issue>)
    ensures issues == ConsistencyIssues(elements)
  {
    var eyeIssues := CheckEyeRule(elements);
    var hairIssues := CheckHairRule(elements);
    var duplicateIssues := CheckDuplicateRule(elements);
    issues := eyeIssues + hairIssues + duplicateIssues;
  }

  /** The categories named by duplicate issues. */
  function DupCats(issues: seq<Issue>): set<string>
  {
    if issues == [] then {}
    else (if issues[0].DuplicateCategory? then {issues[0].category} else {}) + DupCats(issues[1..])
  }

  lemma {:induction false} DupCatsAppend(a: seq<Issue>, b: seq<Issue>)
    ensures DupCats(a + b) == DupCats(a) + DupCats(b)
  {
    if a != [] {
      assert (a + b)[1..] == a[1..] + b;
      assert (a + b)[0] == a[0];
      DupCatsAppend(a[1..], b);
    } else {
      assert a + b == b;
    }
  }

  /** Duplicate issues cover exactly the repeated, non-exempt categories of the listed ones, once each. */
  lemma DuplicateIssuesOfProps(order: seq<string>, elements: seq<Element>)
    ensures DupCats(DuplicateIssuesOf(order, elements))
      == set c | c in order && CatCount(elements, c) > 1 && c !in MultiElementCategories
    ensures forall k :: 0 <= k < |DuplicateIssuesOf(order, elements)| ==>
      DuplicateIssuesOf(order, elements)[k].DuplicateCategory?
      && DuplicateIssuesOf(order, elements)[k].count == CatCount(elements, DuplicateIssuesOf(order, elements)[k].category)
      && DuplicateIssuesOf(order, elements)[k].category in order
    ensures NoDuplicates(order) ==> NoDuplicates(IssueCats(DuplicateIssuesOf(order, elements)))
  {
    DuplicateCatsOf(order, elements);
    DuplicateShape(order, elements);
    if NoDuplicates(order) {
      DuplicateDistinct(order, elements);
    }
  }

  lemma {:induction false} DuplicateCatsOf(order: seq<string>, elements: seq<Element>)
    ensures DupCats(DuplicateIssuesOf(order, elements))
      == set c | c in order && CatCount(elements, c) > 1 && c !in MultiElementCategories
  {
    if order != [] {
      var init := order[..|order| - 1];
      var last := order[|order| - 1];
      DuplicateCatsOf(init, elements);
      DupCatsAppend(DuplicateIssuesOf(init, elements), DuplicateFor(last, elements));
      assert order == init + [last];
    }
  }

  /** Each duplicate issue is for a listed category and carries its count. */
  predicate ShapedFor(issues: seq<Issue>, order: seq<string>, elements: seq<Element>)
  {
    forall k :: 0 <= k < |issues| ==>
      issues[k].DuplicateCategory? && issues[k].count == CatCount(elements, issues[k].category)
      && issues[k].category in order
  }

  lemma {:induction false} DuplicateShape(order: seq<string>, elements: seq<Element>)
    ensures ShapedFor(DuplicateIssuesOf(order, elements), order, elements)
  {
    if order != [] {
      var init := order[..|order| - 1];
      var last := order[|order| - 1];
      DuplicateShape(init, elements);
      var a := DuplicateIssuesOf(init, elements);
      var b := DuplicateFor(last, elements);
      var r: seq<Issue> := a + b;
      assert DuplicateIssuesOf(order, elements) == r;
      forall k | 0 <= k < |r|
        ensures r[k].DuplicateCategory? && r[k].count == CatCount(elements, r[k].category) && r[k].category in order
      {
        if k < |a| {
          assert r[k] == a[k];
          assert a[k].category in init;
        } else {
          assert r[k] == b[k - |a|];
        }
      }
    }
  }

  lemma {:induction false} DuplicateDistinct(order: seq<string>, elements: seq<Element>)
    requires NoDuplicates(order)
    ensures ShapedFor(DuplicateIssuesOf(order, elements), order, elements)
    ensures NoDuplicates(IssueCats(DuplicateIssuesOf(order, elements)))
  {
    DuplicateShape(order, elements);
    if order != [] {
      var init := order[..|order| - 1];
      var last := order[|order| - 1];
      assert NoDuplicates(init) by {
        forall a, b | 0 <= a < b < |init|
          ensures init[a] != init[b]
        {
          assert init[a] == order[a] && init[b] == order[b];
        }
      }
      assert last !in init by {
        forall a | 0 <= a < |init|
          ensures init[a] != last
        {
          assert order[a] != order[|order| - 1];
        }
      }
      DuplicateDistinct(init, elements);
      var a := DuplicateIssuesOf(init, elements);
      var b := DuplicateFor(last, elements);
      assert DuplicateIssuesOf(order, elements) == a + b;
      IssueCatsAppend(a, b);
      var ca := IssueCats(a);
      assert forall k :: 0 <= k < |ca| ==> ca[k] in init;
      assert NoDuplicates(ca + IssueCats(b));
    }
  }

  function IssueCats(issues: seq<Issue>): (r: seq<string>)
    requires forall k :: 0 <= k < |issues| ==> issues[k].DuplicateCategory?
    ensures |r| == |issues|
    ensures forall k :: 0 <= k < |r| ==> r[k] == issues[k].category
  {
    if issues == [] then [] else [issues[0].category] + IssueCats(issues[1..])
  }

  lemma IssueCatsAppend(a: seq<Issue>, b: seq<Issue>)
    requires forall k :: 0 <= k < |a| ==> a[k].DuplicateCategory?
    requires forall k :: 0 <= k < |b| ==> b[k].DuplicateCategory?
    ensures IssueCats(a + b) == IssueCats(a) + IssueCats(b)
  {
  }

  /**
   * `check_consistency` reports exactly one high-severity duplicate issue for each
   * category that occurs more than once, except the two multi-element categories,
   * carrying that category's count.
   */
  lemma DuplicateIssuesExact(elements: seq<Element>)
    ensures DupCats(DuplicateIssues(elements))
      == set c | c in Cats(elements) && CatCount(elements, c) > 1 && c !in MultiElementCategories
    ensures forall k :: 0 <= k < |DuplicateIssues(elements)| ==>
      DuplicateIssues(elements)[k].DuplicateCategory?
      && Severity(DuplicateIssues(elements)[k]) == "high"
      && DuplicateIssues(elements)[k].count == CatCount(elements, DuplicateIssues(elements)[k].category)
    ensures NoDuplicates(IssueCats(DuplicateIssues(elements)))
  {
    var order := Dedupe(Cats(elements));
    DedupeProps(Cats(elements));
    DuplicateIssuesOfProps(order, elements);
  }

  /** A repeated category with no issue left open means every non-exempt category now occurs at most once. */
  lemma {:induction false} NoDuplicateIssuesWhenBounded(order: seq<string>, elements: seq<Element>)
    requires forall c :: c in order ==> CatCount(elements, c) <= 1 || c in MultiElementCategories
    ensures DuplicateIssuesOf(order, elements) == []
  {
    if order != [] {
      NoDuplicateIssuesWhenBounded(order[..|order| - 1], elements);
    }
  }

  /**
   * An East_Asian first ethnicity element with a first eye element whose template
   * mentions green, blue or violet yields exactly one medium eye issue listing all three.
   */
  lemma EastAsianEyeRule(elements: seq<Element>, eth: Element, eye: Element)
    requires FindElementByCategory(elements, "ethnicity") == Some(eth)
    requires FindElementByCategory(elements, "eye_types") == Some(eye)
    requires ExtractEthnicityName(eth.name) == "East_Asian"
    requires Contains(Lower(eye.template), "blue") || Contains(Lower(eye.template), "green") || Contains(Lower(eye.template), "violet")
    ensures EyeIssues(elements) == [EyeMismatch(eth.chineseName, eye.template, ["green", "blue", "violet"], ["black", "dark brown", "brown"])]
    ensures Severity(EyeIssues(elements)[0]) == "medium"
  {
  }

  /** For an African ethnicity the eye rule triggers on blue or green and lists those two. */
  lemma AfricanEyeRule(elements: seq<Element>, eth: Element, eye: Element)
    requires FindElementByCategory(elements, "ethnicity") == Some(eth)
    requires FindElementByCategory(elements, "eye_types") == Some(eye)
    requires ExtractEthnicityName(eth.name) == "African"
    ensures Contains(Lower(eye.template), "blue") || Contains(Lower(eye.template), "green")
      <==> EyeIssues(elements) == [EyeMismatch(eth.chineseName, eye.template, ["blue", "green"], ["dark brown", "black", "brown"])]
    ensures !(Contains(Lower(eye.template), "blue") || Contains(Lower(eye.template), "green")) ==> EyeIssues(elements) == []
  {
  }

  /** Only East_Asian and African ethnicities are ever checked against eye colour. */
  lemma EyeRuleOnlyTwoEthnicities(elements: seq<Element>, eth: Element)
    requires FindElementByCategory(elements, "ethnicity") == Some(eth)
    requires ExtractEthnicityName(eth.name) != "East_Asian" && ExtractEthnicityName(eth.name) != "African"
    ensures EyeIssues(elements) == []
  {
  }

  /**
   * The hair rule fires iff no typical colour of the ethnicity occurs in the lowercased
   * hair template; an ethnicity missing from the table therefore always fires it.
   */
  lemma HairRule(elements: seq<Element>, eth: Element, hair: Element)
    requires FindElementByCategory(elements, "ethnicity") == Some(eth)
    requires FindElementByCategory(elements, "hair_colors") == Some(hair)
    ensures |HairIssues(elements)| == 1 <==>
      !AnyContained(Lower(hair.template), TypicalHairOrEmpty(ExtractEthnicityName(eth.name)))
    ensures TypicalHair(ExtractEthnicityName(eth.name)).None? ==>
      HairIssues(elements) == [HairMismatch(eth.chineseName, hair.template, [])]
  {
  }
}
