/**
 * The generator's repair pass: each consistency issue is answered by swapping in a
 * database element (eye, hair) or by dropping all but the first element of a
 * repeated category.
 */
module Resolve {
  import opened Wrappers
  import opened Text
  import opened Seqs
  import opened ElementLookup
  import opened Knowledge
  import opened Consistency

  /** The repaired element list and the fix notes, in the order they were applied. */
  datatype Outcome = Outcome(elements: seq<Element>, fixes: seq<string>)

  /** `[e for e in elements if e['category'] != c]` */
  function RemoveCategory(elements: seq<Element>, c: string): (r: seq<Element>)
    ensures forall i :: 0 <= i < |r| ==> r[i].category != c && r[i] in elements
    ensures forall i :: 0 <= i < |elements| && elements[i].category != c ==> elements[i] in r
  {
    if elements == [] then []
    else (if elements[0].category == c then [] else [elements[0]]) + RemoveCategory(elements[1..], c)
  }

  /** The inner loop of the duplicate fix: `kept` says whether an element of `c` was already kept. */
  function KeepFirstFrom(elements: seq<Element>, c: string, kept: bool): seq<Element>
  {
    if elements == [] then []
    else if elements[0].category == c then
      (if kept then [] else [elements[0]]) + KeepFirstFrom(elements[1..], c, true)
    else [elements[0]] + KeepFirstFrom(elements[1..], c, kept)
  }

  /** The element that replaces a mismatched eye: almond brown, then almond, for East Asian subjects. */
  function EyeReplacement(elements: seq<Element>, rows: seq<Row>): Option<Element>
  {
    var eth := FindElementByCategory(elements, "ethnicity");
    var name := if eth.Some? then ExtractEthnicityName(eth.value.name) else "East_Asian";
    if name == "East_Asian" then
      var first := GetElementByCategory(rows, "portrait", "eye_types", "almond brown");
      if first.Some? then first else GetElementByCategory(rows, "portrait", "eye_types", "almond")
    else GetElementByCategory(rows, "portrait", "eye_types", "")
  }

  function EyeFixNote(issue: Issue, replacement: Element): string
    requires issue.EyeMismatch?
  {
    "✓ 修正眼睛: '" + issue.currentEye + "' → '" + replacement.template + "' (符合" + issue.currentEthnicity + "特征)"
  }

  function HairFixNote(issue: Issue, replacement: Element): string
    requires issue.HairMismatch?
  {
    "✓ 修正发色: '" + issue.currentHair + "' → '" + replacement.template + "' (符合" + issue.currentEthnicity + "特征)"
  }

  function DuplicateFixNote(c: string): string
  {
    "✓ 移除重复的'" + c + "'类别元素"
  }

  /**
   * One iteration of `resolve_conflicts`. A hair issue whose typical colour list is
   * empty makes the source index an empty list; that is the error result.
   */
  function ResolveStep(state: Outcome, issue: Issue, rows: seq<Row>): Result<Outcome>
  {
    match issue
    case EyeMismatch(_, _, _, _) =>
      var replacement := EyeReplacement(state.elements, rows);
      if replacement.None? then Ok(state)
      else Ok(Outcome(RemoveCategory(state.elements, "eye_types") + [replacement.value],
                      state.fixes + [EyeFixNote(issue, replacement.value)]))
    case HairMismatch(_, _, typical) =>
      if typical == [] then Err("IndexError: list index out of range")
      else
        var replacement := GetElementByCategory(rows, "portrait", "hair_colors", typical[0]);
        if replacement.None? then Ok(state)
        else Ok(Outcome(RemoveCategory(state.elements, "hair_colors") + [replacement.value],
                        state.fixes + [HairFixNote(issue, replacement.value)]))
    case DuplicateCategory(c, _) =>
      Ok(Outcome(KeepFirstFrom(state.elements, c, false), state.fixes + [DuplicateFixNote(c)]))
  }

  /** All issues in order; the first error ends the pass. */
  function ResolveAll(state: Outcome, issues: seq<Issue>, rows: seq<Row>): Result<Outcome>
    decreases |issues|
  {
    if issues == [] then Ok(state)
    else
      match ResolveStep(state, issues[0], rows)
      case Err(e) => Err(e)
      case Ok(next) => ResolveAll(next, issues[1..], rows)
  }

  /** `resolve_conflicts`, reading the element database from `rows`. */
  method ResolveConflicts(elements: seq<Element>, issues: seq<Issue>, rows: seq<Row>) returns (r: Result<Outcome>)
    ensures r == ResolveAll(Outcome(elements, []), issues, rows)
  {
    var fixed := elements;
    var fixes: seq<string> := [];
    var i := 0;
    while i < |issues|
      invariant 0 <= i <= |issues|
      invariant ResolveAll(Outcome(fixed, fixes), issues[i..], rows) == ResolveAll(Outcome(elements, []), issues, rows)
    {
      assert issues[i..][1..] == issues[i + 1..];
      var issue := issues[i];
      match issue {
        case EyeMismatch(_, _, _, _) =>
          var replacement := EyeReplacement(fixed, rows);
          if replacement.Some? {
            fixed := RemoveCategory(fixed, "eye_types") + [replacement.value];
            fixes := fixes + [EyeFixNote(issue, replacement.value)];
          }
        case HairMismatch(_, _, typical) =>
          if typical == [] {
            return Err("IndexError: list index out of range");
          }
          var replacement := GetElementByCategory(rows, "portrait", "hair_colors", typical[0]);
          if replacement.Some? {
            fixed := RemoveCategory(fixed, "hair_colors") + [replacement.value];
            fixes := fixes + [HairFixNote(issue, replacement.value)];
          }
        case DuplicateCategory(c, _) =>
          fixed := KeepFirst(fixed, c);
          fixes := fixes + [DuplicateFixNote(c)];
      }
      i := i + 1;
    }
    r := Ok(Outcome(fixed, fixes));
  }

  /** The keep-the-first loop of the duplicate fix. */
  method KeepFirst(elements: seq<Element>, c: string) returns (kept: seq<Element>)
    ensures kept == KeepFirstFrom(elements, c, false)
  {
    var keptOne := false;
    kept := [];
    var k := 0;
    while k < |elements|
      invariant 0 <= k <= |elements|
      invariant kept + KeepFirstFrom(elements[k..], c, keptOne) == KeepFirstFrom(elements, c, false)
    {
      assert elements[k..][1..] == elements[k + 1..];
      if elements[k].category == c {
        if !keptOne {
          kept := kept + [elements[k]];
          keptOne := true;
        }
      } else {
        kept := kept + [elements[k]];
      }
      k := k + 1;
    }
    assert elements[k..] == [];
  }

  lemma {:induction false} CatCountSnoc(elements: seq<Element>, e: Element, d: string)
    ensures CatCount(elements + [e], d) == CatCount(elements, d) + (if e.category == d then 1 else 0)
  {
    CatsAppend(elements, [e]);
    CountAppend(Cats(elements), Cats([e]), d);
    assert Cats([e]) == [e.category];
    assert [e.category][1..] == [];
  }

  lemma {:induction false} CatCountCons(elements: seq<Element>, d: string)
    requires elements != []
    ensures CatCount(elements, d) == (if elements[0].category == d then 1 else 0) + CatCount(elements[1..], d)
  {
    assert Cats(elements)[1..] == Cats(elements[1..]);
  }

  /** Dropping a category removes all of its elements and leaves every other count alone. */
  lemma {:induction false} RemoveCategoryCount(elements: seq<Element>, c: string, d: string)
    ensures CatCount(RemoveCategory(elements, c), d) == if d == c then 0 else CatCount(elements, d)
  {
    if elements != [] {
      RemoveCategoryCount(elements[1..], c, d);
      CatCountCons(elements, d);
      var rest := RemoveCategory(elements[1..], c);
      if elements[0].category != c {
        CatCountCons([elements[0]] + rest, d);
        assert ([elements[0]] + rest)[1..] == rest;
      } else {
        assert RemoveCategory(elements, c) == rest;
      }
    }
  }

  /**
   * The duplicate fix keeps exactly one element of the category (none when one was
   * already kept, none when there is none) and leaves every other count alone.
   */
  lemma {:induction false} KeepFirstFromCount(elements: seq<Element>, c: string, kept: bool, d: string)
    ensures CatCount(KeepFirstFrom(elements, c, kept), d) ==
      if d != c then CatCount(elements, d)
      else if kept || CatCount(elements, c) == 0 then 0
      else 1
  {
    if elements != [] {
      var e := elements[0];
      var nextKept := kept || e.category == c;
      KeepFirstFromCount(elements[1..], c, nextKept, d);
      CatCountCons(elements, d);
      CatCountCons(elements, c);
      var rest := KeepFirstFrom(elements[1..], c, nextKept);
      if e.category != c || !kept {
        CatCountCons([e] + rest, d);
        assert ([e] + rest)[1..] == rest;
      } else {
        assert KeepFirstFrom(elements, c, kept) == rest;
      }
    }
  }

  /** The duplicate fix keeps the elements in their order: the result is a subsequence of the input. */
  lemma {:induction false} KeepFirstFromSubsequence(elements: seq<Element>, c: string, kept: bool)
    ensures IsSubsequence(KeepFirstFrom(elements, c, kept), elements)
  {
    if elements != [] {
      var rest := KeepFirstFrom(elements[1..], c, kept || elements[0].category == c);
      KeepFirstFromSubsequence(elements[1..], c, kept || elements[0].category == c);
      assert [elements[0]] + elements[1..] == elements;
      if elements[0].category == c && kept {
        SubsequenceExtend(rest, elements[1..], elements[0]);
        assert KeepFirstFrom(elements, c, kept) == rest;
      } else {
        assert ([elements[0]] + rest)[1..] == rest;
      }
    }
  }

  /** A successful eye fix leaves exactly one eye element, the replacement, as the last element. */
  lemma EyeFixResult(state: Outcome, issue: Issue, rows: seq<Row>, next: Outcome)
    requires issue.EyeMismatch?
    requires ResolveStep(state, issue, rows) == Ok(next)
    requires EyeReplacement(state.elements, rows).Some?
    ensures CatCount(next.elements, "eye_types") == 1
    ensures next.elements[|next.elements| - 1] == EyeReplacement(state.elements, rows).value
    ensures forall d :: d != "eye_types" ==> CatCount(next.elements, d) == CatCount(state.elements, d)
    ensures |next.fixes| == |state.fixes| + 1
  {
    var rep := EyeReplacement(state.elements, rows).value;
    EyeReplacementCategory(state.elements, rows);
    forall d
      ensures CatCount(next.elements, d) == (if d == "eye_types" then 1 else CatCount(state.elements, d))
    {
      CatCountSnoc(RemoveCategory(state.elements, "eye_types"), rep, d);
      RemoveCategoryCount(state.elements, "eye_types", d);
    }
  }

  lemma EyeReplacementCategory(elements: seq<Element>, rows: seq<Row>)
    ensures EyeReplacement(elements, rows).Some? ==> EyeReplacement(elements, rows).value.category == "eye_types"
  {
  }

  /** An East Asian (or absent) ethnicity gets an eye element whose name is "almond brown" or "almond", ignoring case. */
  lemma EastAsianEyeReplacementIsAlmond(elements: seq<Element>, rows: seq<Row>)
    requires var eth := FindElementByCategory(elements, "ethnicity"); eth.None? || ExtractEthnicityName(eth.value.name) == "East_Asian"
    requires EyeReplacement(elements, rows).Some?
    ensures Lower(EyeReplacement(elements, rows).value.name) == Lower("almond brown")
         || Lower(EyeReplacement(elements, rows).value.name) == Lower("almond")
  {
    var eth := FindElementByCategory(elements, "ethnicity");
    var first := GetElementByCategory(rows, "portrait", "eye_types", "almond brown");
    var second := GetElementByCategory(rows, "portrait", "eye_types", "almond");
    assert EyeReplacement(elements, rows) == if first.Some? then first else second;
  }

  /**
   * A hair issue fails exactly when its typical-colour list is empty. Otherwise, without
   * a replacement nothing changes; with one, it is named like the first typical colour,
   * appended last as the only hair element, every other category keeps its count, and
   * its fix note is recorded.
   */
  lemma HairFixResult(state: Outcome, issue: Issue, rows: seq<Row>)
    requires issue.HairMismatch?
    ensures ResolveStep(state, issue, rows).Err? <==> issue.typicalHair == []
    ensures issue.typicalHair != [] ==>
      var rep := GetElementByCategory(rows, "portrait", "hair_colors", issue.typicalHair[0]);
      rep.None? ==> ResolveStep(state, issue, rows) == Ok(state)
    ensures issue.typicalHair != [] ==>
      var rep := GetElementByCategory(rows, "portrait", "hair_colors", issue.typicalHair[0]);
      rep.Some? ==>
        var next := ResolveStep(state, issue, rows).value;
        (issue.typicalHair[0] != "" ==> Lower(rep.value.name) == Lower(issue.typicalHair[0]))
        && CatCount(next.elements, "hair_colors") == 1
        && next.elements[|next.elements| - 1] == rep.value
        && (forall d :: d != "hair_colors" ==> CatCount(next.elements, d) == CatCount(state.elements, d))
        && next.fixes == state.fixes + [HairFixNote(issue, rep.value)]
  {
    if issue.typicalHair != [] {
      var rep := GetElementByCategory(rows, "portrait", "hair_colors", issue.typicalHair[0]);
      if rep.Some? {
        var next := ResolveStep(state, issue, rows).value;
        forall d
          ensures CatCount(next.elements, d) == (if d == "hair_colors" then 1 else CatCount(state.elements, d))
        {
          CatCountSnoc(RemoveCategory(state.elements, "hair_colors"), rep.value, d);
          RemoveCategoryCount(state.elements, "hair_colors", d);
        }
      }
    }
  }

  /** Once an element of the category is kept, the rest of the loop drops the category. */
  lemma {:induction false} KeepFirstFromKept(elements: seq<Element>, c: string)
    ensures KeepFirstFrom(elements, c, true) == RemoveCategory(elements, c)
  {
    if elements != [] {
      KeepFirstFromKept(elements[1..], c);
    }
  }

  /**
   * The duplicate fix keeps everything up to and including the first element of the
   * category and drops only the later elements of that category; without one it changes nothing.
   */
  lemma {:induction false} KeepFirstFromShape(elements: seq<Element>, c: string, first: int)
    requires 0 <= first <= |elements|
    requires forall j :: 0 <= j < first ==> elements[j].category != c
    requires first < |elements| ==> elements[first].category == c
    ensures first == |elements| ==> KeepFirstFrom(elements, c, false) == elements
    ensures first < |elements| ==>
      KeepFirstFrom(elements, c, false) == elements[..first + 1] + RemoveCategory(elements[first + 1..], c)
    decreases first
  {
    if elements != [] {
      if first == 0 {
        KeepFirstFromKept(elements[1..], c);
        assert elements[..1] == [elements[0]] && elements[1..] == elements[0 + 1..];
      } else {
        KeepFirstFromShape(elements[1..], c, first - 1);
        assert [elements[0]] + elements[1..] == elements;
        if first < |elements| {
          assert elements[1..][..first] == elements[1..first + 1];
          assert elements[1..][first..] == elements[first + 1..];
          assert [elements[0]] + elements[1..first + 1] == elements[..first + 1];
        }
      }
    }
  }

  /** Categories the issue list still has to fix: over-represented ones must be listed. */
  ghost predicate Covered(elements: seq<Element>, issues: seq<Issue>)
  {
    forall c :: CatCount(elements, c) > 1 && c !in MultiElementCategories ==> c in DupCats(issues)
  }

  /** Each step keeps every still-repeated category listed in the issues that remain. */
  lemma {:induction false} ResolveStepCovered(state: Outcome, issues: seq<Issue>, rows: seq<Row>, next: Outcome)
    requires issues != []
    requires Covered(state.elements, issues)
    requires ResolveStep(state, issues[0], rows) == Ok(next)
    ensures Covered(next.elements, issues[1..])
  {
    var issue := issues[0];
    assert DupCats(issues) == (if issue.DuplicateCategory? then {issue.category} else {}) + DupCats(issues[1..]);
    forall c | CatCount(next.elements, c) > 1 && c !in MultiElementCategories
      ensures c in DupCats(issues[1..])
    {
      match issue {
        case EyeMismatch(_, _, _, _) =>
          var rep := EyeReplacement(state.elements, rows);
          if rep.Some? {
            EyeReplacementCategory(state.elements, rows);
            CatCountSnoc(RemoveCategory(state.elements, "eye_types"), rep.value, c);
            RemoveCategoryCount(state.elements, "eye_types", c);
          }
        case HairMismatch(_, _, typical) =>
          var rep := GetElementByCategory(rows, "portrait", "hair_colors", typical[0]);
          if rep.Some? {
            CatCountSnoc(RemoveCategory(state.elements, "hair_colors"), rep.value, c);
            RemoveCategoryCount(state.elements, "hair_colors", c);
          }
        case DuplicateCategory(d, _) =>
          KeepFirstFromCount(state.elements, d, false, c);
      }
    }
  }

  /** Resolving an issue list that lists every repeated category leaves no such repetition. */
  lemma {:induction false} ResolveAllRemovesDuplicates(state: Outcome, issues: seq<Issue>, rows: seq<Row>)
    requires Covered(state.elements, issues)
    decreases |issues|
    requires ResolveAll(state, issues, rows).Ok?
    ensures forall c :: c !in MultiElementCategories ==> CatCount(ResolveAll(state, issues, rows).value.elements, c) <= 1
  {
    if issues != [] {
      var next := ResolveStep(state, issues[0], rows).value;
      ResolveStepCovered(state, issues, rows, next);
      ResolveAllRemovesDuplicates(next, issues[1..], rows);
    }
  }

  /**
   * Resolving exactly what `check_consistency` reported, when it succeeds, leaves every
   * category other than the two multi-element ones at most once.
   */
  lemma ResolveConsistencyIssues(elements: seq<Element>, rows: seq<Row>)
    requires ResolveAll(Outcome(elements, []), ConsistencyIssues(elements), rows).Ok?
    ensures forall c :: c !in MultiElementCategories ==>
      CatCount(ResolveAll(Outcome(elements, []), ConsistencyIssues(elements), rows).value.elements, c) <= 1
  {
    var eye := EyeIssues(elements);
    var hair := HairIssues(elements);
    var dup := DuplicateIssues(elements);
    DupCatsAppend(eye, hair);
    DupCatsAppend(eye + hair, dup);
    assert DupCats(eye) == {};
    assert DupCats(hair) == {};
    DuplicateIssuesExact(elements);
    forall c | CatCount(elements, c) > 1 && c !in MultiElementCategories
      ensures c in DupCats(ConsistencyIssues(elements))
    {
      CountPositive(Cats(elements), c);
    }
    ResolveAllRemovesDuplicates(Outcome(elements, []), ConsistencyIssues(elements), rows);
  }

  /**
   * An ethnicity the tables do not know, together with any hair element, makes
   * `check_consistency` report a hair issue with no typical colours, on which the
   * repair pass fails.
   */
  lemma UnknownEthnicityFailsRepair(elements: seq<Element>, rows: seq<Row>, eth: Element, hair: Element)
    requires FindElementByCategory(elements, "ethnicity") == Some(eth)
    requires FindElementByCategory(elements, "hair_colors") == Some(hair)
    requires TypicalHair(ExtractEthnicityName(eth.name)).None?
    ensures ResolveAll(Outcome(elements, []), ConsistencyIssues(elements), rows).Err?
  {
    var eye := EyeIssues(elements);
    var hairIssues := HairIssues(elements);
    var dup := DuplicateIssues(elements);
    HairRule(elements, eth, hair);
    assert eye + hairIssues + dup == eye + (hairIssues + dup);
    ResolvePrefixThenError(Outcome(elements, []), eye, hairIssues + dup, rows);
  }

  /** Issues before a failing one cannot prevent the failure. */
  lemma {:induction false} ResolvePrefixThenError(state: Outcome, prefix: seq<Issue>, rest: seq<Issue>, rows: seq<Row>)
    requires rest != [] && rest[0].HairMismatch? && rest[0].typicalHair == []
    ensures ResolveAll(state, prefix + rest, rows).Err?
    decreases |prefix|
  {
    if prefix == [] {
      assert prefix + rest == rest;
    } else {
      assert (prefix + rest)[1..] == prefix[1..] + rest;
      match ResolveStep(state, prefix[0], rows)
      case Err(_) =>
      case Ok(next) => ResolvePrefixThenError(next, prefix[1..], rest, rows);
    }
  }
}
