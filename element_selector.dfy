/**
 * `ElementSelector`: scores candidate elements against the user's keywords and
 * picks the best one per field.
 *
 * A candidate is seen through the four things the scorer reads of its dict: the
 * keyword text (a list joined with spaces, a JSON text decoded and joined, or
 * `str()` of anything else), the `ai_prompt_template` text, the name, and the
 * `reusability_score`. Dicts built by the element lookups carry neither of the
 * last two keys under those names, which `CandidateOf` reproduces.
 */
module ElementSelector {
  import opened Wrappers
  import opened Text
  import opened ElementLookup
  import Relevance

  datatype Candidate = Candidate(keywordsText: string, template: string, name: string, quality: real)

  /**
   * The scorer's view of an element dict from `get_all_elements_by_category`: its
   * template sits under `template` and its score under `reusability`, so the scorer
   * sees no template and quality 0; undecoded keywords are None, whose `str()` is "None".
   */
  function CandidateOf(e: Element): Candidate
  {
    Candidate(match e.keywords case Some(ks) => Join(ks, " ") case None => "None", "", e.name, 0.0)
  }

  /** A user keyword occurs (ignoring case) in the keyword text, the template or the name. */
  predicate Matched(c: Candidate, kw: string)
  {
    Contains(Lower(c.keywordsText), Lower(kw)) || Contains(Lower(c.template), Lower(kw)) || Contains(Lower(c.name), Lower(kw))
  }

  function MatchedCount(c: Candidate, kws: seq<string>): (n: nat)
    ensures n <= |kws|
  {
    if kws == [] then 0 else MatchedCount(c, kws[..|kws| - 1]) + (if Matched(c, kws[|kws| - 1]) then 1 else 0)
  }

  /** 60 points scaled by the share of matched keywords; nothing without keywords. */
  function KeywordScore(matched: nat, total: nat): real
  {
    if total == 0 then 0.0 else (matched as real / total as real) * 60.0
  }

  /** Up to 30 points for a positive quality on the 0-10 scale. */
  function QualityScore(quality: real): real
  {
    if quality > 0.0 then (quality / 10.0) * 30.0 else 0.0
  }

  const BabyFatCues: seq<string> := ["plump", "chubby", "full", "baby fat", "rounded"]
  const RefinedCues: seq<string> := ["refined", "delicate", "classical", "sculpted", "elegant"]

  /** The user asks for baby fat: a cue occurs in the keywords joined by spaces (it may span two). */
  predicate WantsBabyFat(kws: seq<string>)
  {
    exists k :: 0 <= k < |BabyFatCues| && Contains(Lower(Join(kws, " ")), BabyFatCues[k])
  }

  /** The element looks refined: a cue occurs in its keyword text or template. */
  predicate LooksRefined(c: Candidate)
  {
    exists k :: 0 <= k < |RefinedCues| && (Contains(Lower(c.keywordsText), RefinedCues[k]) || Contains(Lower(c.template), RefinedCues[k]))
  }

  /** Every user keyword occurs in the keyword text or the template (the name does not count). */
  predicate AllMatched(c: Candidate, kws: seq<string>)
  {
    kws != [] && forall k :: 0 <= k < |kws| ==> Contains(Lower(c.keywordsText), Lower(kws[k])) || Contains(Lower(c.template), Lower(kws[k]))
  }

  /** `_check_semantic_consistency` */
  function Adjustment(c: Candidate, kws: seq<string>): (r: real)
    ensures r == -20.0 || r == -10.0 || r == 0.0 || r == 10.0
    ensures r < 0.0 <==> WantsBabyFat(kws) && LooksRefined(c)
    ensures r >= 0.0 ==> (r == 10.0 <==> AllMatched(c, kws))
  {
    (if WantsBabyFat(kws) && LooksRefined(c) then -20.0 else 0.0) + (if AllMatched(c, kws) then 10.0 else 0.0)
  }

  function Clamp(x: real): (r: real)
    ensures 0.0 <= r <= 100.0
    ensures 0.0 <= x <= 100.0 ==> r == x
  {
    if x < 0.0 then 0.0 else if x > 100.0 then 100.0 else x
  }

  /** `calculate_match_score`: keyword share, quality and semantic adjustment, clamped to [0, 100]. */
  function MatchScore(c: Candidate, kws: seq<string>): real
  {
    Clamp(KeywordScore(MatchedCount(c, kws), |kws|) + QualityScore(c.quality) + Adjustment(c, kws))
  }

  method CalculateMatchScore(c: Candidate, kws: seq<string>) returns (score: real)
    ensures score == MatchScore(c, kws)
    ensures 0.0 <= score <= 100.0
  {
    score := 0.0;
    if kws != [] {
      var matched := 0;
      var i := 0;
      while i < |kws|
        invariant 0 <= i <= |kws|
        invariant matched == MatchedCount(c, kws[..i])
      {
        assert kws[..i + 1][..i] == kws[..i];
        var kw := Lower(kws[i]);
        if Contains(Lower(c.keywordsText), kw) || Contains(Lower(c.template), kw) || Contains(Lower(c.name), kw) {
          matched := matched + 1;
        }
        i := i + 1;
      }
      assert kws[..i] == kws;
      score := score + (matched as real / |kws| as real) * 60.0;
    }
    if c.quality > 0.0 {
      score := score + (c.quality / 10.0) * 30.0;
    }
    score := score + Adjustment(c, kws);
    score := if score > 100.0 then 100.0 else score;
    score := if score < 0.0 then 0.0 else score;
  }

  /** The keyword share is at most 60 points, and 60 exactly when every keyword matched. */
  lemma KeywordScoreRange(c: Candidate, kws: seq<string>)
    ensures 0.0 <= KeywordScore(MatchedCount(c, kws), |kws|) <= 60.0
    ensures kws != [] ==> (KeywordScore(MatchedCount(c, kws), |kws|) == 60.0 <==> MatchedCount(c, kws) == |kws|)
  {
    if kws != [] {
      Relevance.FractionRange(MatchedCount(c, kws), |kws|);
    }
  }

  /** Every keyword is matched exactly when the count reaches the number of keywords. */
  lemma {:induction false} MatchedCountFull(c: Candidate, kws: seq<string>)
    ensures MatchedCount(c, kws) == |kws| <==> forall k :: 0 <= k < |kws| ==> Matched(c, kws[k])
  {
    if kws != [] {
      var init := kws[..|kws| - 1];
      MatchedCountFull(c, init);
      assert forall k :: 0 <= k < |init| ==> init[k] == kws[k];
    }
  }

  /**
   * A candidate with quality in [0, 10] that matches every keyword in its keyword text
   * or template, without a baby-fat conflict, scores 70 plus three points per quality point.
   */
  lemma PerfectMatchScore(c: Candidate, kws: seq<string>)
    requires 0.0 <= c.quality <= 10.0
    requires AllMatched(c, kws) && !(WantsBabyFat(kws) && LooksRefined(c))
    ensures MatchScore(c, kws) == 70.0 + 3.0 * c.quality
  {
    assert forall k :: 0 <= k < |kws| ==> Matched(c, kws[k]);
    MatchedCountFull(c, kws);
    KeywordScoreRange(c, kws);
  }

  /**
   * A lookup dict is scored on its keywords and name alone: templates and reusability
   * scores never change its score.
   */
  lemma LookupScoreIgnoresTemplateAndScore(e1: Element, e2: Element, kws: seq<string>)
    requires e1.keywords == e2.keywords && e1.name == e2.name
    ensures MatchScore(CandidateOf(e1), kws) == MatchScore(CandidateOf(e2), kws)
  {
    assert CandidateOf(e1) == CandidateOf(e2);
  }

  // ---------------------------------------------------------------------------
  // select_best_element

  /** The selection loop over the items seen so far: a strictly higher score replaces the best. */
  function Best<T>(xs: seq<T>, score: T -> real): (Option<T>, real)
  {
    if xs == [] then (None, 0.0)
    else
      var prev := Best(xs[..|xs| - 1], score);
      var s := score(xs[|xs| - 1]);
      if s > prev.1 then (Some(xs[|xs| - 1]), s) else prev
  }

  function SelectBest(cands: seq<Candidate>, kws: seq<string>): (Option<Candidate>, real)
  {
    Best(cands, c => MatchScore(c, kws))
  }

  /** `select_best_element`; the intent and field name it also takes do not affect the choice. */
  method SelectBestElement(cands: seq<Candidate>, kws: seq<string>) returns (best: Option<Candidate>, bestScore: real)
    ensures (best, bestScore) == SelectBest(cands, kws)
  {
    if cands == [] {
      return None, 0.0;
    }
    best, bestScore := None, 0.0;
    var i := 0;
    while i < |cands|
      invariant 0 <= i <= |cands|
      invariant (best, bestScore) == SelectBest(cands[..i], kws)
    {
      assert cands[..i + 1][..i] == cands[..i];
      var score := CalculateMatchScore(cands[i], kws);
      if score > bestScore {
        best, bestScore := Some(cands[i]), score;
      }
      i := i + 1;
    }
    assert cands[..i] == cands;
  }

  /**
   * For non-negative scores: nothing is chosen exactly when every score is 0 (so always for
   * no items), and then the score is 0; otherwise the choice is the earliest item with the
   * greatest score, which is positive.
   */
  lemma {:induction false} BestProps<T>(xs: seq<T>, score: T -> real)
    requires forall i :: 0 <= i < |xs| ==> score(xs[i]) >= 0.0
    ensures Best(xs, score).0.None? <==> forall i :: 0 <= i < |xs| ==> score(xs[i]) == 0.0
    ensures Best(xs, score).0.None? ==> Best(xs, score).1 == 0.0
    ensures Best(xs, score).0.Some? ==>
      exists k :: FirstGreatest(xs, score, k) && xs[k] == Best(xs, score).0.value && Best(xs, score).1 == score(xs[k])
  {
    if xs != [] {
      var init := xs[..|xs| - 1];
      assert forall i :: 0 <= i < |init| ==> init[i] == xs[i];
      BestProps(init, score);
      var prev := Best(init, score);
      var last := |xs| - 1;
      if score(xs[last]) > prev.1 {
        if prev.0.Some? {
          var k :| FirstGreatest(init, score, k) && init[k] == prev.0.value && prev.1 == score(init[k]);
        }
        assert FirstGreatest(xs, score, last);
      } else if prev.0.Some? {
        var k :| FirstGreatest(init, score, k) && init[k] == prev.0.value && prev.1 == score(init[k]);
        assert FirstGreatest(xs, score, k);
      }
    }
  }

  /** Item `k` has a positive score no other item exceeds, and every earlier item scores less. */
  predicate FirstGreatest<T>(xs: seq<T>, score: T -> real, k: int)
  {
    0 <= k < |xs| && score(xs[k]) > 0.0
    && (forall i :: 0 <= i < |xs| ==> score(xs[i]) <= score(xs[k]))
    && (forall i :: 0 <= i < k ==> score(xs[i]) < score(xs[k]))
  }

  /** `select_best_element` chooses nothing exactly when every candidate scores 0, else the earliest best-scoring one. */
  lemma SelectBestProps(cands: seq<Candidate>, kws: seq<string>)
    ensures SelectBest(cands, kws).0.None? <==> forall i :: 0 <= i < |cands| ==> MatchScore(cands[i], kws) == 0.0
    ensures SelectBest(cands, kws).0.None? ==> SelectBest(cands, kws).1 == 0.0
    ensures SelectBest(cands, kws).0.Some? ==>
      exists k :: (FirstGreatest(cands, c => MatchScore(c, kws), k)
                   && cands[k] == SelectBest(cands, kws).0.value && SelectBest(cands, kws).1 == MatchScore(cands[k], kws))
  {
    var score := c => MatchScore(c, kws);
    assert forall i :: 0 <= i < |cands| ==> score(cands[i]) >= 0.0;
    BestProps(cands, score);
  }

  // ---------------------------------------------------------------------------
  // select_from_candidates_dict

  /** The batch selection over the fields seen so far; a field without keywords uses []. */
  function SelectAll(fields: seq<(string, seq<Candidate>)>, keywordsMap: map<string, seq<string>>): map<string, Candidate>
  {
    if fields == [] then map[]
    else
      var prev := SelectAll(fields[..|fields| - 1], keywordsMap);
      var (name, cands) := fields[|fields| - 1];
      var best := SelectBest(cands, if name in keywordsMap then keywordsMap[name] else []).0;
      if best.Some? then prev[name := best.value] else prev
  }

  /** `select_from_candidates_dict` */
  method SelectFromCandidatesDict(fields: seq<(string, seq<Candidate>)>, keywordsMap: map<string, seq<string>>)
    returns (selected: map<string, Candidate>)
    ensures selected == SelectAll(fields, keywordsMap)
  {
    selected := map[];
    var i := 0;
    while i < |fields|
      invariant 0 <= i <= |fields|
      invariant selected == SelectAll(fields[..i], keywordsMap)
    {
      assert fields[..i + 1][..i] == fields[..i];
      var name := fields[i].0;
      var keywords := if name in keywordsMap then keywordsMap[name] else [];
      var best, score := SelectBestElement(fields[i].1, keywords);
      if best.Some? {
        selected := selected[name := best.value];
      }
      i := i + 1;
    }
    assert fields[..i] == fields;
  }

  predicate DistinctNames(fields: seq<(string, seq<Candidate>)>)
  {
    forall i, j :: 0 <= i < j < |fields| ==> fields[i].0 != fields[j].0
  }

  /**
   * With distinct field names (as a dict has), a field is selected exactly when its
   * best candidate exists, and it maps to that candidate.
   */
  lemma {:induction false} SelectAllExact(fields: seq<(string, seq<Candidate>)>, keywordsMap: map<string, seq<string>>, k: int)
    requires DistinctNames(fields) && 0 <= k < |fields|
    ensures var best := SelectBest(fields[k].1, if fields[k].0 in keywordsMap then keywordsMap[fields[k].0] else []).0;
      (fields[k].0 in SelectAll(fields, keywordsMap) <==> best.Some?)
      && (best.Some? ==> SelectAll(fields, keywordsMap)[fields[k].0] == best.value)
  {
    var init := fields[..|fields| - 1];
    if k < |fields| - 1 {
      assert init[k] == fields[k];
      assert DistinctNames(init);
      SelectAllExact(init, keywordsMap, k);
    } else {
      SelectAllNames(init, keywordsMap, fields[k].0);
    }
  }

  /** Only listed fields are ever selected. */
  lemma {:induction false} SelectAllNames(fields: seq<(string, seq<Candidate>)>, keywordsMap: map<string, seq<string>>, name: string)
    requires forall i :: 0 <= i < |fields| ==> fields[i].0 != name
    ensures name !in SelectAll(fields, keywordsMap)
  {
    if fields != [] {
      var init := fields[..|fields| - 1];
      assert forall i :: 0 <= i < |init| ==> init[i] == fields[i];
      SelectAllNames(init, keywordsMap, name);
    }
  }
}
