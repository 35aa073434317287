/**
 * Relevance of an element to the user's keywords, and the style-element search
 * that ranks database rows by relevance times quality.
 */
module Relevance {
  import opened Wrappers
  import opened Text
  import opened Seqs
  import opened Sorting
  import opened ElementLookup
  import opened Knowledge

  /** A style element with its relevance and final score. */
  datatype Scored = Scored(element: Element, relevance: real, finalScore: real)

  /** The lowercased template, followed by the space-joined lowercased keywords when there are any. */
  function ElementText(e: Element): string
  {
    Lower(e.template)
    + (if e.keywords.Some? && e.keywords.value != [] then " " + Lower(Join(e.keywords.value, " ")) else "")
  }

  predicate Hit(text: string, kw: string)
  {
    Contains(text, Lower(kw))
  }

  /** How many of the keywords (counted with repetition) occur in `text`, ignoring case. */
  function MatchedCount(kws: seq<string>, text: string): nat
  {
    if kws == [] then 0
    else MatchedCount(kws[..|kws| - 1], text) + (if Hit(text, kws[|kws| - 1]) then 1 else 0)
  }

  /** 0.5 without keywords, else the fraction of keywords found in the element's text. */
  function Relevance(e: Element, kws: seq<string>): real
  {
    if kws == [] then 0.5 else MatchedCount(kws, ElementText(e)) as real / |kws| as real
  }

  /** The counting loop of `calculate_relevance`. */
  method CountMatches(kws: seq<string>, text: string) returns (matched: nat)
    ensures matched == MatchedCount(kws, text)
  {
    matched := 0;
    var i := 0;
    while i < |kws|
      invariant 0 <= i <= |kws|
      invariant matched == MatchedCount(kws[..i], text)
    {
      assert kws[..i + 1][..i] == kws[..i];
      if Contains(text, Lower(kws[i])) {
        matched := matched + 1;
      }
      i := i + 1;
    }
    assert kws[..i] == kws;
  }

  /** `calculate_relevance` */
  method CalculateRelevance(e: Element, kws: seq<string>) returns (r: real)
    ensures r == Relevance(e, kws)
    ensures 0.0 <= r <= 1.0
  {
    if kws == [] {
      return 0.5;
    }
    var text := Lower(e.template);
    if e.keywords.Some? && e.keywords.value != [] {
      text := text + " " + Lower(Join(e.keywords.value, " "));
    }
    assert text == ElementText(e);
    var matched := CountMatches(kws, text);
    MatchedCountBounds(kws, text);
    FractionRange(matched, |kws|);
    r := matched as real / |kws| as real;
  }

  /** The count lies in [0, |kws|]; it is |kws| iff every keyword hits and 0 iff none does. */
  lemma {:induction false} MatchedCountBounds(kws: seq<string>, text: string)
    ensures MatchedCount(kws, text) <= |kws|
    ensures MatchedCount(kws, text) == |kws| <==> forall k :: 0 <= k < |kws| ==> Hit(text, kws[k])
    ensures MatchedCount(kws, text) == 0 <==> forall k :: 0 <= k < |kws| ==> !Hit(text, kws[k])
  {
    if kws != [] {
      var init := kws[..|kws| - 1];
      MatchedCountBounds(init, text);
      assert forall k :: 0 <= k < |init| ==> init[k] == kws[k];
    }
  }

  /**
   * Relevance is 0.5 without keywords; otherwise it lies in [0, 1], is 1 exactly when
   * every keyword occurs in the element's text and 0 exactly when none does.
   */
  lemma RelevanceRange(e: Element, kws: seq<string>)
    ensures kws == [] ==> Relevance(e, kws) == 0.5
    ensures 0.0 <= Relevance(e, kws) <= 1.0
    ensures kws != [] ==> (Relevance(e, kws) == 1.0 <==> forall k :: 0 <= k < |kws| ==> Hit(ElementText(e), kws[k]))
    ensures kws != [] ==> (Relevance(e, kws) == 0.0 <==> forall k :: 0 <= k < |kws| ==> !Hit(ElementText(e), kws[k]))
  {
    if kws != [] {
      MatchedCountBounds(kws, ElementText(e));
      FractionRange(MatchedCount(kws, ElementText(e)), |kws|);
    }
  }

  lemma FractionRange(m: nat, n: nat)
    requires 0 < n && m <= n
    ensures 0.0 <= m as real / n as real <= 1.0
    ensures m as real / n as real == 1.0 <==> m == n
    ensures m as real / n as real == 0.0 <==> m == 0
  {
    var q := m as real / n as real;
    assert q * n as real == m as real;
  }

  /** The search's WHERE clause: a non-empty template LIKE at least one keyword. */
  predicate StyleHit(r: Row, kws: seq<string>)
  {
    r.template != "" && exists k :: 0 <= k < |kws| && Like(r.template, kws[k])
  }

  function ScoreRow(r: Row, kws: seq<string>): Scored
  {
    var e := ElementOf(r);
    Scored(e, Relevance(e, kws), Relevance(e, kws) * r.score)
  }

  function FinalScore(s: Scored): real { s.finalScore }

  /** The rows the query returns: matching rows, best quality first, at most 30. */
  function StyleRows(rows: seq<Row>, kws: seq<string>): seq<Row>
  {
    Take(SortDesc(Filter(rows, r => StyleHit(r, kws)), RowScore), 30)
  }

  /**
   * The query keeps the matching rows only, best quality first (ties in table order),
   * and leaves a matching row out only when 30 rows at least as good fill the limit.
   */
  lemma StyleRowsProps(rows: seq<Row>, kws: seq<string>)
    ensures |StyleRows(rows, kws)| <= 30
    ensures SortedDesc(StyleRows(rows, kws), RowScore)
    ensures forall r :: r in StyleRows(rows, kws) ==> r in rows && StyleHit(r, kws)
    ensures forall r :: r in rows && StyleHit(r, kws) && r !in StyleRows(rows, kws) ==>
      |StyleRows(rows, kws)| == 30 && forall i :: 0 <= i < 30 ==> StyleRows(rows, kws)[i].score >= r.score
  {
    var hits := Filter(rows, r => StyleHit(r, kws));
    TopN(hits, RowScore, 30);
    SortDescMembers(hits, RowScore);
    SortDescProps(hits, RowScore);
    var top := StyleRows(rows, kws);
    forall r | r in top
      ensures r in rows && StyleHit(r, kws)
    {
      var k :| 0 <= k < |top| && top[k] == r;
    }
    forall r | r in rows && StyleHit(r, kws) && r !in top
      ensures |top| == 30
    {
      var k :| 0 <= k < |rows| && rows[k] == r;
      assert r in hits;
    }
  }

  /** Rows outside the person-attribute categories. */
  predicate Styled(r: Row)
  {
    r.categoryId !in SubjectAttributeCategories
  }

  /** Each row scored, in order. */
  function ScoreAll(rs: seq<Row>, kws: seq<string>): (r: seq<Scored>)
    ensures |r| == |rs|
    ensures forall i :: 0 <= i < |rs| ==> r[i] == ScoreRow(rs[i], kws)
  {
    if rs == [] then [] else [ScoreRow(rs[0], kws)] + ScoreAll(rs[1..], kws)
  }

  /** The queried rows that do not describe the person, scored. */
  function StyleCandidates(rows: seq<Row>, kws: seq<string>): (r: seq<Scored>)
    ensures |r| <= 30
  {
    ScoreAll(Filter(StyleRows(rows, kws), Styled), kws)
  }

  /** Dropping rows before scoring keeps the scored rows in their order. */
  lemma {:induction false} ScoreFilterOrder(top: seq<Row>, kws: seq<string>)
    ensures IsSubsequence(ScoreAll(Filter(top, Styled), kws), ScoreAll(top, kws))
    decreases |top|
  {
    if top != [] {
      ScoreFilterOrder(top[1..], kws);
      var r := ScoreAll(Filter(top, Styled), kws);
      var s := ScoreAll(top, kws);
      assert s[1..] == ScoreAll(top[1..], kws);
      if Styled(top[0]) {
        assert Filter(top, Styled) == [top[0]] + Filter(top[1..], Styled);
        assert r[0] == s[0] && r[1..] == ScoreAll(Filter(top[1..], Styled), kws);
      } else if r != [] && r[0] == s[0] {
        SubsequenceDropHead(r, s[1..]);
      }
    }
  }

  /**
   * `search_style_elements`. With no keywords the generated SQL has an empty
   * condition list and is rejected by the database.
   */
  function SearchStyleElements(rows: seq<Row>, kws: seq<string>): Result<seq<Scored>>
  {
    if kws == [] then Err("sqlite3.OperationalError: syntax error")
    else Ok(Take(SortDesc(StyleCandidates(rows, kws), FinalScore), 10))
  }

  /**
   * Each candidate comes from a matching row outside the person-attribute categories and
   * is scored as relevance times quality; every queried row outside those categories
   * becomes a candidate; the candidates keep the query's order.
   */
  lemma StyleCandidatesProps(rows: seq<Row>, kws: seq<string>)
    ensures forall i :: 0 <= i < |StyleCandidates(rows, kws)| ==> GoodCandidate(StyleCandidates(rows, kws)[i], rows, kws)
    ensures forall r :: r in StyleRows(rows, kws) && Styled(r) ==> ScoreRow(r, kws) in StyleCandidates(rows, kws)
    ensures IsSubsequence(StyleCandidates(rows, kws), ScoreAll(StyleRows(rows, kws), kws))
  {
    StyleCandidatesSound(rows, kws);
    StyleCandidatesComplete(StyleRows(rows, kws), kws);
    ScoreFilterOrder(StyleRows(rows, kws), kws);
  }

  lemma StyleCandidatesSound(rows: seq<Row>, kws: seq<string>)
    ensures forall i :: 0 <= i < |StyleCandidates(rows, kws)| ==> GoodCandidate(StyleCandidates(rows, kws)[i], rows, kws)
  {
    StyleRowsProps(rows, kws);
    var top := StyleRows(rows, kws);
    var kept := Filter(top, Styled);
    var cands := StyleCandidates(rows, kws);
    forall i | 0 <= i < |cands|
      ensures GoodCandidate(cands[i], rows, kws)
    {
      ScoredRowGood(kept[i], rows, kws);
    }
  }

  lemma ScoredRowGood(r: Row, rows: seq<Row>, kws: seq<string>)
    requires r in rows && StyleHit(r, kws) && Styled(r)
    ensures GoodCandidate(ScoreRow(r, kws), rows, kws)
  {
    RelevanceRange(ElementOf(r), kws);
  }

  lemma StyleCandidatesComplete(top: seq<Row>, kws: seq<string>)
    ensures forall r :: r in top && Styled(r) ==> ScoreRow(r, kws) in ScoreAll(Filter(top, Styled), kws)
  {
    var kept := Filter(top, Styled);
    forall r | r in top && Styled(r)
      ensures ScoreRow(r, kws) in ScoreAll(kept, kws)
    {
      var k :| 0 <= k < |top| && top[k] == r;
      assert r in kept;
      var j :| 0 <= j < |kept| && kept[j] == r;
      assert ScoreAll(kept, kws)[j] == ScoreRow(r, kws);
    }
  }

  ghost predicate GoodCandidate(x: Scored, rows: seq<Row>, kws: seq<string>)
  {
    x.element.category !in SubjectAttributeCategories
    && x.finalScore == x.relevance * x.element.reusability
    && x.relevance == Relevance(x.element, kws)
    && 0.0 <= x.relevance <= 1.0
    && exists r :: r in rows && StyleHit(r, kws) && ElementOf(r) == x.element
  }

  /**
   * The ten best candidates (all of them when fewer), best final score first; each comes from a row with a
   * non-empty template matching a keyword, outside the person-attribute categories,
   * scored as relevance times quality; and no candidate left out beats a kept one.
   * Without keywords the query is rejected.
   */
  lemma SearchStyleElementsProps(rows: seq<Row>, kws: seq<string>)
    ensures SearchStyleElements(rows, kws).Ok? <==> kws != []
    ensures kws != [] ==> var res := SearchStyleElements(rows, kws).value;
      |res| == (if |StyleCandidates(rows, kws)| < 10 then |StyleCandidates(rows, kws)| else 10)
      && multiset(res) <= multiset(StyleCandidates(rows, kws))
      && SortedDesc(res, FinalScore)
      && (forall i :: 0 <= i < |res| ==> GoodCandidate(res[i], rows, kws))
      && (forall x :: x in StyleCandidates(rows, kws) && x !in res ==>
            forall i :: 0 <= i < |res| ==> res[i].finalScore >= x.finalScore)
  {
    if kws != [] {
      var cands := StyleCandidates(rows, kws);
      TopN(cands, FinalScore, 10);
      TopNCount(cands, FinalScore, 10);
      SearchResultsGood(rows, kws);
    }
  }

  lemma SearchResultsGood(rows: seq<Row>, kws: seq<string>)
    requires kws != []
    ensures forall i :: 0 <= i < |SearchStyleElements(rows, kws).value| ==> GoodCandidate(SearchStyleElements(rows, kws).value[i], rows, kws)
  {
    var cands := StyleCandidates(rows, kws);
    StyleCandidatesSound(rows, kws);
    TopN(cands, FinalScore, 10);
    var res := SearchStyleElements(rows, kws).value;
    forall i | 0 <= i < |res|
      ensures GoodCandidate(res[i], rows, kws)
    {
      var k :| 0 <= k < |cands| && cands[k] == res[i];
    }
  }
}
