/**
 * The `elements` table as the intelligent generator queries it, and its two
 * category lookups. The table is a sequence of rows in table order; the JSON
 * `keywords` column is carried both as its stored text (which SQL `LIKE` sees)
 * and as its decoded value (None when the column is empty or not valid JSON).
 */
module ElementLookup {
  import opened Wrappers
  import opened Text
  import opened Sorting

  datatype Row = Row(
    elementId: string,
    domainId: string,
    categoryId: string,
    name: string,
    chineseName: string,
    template: string,
    keywordsText: string,
    keywords: Option<seq<string>>,
    score: real)

  /** The dictionary the generator builds from a row. */
  datatype Element = Element(
    elementId: string,
    name: string,
    chineseName: string,
    template: string,
    keywords: Option<seq<string>>,
    reusability: real,
    category: string)

  function ElementOf(r: Row): Element
  {
    Element(r.elementId, r.name, r.chineseName, r.template, r.keywords, r.score, r.categoryId)
  }

  function RowScore(r: Row): real { r.score }

  /**
   * SQLite's `LIKE` without an ESCAPE clause: `%` matches any run of characters, `_`
   * any one character, and any other character itself, ignoring the case of ASCII letters.
   */
  predicate LikeMatch(s: string, p: string)
    decreases |s| + |p|
  {
    if p == [] then s == []
    else if p[0] == '%' then LikeMatch(s, p[1..]) || (s != [] && LikeMatch(s[1..], p))
    else s != [] && (p[0] == '_' || LowerChar(s[0]) == LowerChar(p[0])) && LikeMatch(s[1..], p[1..])
  }

  /** `text LIKE '%f%'`: the pattern built around a filter or a keyword, whose own `%` and `_` stay wildcards. */
  predicate Like(text: string, f: string)
  {
    LikeMatch(text, "%" + f + "%")
  }

  /** A `%`-free pattern `f` covers the characters of `s` from position `i` on. */
  predicate FitsAt(s: string, f: string, i: int)
  {
    0 <= i && i + |f| <= |s| && forall k :: 0 <= k < |f| ==> f[k] == '_' || LowerChar(s[i + k]) == LowerChar(f[k])
  }

  predicate NoWildcards(f: string)
  {
    forall k :: 0 <= k < |f| ==> f[k] != '%' && f[k] != '_'
  }

  lemma {:induction false} LikeAnyRest(s: string)
    ensures LikeMatch(s, "%")
    decreases |s|
  {
    assert "%"[1..] == [];
    if s != [] {
      LikeAnyRest(s[1..]);
    }
  }

  /** A `%`-free pattern followed by `%` matches exactly the texts it fits at their start. */
  lemma {:induction false} LikePrefixFits(s: string, f: string)
    requires forall k :: 0 <= k < |f| ==> f[k] != '%'
    ensures LikeMatch(s, f + "%") <==> FitsAt(s, f, 0)
    decreases |f|
  {
    if f == [] {
      assert f + "%" == "%";
      LikeAnyRest(s);
    } else if s != [] {
      var p := f + "%";
      assert p[0] == f[0] && p[1..] == f[1..] + "%";
      LikePrefixFits(s[1..], f[1..]);
      if FitsAt(s, f, 0) {
        forall k | 0 <= k < |f[1..]|
          ensures f[1..][k] == '_' || LowerChar(s[1..][k]) == LowerChar(f[1..][k])
        {
          assert f[1..][k] == f[k + 1] && s[1..][k] == s[k + 1];
        }
      }
      if LikeMatch(s, p) {
        forall k | 0 <= k < |f|
          ensures f[k] == '_' || LowerChar(s[k]) == LowerChar(f[k])
        {
          if k > 0 {
            assert f[1..][k - 1] == f[k] && s[1..][k - 1] == s[k];
          }
        }
      }
    }
  }

  /** Fitting one position further into the text is fitting into its tail. */
  lemma FitsShift(s: string, f: string, j: int)
    requires s != [] && 0 <= j
    ensures FitsAt(s[1..], f, j) <==> FitsAt(s, f, j + 1)
  {
    if FitsAt(s[1..], f, j) {
      forall k | 0 <= k < |f|
        ensures f[k] == '_' || LowerChar(s[j + 1 + k]) == LowerChar(f[k])
      {
        assert s[1..][j + k] == s[j + 1 + k];
      }
    }
    if FitsAt(s, f, j + 1) {
      forall k | 0 <= k < |f|
        ensures f[k] == '_' || LowerChar(s[1..][j + k]) == LowerChar(f[k])
      {
        assert s[1..][j + k] == s[j + 1 + k];
      }
    }
  }

  /** `text LIKE '%f%'` for a `%`-free `f`: `f` fits the text at some position, `_` standing for any character. */
  lemma {:induction false} LikeFits(s: string, f: string)
    requires forall k :: 0 <= k < |f| ==> f[k] != '%'
    ensures Like(s, f) <==> exists i :: FitsAt(s, f, i)
    decreases |s|
  {
    var pat := "%" + f + "%";
    assert pat[0] == '%' && pat[1..] == f + "%";
    LikePrefixFits(s, f);
    if s != [] {
      LikeFits(s[1..], f);
      if exists i :: FitsAt(s, f, i) {
        var i :| FitsAt(s, f, i);
        if i > 0 {
          FitsShift(s, f, i - 1);
        }
      }
      if exists j :: FitsAt(s[1..], f, j) {
        var j :| FitsAt(s[1..], f, j);
        FitsShift(s, f, j);
      }
    }
  }

  /** Without wildcards, `text LIKE '%f%'` is Python's `f.lower() in text.lower()` on ASCII text. */
  lemma LikePlain(s: string, f: string)
    requires NoWildcards(f)
    ensures Like(s, f) <==> Contains(Lower(s), Lower(f))
  {
    LikeFits(s, f);
    ContainsIff(Lower(s), Lower(f));
    forall i
      ensures FitsAt(s, f, i) <==> OccursAt(Lower(s), Lower(f), i)
    {
      if FitsAt(s, f, i) {
        assert forall k :: 0 <= k < |f| ==> Lower(s)[i..i + |f|][k] == Lower(f)[k];
        assert Lower(s)[i..i + |f|] == Lower(f);
      }
      if OccursAt(Lower(s), Lower(f), i) {
        forall k | 0 <= k < |f|
          ensures LowerChar(s[i + k]) == LowerChar(f[k])
        {
          assert Lower(s)[i..i + |f|][k] == Lower(f)[k];
        }
      }
    }
  }

  /**
   * The underscore the parser writes into an ethnicity is a wildcard: the filter
   * `East_Asian` finds a template that spells the words with a space.
   */
  lemma UnderscoreMatchesSpace()
    ensures Like("East Asian skin", "East_Asian")
    ensures !NoWildcards("East_Asian")
  {
    LikeFits("East Asian skin", "East_Asian");
    assert FitsAt("East Asian skin", "East_Asian", 0);
    assert "East_Asian"[4] == '_';
  }

  /** The WHERE clause: domain, category and, for a non-empty filter, template or keywords LIKE it. */
  predicate Matches(r: Row, domain: string, category: string, filter: string)
  {
    r.domainId == domain && r.categoryId == category
    && (filter == "" || Like(r.template, filter) || Like(r.keywordsText, filter))
  }

  /** The exact-name fallback query's WHERE clause. */
  predicate NameMatches(r: Row, domain: string, category: string, name: string)
  {
    r.domainId == domain && r.categoryId == category && r.name == name
  }

  function Candidates(rows: seq<Row>, domain: string, category: string, filter: string): seq<Row>
  {
    SortDesc(Filter(rows, r => Matches(r, domain, category, filter)), RowScore)
  }

  function ExactCandidates(rows: seq<Row>, domain: string, category: string, name: string): seq<Row>
  {
    SortDesc(Filter(rows, r => NameMatches(r, domain, category, name)), RowScore)
  }

  /**
   * `get_element_by_category`: the highest-scoring matching row; with a filter whose
   * text differs (ignoring case) from that row's name, the highest-scoring row whose
   * name equals the filter exactly instead, or nothing. An empty filter means none.
   */
  function GetElementByCategory(rows: seq<Row>, domain: string, category: string, filter: string): (r: Option<Element>)
    ensures r.Some? ==> r.value.category == category
    ensures r.Some? ==> exists row :: row in rows && row.domainId == domain && ElementOf(row) == r.value
    ensures r.Some? && filter != "" ==> Lower(r.value.name) == Lower(filter)
    ensures filter == "" ==> (r.None? <==> forall row :: row in rows ==> !(row.domainId == domain && row.categoryId == category))
    ensures filter == "" && r.Some? ==>
      forall row :: row in rows && row.domainId == domain && row.categoryId == category ==> row.score <= r.value.reusability
    ensures filter != "" && Candidates(rows, domain, category, filter) == [] ==> r.None?
    ensures var cands := Candidates(rows, domain, category, filter);
      filter != "" && cands != [] && Lower(cands[0].name) == Lower(filter) ==> r == Some(ElementOf(cands[0]))
    ensures var cands := Candidates(rows, domain, category, filter);
      var exact := ExactCandidates(rows, domain, category, filter);
      filter != "" && cands != [] && Lower(cands[0].name) != Lower(filter) ==>
        r == (if exact == [] then None else Some(ElementOf(exact[0])))
  {
    var cands := Candidates(rows, domain, category, filter);
    CandidatesProps(rows, domain, category, filter);
    if cands == [] then None
    else if filter != "" && Lower(cands[0].name) != Lower(filter) then
      var exact := ExactCandidates(rows, domain, category, filter);
      ExactCandidatesProps(rows, domain, category, filter);
      if exact == [] then None
      else
        assert exact[0] in exact;
        Some(ElementOf(exact[0]))
    else
      assert cands[0] in cands;
      Some(ElementOf(cands[0]))
  }

  /** `get_all_elements_by_category`: every matching row, highest score first. */
  function GetAllElementsByCategory(rows: seq<Row>, domain: string, category: string, filter: string): (r: seq<Element>)
    ensures |r| == |Candidates(rows, domain, category, filter)|
    ensures forall i :: 0 <= i < |r| ==> r[i].category == category
    ensures forall i, j :: 0 <= i < j < |r| ==> r[i].reusability >= r[j].reusability
    ensures forall row :: row in rows && Matches(row, domain, category, filter) ==> ElementOf(row) in r
    ensures forall i :: 0 <= i < |r| ==> exists row :: row in rows && Matches(row, domain, category, filter) && r[i] == ElementOf(row)
  {
    var cands := Candidates(rows, domain, category, filter);
    CandidatesProps(rows, domain, category, filter);
    var r := seq(|cands|, i requires 0 <= i < |cands| => ElementOf(cands[i]));
    assert forall i :: 0 <= i < |cands| ==> cands[i] in cands;
    assert forall row :: row in cands ==> ElementOf(row) in r by {
      forall row | row in cands
        ensures ElementOf(row) in r
      {
        var k :| 0 <= k < |cands| && cands[k] == row;
        assert r[k] == ElementOf(row);
      }
    }
    r
  }

  lemma CandidatesProps(rows: seq<Row>, domain: string, category: string, filter: string)
    ensures SortedDesc(Candidates(rows, domain, category, filter), RowScore)
    ensures forall row :: row in Candidates(rows, domain, category, filter) <==> row in rows && Matches(row, domain, category, filter)
  {
    var f := Filter(rows, r => Matches(r, domain, category, filter));
    SortDescProps(f, RowScore);
    SortDescMembers(f, RowScore);
    forall row
      ensures row in f <==> row in rows && Matches(row, domain, category, filter)
    {
      if row in rows && Matches(row, domain, category, filter) {
        var k :| 0 <= k < |rows| && rows[k] == row;
      }
    }
  }

  lemma ExactCandidatesProps(rows: seq<Row>, domain: string, category: string, name: string)
    ensures SortedDesc(ExactCandidates(rows, domain, category, name), RowScore)
    ensures forall row :: row in ExactCandidates(rows, domain, category, name) <==> row in rows && NameMatches(row, domain, category, name)
  {
    var f := Filter(rows, r => NameMatches(r, domain, category, name));
    SortDescProps(f, RowScore);
    SortDescMembers(f, RowScore);
    forall row
      ensures row in f <==> row in rows && NameMatches(row, domain, category, name)
    {
      if row in rows && NameMatches(row, domain, category, name) {
        var k :| 0 <= k < |rows| && rows[k] == row;
      }
    }
  }

  /**
   * The exact-name fallback only runs after the LIKE query found something: a row
   * named exactly like the filter is not found when no row's template or keywords
   * mention the filter.
   */
  lemma ExactNameNeedsLikeHit(rows: seq<Row>, domain: string, category: string, filter: string)
    requires filter != ""
    requires forall row :: row in rows ==> !Matches(row, domain, category, filter)
    ensures GetElementByCategory(rows, domain, category, filter) == None
  {
    CandidatesProps(rows, domain, category, filter);
    assert Candidates(rows, domain, category, filter) == [];
  }
}
