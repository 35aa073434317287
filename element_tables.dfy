/**
 * The universal element library's tables as values: element rows, category and domain
 * rows with their element totals, tags with usage counts, element-tag pairs and learned
 * source prompts, plus the row filters the library's queries apply.
 */
module ElementTables {
  import opened Wrappers
  import opened Seqs
  import opened Sorting
  import opened Text
  import opened PyValue

  /** A row of `elements`; the JSON columns hold their decoded values. */
  datatype StoredElement = StoredElement(
    elementId: string,
    domainId: string,
    categoryId: string,
    name: string,
    chineseName: Option<string>,
    template: string,
    keywords: seq<string>,
    score: Option<real>,
    sourcePrompts: seq<int>,
    learnedFrom: string,
    metadata: Dict)

  datatype CategoryRow = CategoryRow(domainId: string, name: string, total: nat)

  datatype DomainRow = DomainRow(name: string, description: string, total: nat)

  datatype SourcePrompt = SourcePrompt(
    original: string,
    length: nat,
    theme: Option<string>,
    classification: Option<string>,
    quality: Option<real>,
    complexity: Option<string>,
    status: string,
    extracted: int)

  /** An element as the queries return it: its row and its tag names. */
  datatype ElementView = ElementView(element: StoredElement, tags: set<string>)

  /** The seven domains, in the order they are created. */
  const DomainIds: seq<string> := ["portrait", "interior", "product", "design", "art", "video", "common"]

  /** The domain rows a new library starts with, every total zero. */
  const SeedDomains: map<string, DomainRow> := map[
    "portrait" := DomainRow("人像摄影", "Portrait photography elements", 0),
    "interior" := DomainRow("室内设计", "Interior design elements", 0),
    "product" := DomainRow("产品摄影", "Product photography elements", 0),
    "design" := DomainRow("平面设计", "Graphic design elements", 0),
    "art" := DomainRow("艺术风格", "Art style elements", 0),
    "video" := DomainRow("视频生成", "Video generation elements", 0),
    "common" := DomainRow("通用摄影", "Common photography techniques", 0)
  ]

  lemma SeedDomainsKeys()
    ensures forall d :: d in SeedDomains <==> d in DomainIds
    ensures NoDuplicates(DomainIds)
    ensures forall d :: d in SeedDomains ==> SeedDomains[d].total == 0
  {
  }

  /** The CHECK constraint on `reusability_score`: NULL or within [0, 10]. */
  predicate ScoreOk(score: Option<real>)
  {
    score.None? || (0.0 <= score.value && score.value <= 10.0)
  }

  function Ids(es: seq<StoredElement>): seq<string>
  {
    seq(|es|, i requires 0 <= i < |es| => es[i].elementId)
  }

  lemma IdsSnoc(es: seq<StoredElement>, x: StoredElement)
    ensures Ids(es + [x]) == Ids(es) + [x.elementId]
  {
  }

  /** `SELECT COUNT(*) FROM elements WHERE category_id = c` */
  function CategoryCount(es: seq<StoredElement>, c: string): nat
  {
    if es == [] then 0
    else CategoryCount(es[..|es| - 1], c) + (if es[|es| - 1].categoryId == c then 1 else 0)
  }

  /** `SELECT COUNT(*) FROM elements WHERE domain_id = d` */
  function DomainCount(es: seq<StoredElement>, d: string): nat
  {
    if es == [] then 0
    else DomainCount(es[..|es| - 1], d) + (if es[|es| - 1].domainId == d then 1 else 0)
  }

  lemma CountsSnoc(es: seq<StoredElement>, x: StoredElement)
    ensures forall c :: CategoryCount(es + [x], c) == CategoryCount(es, c) + (if x.categoryId == c then 1 else 0)
    ensures forall d :: DomainCount(es + [x], d) == DomainCount(es, d) + (if x.domainId == d then 1 else 0)
  {
    assert (es + [x])[..|es|] == es;
  }

  /** A stored element counts in its own category and domain. */
  lemma {:induction false} CountsPositive(es: seq<StoredElement>, e: StoredElement)
    requires e in es
    ensures CategoryCount(es, e.categoryId) > 0 && DomainCount(es, e.domainId) > 0
  {
    var init := es[..|es| - 1];
    if es[|es| - 1] != e {
      assert e in init by {
        var i :| 0 <= i < |es| && es[i] == e;
        assert init[i] == e;
      }
      CountsPositive(init, e);
    }
  }

  /** `category_id.replace('_', ' ').title()` on ASCII text. */
  function CategoryName(c: string): string
  {
    var spaced := seq(|c|, i requires 0 <= i < |c| => if c[i] == '_' then ' ' else c[i]);
    Title(spaced)
  }

  predicate IsCased(c: char)
  {
    'a' <= c <= 'z' || 'A' <= c <= 'Z'
  }

  function UpperChar(c: char): char
  {
    if 'a' <= c <= 'z' then (c as int - 32) as char else c
  }

  /** `str.title()`: a letter after a non-letter is upper-cased, any other letter lower-cased. */
  function Title(s: string): string
  {
    seq(|s|, i requires 0 <= i < |s| =>
      if !IsCased(s[i]) then s[i]
      else if i > 0 && IsCased(s[i - 1]) then LowerChar(s[i])
      else UpperChar(s[i]))
  }

  // ---------------------------------------------------------------------------
  // Tags

  /** The tag names paired with an element. */
  function TagsOf(pairs: set<(string, string)>, elementId: string): set<string>
  {
    set p | p in pairs && p.0 == elementId :: p.1
  }

  function View(pairs: set<(string, string)>, e: StoredElement): ElementView
  {
    ElementView(e, TagsOf(pairs, e.elementId))
  }

  function SetOf(tags: seq<string>): set<string>
  {
    set t | t in tags
  }

  function TagPairs(elementId: string, tags: seq<string>): set<(string, string)>
  {
    set t | t in tags :: (elementId, t)
  }

  /** Usage counts after tagging with each name in turn: every call counts. */
  function AddUsage(usage: map<string, nat>, tags: seq<string>): map<string, nat>
  {
    if tags == [] then usage
    else
      var before := AddUsage(usage, tags[..|tags| - 1]);
      var t := tags[|tags| - 1];
      before[t := (if t in before then before[t] else 0) + 1]
  }

  /**
   * A tag exists afterwards iff it existed or was given; its usage grows by the number of
   * times it was given, so repeating a tag counts twice although the pair is stored once.
   */
  lemma {:induction false} AddUsageProps(usage: map<string, nat>, tags: seq<string>)
    ensures AddUsage(usage, tags).Keys == usage.Keys + SetOf(tags)
    ensures forall t :: t in AddUsage(usage, tags) ==>
      AddUsage(usage, tags)[t] == (if t in usage then usage[t] else 0) + Count(tags, t)
  {
    if tags != [] {
      var init := tags[..|tags| - 1];
      var last := tags[|tags| - 1];
      AddUsageProps(usage, init);
      assert tags == init + [last];
      assert SetOf(tags) == SetOf(init) + {last};
      forall t
        ensures Count(tags, t) == Count(init, t) + (if t == last then 1 else 0)
      {
        CountAppend(init, [last], t);
        assert [last][1..] == [];
      }
      forall t | t in usage.Keys + SetOf(init) && t !in usage
        ensures Count(init, t) > 0
      {
        CountPositive(init, t);
      }
      CountPositive(init, last);
    }
  }

  /** Usage counts after tagging once with each name of a set. */
  function AddUsageOnce(usage: map<string, nat>, ts: set<string>): map<string, nat>
  {
    map t | t in usage.Keys + ts :: (if t in usage then usage[t] else 0) + (if t in ts then 1 else 0)
  }

  /** Tagging with a list free of repeats counts every name once, whatever the order. */
  lemma AddUsageDistinct(usage: map<string, nat>, tags: seq<string>)
    requires NoDuplicates(tags)
    ensures AddUsage(usage, tags) == AddUsageOnce(usage, SetOf(tags))
  {
    AddUsageProps(usage, tags);
    forall t | t in AddUsage(usage, tags)
      ensures AddUsage(usage, tags)[t] == AddUsageOnce(usage, SetOf(tags))[t]
    {
      CountNoDuplicates(tags, t);
    }
  }

  /** `require_all`: as many distinct matching tag names as names were asked for. */
  predicate CarriesAll(carried: set<string>, tags: seq<string>)
  {
    tags != [] && |carried * SetOf(tags)| == |tags|
  }

  predicate CarriesAny(carried: set<string>, tags: seq<string>)
  {
    exists t :: t in tags && t in carried
  }

  lemma {:induction false} SetOfSize(tags: seq<string>)
    ensures |SetOf(tags)| <= |tags|
    ensures |SetOf(tags)| == |tags| <==> NoDuplicates(tags)
  {
    if tags != [] {
      var init := tags[..|tags| - 1];
      var last := tags[|tags| - 1];
      SetOfSize(init);
      assert tags == init + [last];
      assert SetOf(tags) == SetOf(init) + {last};
      if last in init {
        assert SetOf(tags) == SetOf(init);
        var i :| 0 <= i < |init| && init[i] == last;
        assert tags[i] == tags[|tags| - 1];
      } else {
        NoDuplicatesFresh(init, last);
      }
    }
  }

  /** Appending a value the sequence does not hold keeps it free of repeats, and only then. */
  lemma NoDuplicatesFresh(init: seq<string>, last: string)
    requires last !in init
    ensures NoDuplicates(init + [last]) <==> NoDuplicates(init)
  {
    var tags := init + [last];
    if NoDuplicates(init) {
      forall i, j | 0 <= i < j < |tags|
        ensures tags[i] != tags[j]
      {
        if j == |tags| - 1 {
          assert tags[i] == init[i];
        } else {
          assert tags[i] == init[i] && tags[j] == init[j];
        }
      }
    }
    if NoDuplicates(tags) {
      forall i, j | 0 <= i < j < |init|
        ensures init[i] != init[j]
      {
        assert tags[i] == init[i] && tags[j] == init[j];
      }
    }
  }

  lemma SubsetSize(a: set<string>, b: set<string>)
    requires a <= b
    ensures |a| <= |b|
    ensures |a| == |b| ==> a == b
  {
    assert b == a + (b - a);
    assert |b| == |a| + |b - a|;
    if |a| == |b| {
      assert |b - a| == 0;
      assert b - a == {};
    }
  }

  /**
   * `require_all` selects exactly the elements carrying every listed tag, provided the
   * list is non-empty and has no repeats; a list with a repeated name selects nothing.
   */
  lemma CarriesAllMeaning(carried: set<string>, tags: seq<string>)
    ensures CarriesAll(carried, tags) <==>
      tags != [] && NoDuplicates(tags) && forall t :: t in tags ==> t in carried
  {
    SetOfSize(tags);
    SubsetSize(carried * SetOf(tags), SetOf(tags));
    if tags != [] && NoDuplicates(tags) && forall t :: t in tags ==> t in carried {
      assert carried * SetOf(tags) == SetOf(tags);
    }
    if CarriesAll(carried, tags) {
      assert carried * SetOf(tags) == SetOf(tags);
      forall t | t in tags
        ensures t in carried
      {
        assert t in SetOf(tags);
      }
    }
  }

  predicate TagMatch(pairs: set<(string, string)>, e: StoredElement, tags: seq<string>, requireAll: bool)
  {
    if requireAll then CarriesAll(TagsOf(pairs, e.elementId), tags) else CarriesAny(TagsOf(pairs, e.elementId), tags)
  }

  /** The elements `search_by_tags` selects, in table order. */
  function TagSearch(es: seq<StoredElement>, pairs: set<(string, string)>, tags: seq<string>, requireAll: bool): seq<StoredElement>
  {
    if es == [] then []
    else
      var last := es[|es| - 1];
      TagSearch(es[..|es| - 1], pairs, tags, requireAll) + (if TagMatch(pairs, last, tags, requireAll) then [last] else [])
  }

  /** Each selected element once, in table order, and exactly those that match. */
  lemma {:induction false} TagSearchProps(es: seq<StoredElement>, pairs: set<(string, string)>, tags: seq<string>, requireAll: bool)
    ensures IsSubsequence(TagSearch(es, pairs, tags, requireAll), es)
    ensures forall e :: e in TagSearch(es, pairs, tags, requireAll) <==> e in es && TagMatch(pairs, e, tags, requireAll)
    ensures NoDuplicates(Ids(es)) ==> NoDuplicates(TagSearch(es, pairs, tags, requireAll))
  {
    if es != [] {
      var init := es[..|es| - 1];
      var last := es[|es| - 1];
      TagSearchProps(init, pairs, tags, requireAll);
      assert es == init + [last];
      var keep := if TagMatch(pairs, last, tags, requireAll) then [last] else [];
      assert IsSubsequence(keep, [last]) by {
        assert [last][1..] == [];
      }
      SubsequenceConcat(TagSearch(init, pairs, tags, requireAll), init, keep, [last]);
      if NoDuplicates(Ids(es)) {
        assert Ids(es) == Ids(init) + [last.elementId];
        assert NoDuplicates(Ids(init)) by {
          forall i, j | 0 <= i < j < |init|
            ensures Ids(init)[i] != Ids(init)[j]
          {
            assert Ids(es)[i] == Ids(init)[i] && Ids(es)[j] == Ids(init)[j];
          }
        }
        forall i | 0 <= i < |init|
          ensures init[i] != last
        {
          assert Ids(es)[i] != Ids(es)[|es| - 1];
        }
        NoDuplicatesSnoc(TagSearch(init, pairs, tags, requireAll), keep);
      }
    }
  }

  lemma NoDuplicatesSnoc<T>(a: seq<T>, b: seq<T>)
    requires NoDuplicates(a) && NoDuplicates(b)
    requires forall x :: x in b ==> x !in a
    ensures NoDuplicates(a + b)
  {
    forall i, j | 0 <= i < j < |a + b|
      ensures (a + b)[i] != (a + b)[j]
    {
      if j < |a| {
        assert (a + b)[i] == a[i] && (a + b)[j] == a[j];
      } else if i < |a| {
        assert (a + b)[i] == a[i] && a[i] in a;
        assert (a + b)[j] == b[j - |a|] && b[j - |a|] in b;
      } else {
        assert (a + b)[i] == b[i - |a|] && (a + b)[j] == b[j - |a|];
      }
    }
  }

  // ---------------------------------------------------------------------------
  // search_by_domain

  /** The WHERE clause: the domain, the category when one is given and non-empty, the minimum score when given. */
  predicate DomainMatch(e: StoredElement, domainId: string, categoryId: Option<string>, minScore: Option<real>)
  {
    e.domainId == domainId
    && (categoryId.None? || categoryId.value == "" || e.categoryId == categoryId.value)
    && (minScore.None? || (e.score.Some? && e.score.value >= minScore.value))
  }

  /** The sort key of `ORDER BY reusability_score DESC`: NULL sorts below every score. */
  function ScoreKey(e: StoredElement): real
  {
    if e.score.Some? then e.score.value else -1.0
  }

  function Matching(es: seq<StoredElement>, domainId: string, categoryId: Option<string>, minScore: Option<real>): seq<StoredElement>
  {
    if es == [] then []
    else
      var last := es[|es| - 1];
      Matching(es[..|es| - 1], domainId, categoryId, minScore)
        + (if DomainMatch(last, domainId, categoryId, minScore) then [last] else [])
  }

  lemma {:induction false} MatchingMembers(es: seq<StoredElement>, domainId: string, categoryId: Option<string>, minScore: Option<real>)
    ensures forall e :: e in Matching(es, domainId, categoryId, minScore) <==> e in es && DomainMatch(e, domainId, categoryId, minScore)
  {
    if es != [] {
      MatchingMembers(es[..|es| - 1], domainId, categoryId, minScore);
      assert es == es[..|es| - 1] + [es[|es| - 1]];
    }
  }

  /** A LIMIT applies only when truthy; SQLite reads a negative LIMIT as no limit. */
  function Limited(s: seq<StoredElement>, limit: Option<int>): seq<StoredElement>
  {
    if limit.Some? && limit.value > 0 then Take(s, limit.value) else s
  }

  function DomainSearch(es: seq<StoredElement>, domainId: string, categoryId: Option<string>, minScore: Option<real>,
                        limit: Option<int>): seq<StoredElement>
  {
    Limited(SortDesc(Matching(es, domainId, categoryId, minScore), ScoreKey), limit)
  }

  /**
   * `search_by_domain` returns matching elements only, highest score first with unscored
   * ones last; without a positive limit it returns every match, with one the best
   * `limit` of them.
   */
  lemma DomainSearchProps(es: seq<StoredElement>, domainId: string, categoryId: Option<string>, minScore: Option<real>,
                          limit: Option<int>)
    requires forall e :: e in es ==> ScoreOk(e.score)
    ensures var r := DomainSearch(es, domainId, categoryId, minScore, limit);
      (forall e :: e in r ==> e in es && DomainMatch(e, domainId, categoryId, minScore))
      && SortedDesc(r, ScoreKey)
      && (forall i, j :: 0 <= i < j < |r| && r[i].score.None? ==> r[j].score.None?)
    ensures var r := DomainSearch(es, domainId, categoryId, minScore, limit);
      (limit.None? || limit.value <= 0) ==>
        |r| == |Matching(es, domainId, categoryId, minScore)|
        && forall e :: e in r <==> e in es && DomainMatch(e, domainId, categoryId, minScore)
    ensures var r := DomainSearch(es, domainId, categoryId, minScore, limit);
      var m := Matching(es, domainId, categoryId, minScore);
      limit.Some? && limit.value > 0 ==>
        |r| == (if limit.value < |m| then limit.value else |m|)
        && forall e :: e in m && e !in r ==> forall i :: 0 <= i < |r| ==> ScoreKey(r[i]) >= ScoreKey(e)
  {
    var m := Matching(es, domainId, categoryId, minScore);
    MatchingMembers(es, domainId, categoryId, minScore);
    SortDescProps(m, ScoreKey);
    SortDescMembers(m, ScoreKey);
    var sorted := SortDesc(m, ScoreKey);
    var r := DomainSearch(es, domainId, categoryId, minScore, limit);
    if limit.Some? && limit.value > 0 {
      TopN(m, ScoreKey, limit.value);
    }
    assert forall i :: 0 <= i < |r| ==> r[i] in m;
    forall i, j | 0 <= i < j < |r| && r[i].score.None?
      ensures r[j].score.None?
    {
      assert r[j] in m;
      assert ScoreKey(r[i]) >= ScoreKey(r[j]);
    }
  }
}
