/**
 * `ElementDB`, the universal element library's store: its six tables held in fields that
 * each operation updates in place. An `add_element` that violates a constraint is rolled
 * back whole; denormalised element totals on categories and domains are kept equal to
 * the counts they cache; tags count every use.
 */
module ElementStore {
  import opened Wrappers
  import opened Seqs
  import opened PyValue
  import opened ElementTables
  import opened ElementLibrary

  /** The first element with the given id, as `SELECT * FROM elements WHERE element_id = ?` finds it. */
  function Lookup(es: seq<StoredElement>, elementId: string): (r: Option<StoredElement>)
    ensures r.Some? <==> elementId in Ids(es)
    ensures r.Some? ==> r.value in es && r.value.elementId == elementId
  {
    if es == [] then None
    else
      assert Ids(es) == [es[0].elementId] + Ids(es[1..]);
      if es[0].elementId == elementId then Some(es[0]) else Lookup(es[1..], elementId)
  }

  lemma IdsConcat(a: seq<StoredElement>, b: seq<StoredElement>)
    ensures Ids(a + b) == Ids(a) + Ids(b)
  {
  }

  lemma ElementsSnoc(vs: seq<ElementView>, v: ElementView)
    ensures Elements(vs + [v]) == Elements(vs) + [v.element]
  {
  }

  /** One more visited entry: the import keeps it exactly when its id is new and its score passes the CHECK. */
  lemma ImportedStep(base: seq<string>, flat: seq<Placed>, i: nat)
    requires i < |flat|
    ensures var before := Imported(base, flat[..i]);
      var x := flat[i];
      Imported(base, flat[..i + 1]) == before + (if Row(x).elementId !in base + Ids(Elements(before)) && ScoreOk(Row(x).score)
                                                 then [ElementView(Row(x), x.2.tags)] else [])
  {
    assert flat[..i + 1][..i] == flat[..i];
  }

  /** The import's loop invariant carried over one `add_element` call. */
  lemma ImportStep(base: seq<StoredElement>, basePairs: set<(string, string)>, flat: seq<Placed>, i: nat,
                   es: seq<StoredElement>, pairs: set<(string, string)>, added: bool)
    requires i < |flat|
    requires es == base + Elements(Imported(Ids(base), flat[..i]))
    requires pairs == basePairs + ImportedPairs(Imported(Ids(base), flat[..i]))
    requires added <==> Row(flat[i]).elementId !in Ids(es) && ScoreOk(Row(flat[i]).score)
    ensures es + (if added then [Row(flat[i])] else []) == base + Elements(Imported(Ids(base), flat[..i + 1]))
    ensures pairs + (if added then set t | t in flat[i].2.tags :: (Row(flat[i]).elementId, t) else {}) ==
      basePairs + ImportedPairs(Imported(Ids(base), flat[..i + 1]))
  {
    var x := flat[i];
    var before := Imported(Ids(base), flat[..i]);
    ImportedStep(Ids(base), flat, i);
    IdsConcat(base, Elements(before));
    var v := ElementView(Row(x), x.2.tags);
    if added {
      ElementsSnoc(before, v);
      assert (before + [v])[..|before|] == before;
      assert ImportedPairs(before + [v]) == ImportedPairs(before) + set t | t in v.tags :: (v.element.elementId, t);
    } else {
      assert before + [] == before;
    }
  }

  lemma DomainsExportSnoc(es: seq<StoredElement>, pairs: set<(string, string)>, domains: map<string, DomainRow>,
                          ds: seq<string>, d: string)
    ensures DomainsExport(es, pairs, domains, ds + [d]) ==
      DomainsExport(es, pairs, domains, ds) + [(d, DomainEntry(es, pairs, domains, d))]
  {
  }

  lemma ExportedDomainsStep(domains: map<string, DomainRow>, ids: seq<string>, i: nat)
    requires i < |ids|
    ensures ExportedDomains(domains, ids[..i + 1]) ==
      ExportedDomains(domains, ids[..i]) + (if ids[i] in domains && domains[ids[i]].total > 0 then [ids[i]] else [])
  {
    assert ids[..i + 1][..i] == ids[..i];
  }

  class ElementDB {
    var elements: seq<StoredElement>
    var categories: map<string, CategoryRow>
    var domains: map<string, DomainRow>
    /** `tags`: the usage count of each tag; tag names are unique, so a name stands for its tag id. */
    var tags: map<string, nat>
    /** `element_tags`: (element id, tag name) pairs. */
    var elementTags: set<(string, string)>
    var sourcePrompts: map<int, SourcePrompt>

    /**
     * The constraints the tables keep: unique element ids, scores within the CHECK range,
     * a category row for every element's category, cached totals equal to the counts,
     * exactly the seven domain rows, and tag pairs naming stored elements and tags.
     */
    ghost predicate Valid()
      reads this
    {
      NoDuplicates(Ids(elements))
      && (forall e :: e in elements ==> ScoreOk(e.score) && e.categoryId in categories)
      && (forall c :: c in categories ==> categories[c].total == CategoryCount(elements, c))
      && (forall d :: d in domains <==> d in DomainIds)
      && (forall d :: d in domains ==> domains[d].total == DomainCount(elements, d))
      && (forall p :: p in elementTags ==> p.0 in Ids(elements) && p.1 in tags)
    }

    /** A new library: empty tables and the seven seeded domains. */
    constructor ()
      ensures Valid()
      ensures elements == [] && categories == map[] && domains == SeedDomains
      ensures tags == map[] && elementTags == {} && sourcePrompts == map[]
    {
      elements := [];
      categories := map[];
      domains := SeedDomains;
      tags := map[];
      elementTags := {};
      sourcePrompts := map[];
      new;
      SeedDomainsKeys();
    }

    /** `_add_tag_to_element`: the tag is created if absent, the pair stored once, and the usage counted on every call. */
    method AddTagToElement(elementId: string, tagName: string)
      modifies this
      ensures tags == old(tags)[tagName := (if tagName in old(tags) then old(tags)[tagName] else 0) + 1]
      ensures elementTags == old(elementTags) + {(elementId, tagName)}
      ensures elements == old(elements) && categories == old(categories) && domains == old(domains)
      ensures sourcePrompts == old(sourcePrompts)
    {
      var usage := if tagName in tags then tags[tagName] else 0;
      elementTags := elementTags + {(elementId, tagName)};
      tags := tags[tagName := usage + 1];
    }

    /** `_update_counts`: the category's and the domain's totals recounted, where those rows exist. */
    method UpdateCounts(domainId: string, categoryId: string)
      modifies this
      ensures categories == if categoryId in old(categories)
        then old(categories)[categoryId := old(categories)[categoryId].(total := CategoryCount(elements, categoryId))]
        else old(categories)
      ensures domains == if domainId in old(domains)
        then old(domains)[domainId := old(domains)[domainId].(total := DomainCount(elements, domainId))]
        else old(domains)
      ensures elements == old(elements) && tags == old(tags) && elementTags == old(elementTags)
      ensures sourcePrompts == old(sourcePrompts)
    {
      if categoryId in categories {
        categories := categories[categoryId := categories[categoryId].(total := CategoryCount(elements, categoryId))];
      }
      if domainId in domains {
        domains := domains[domainId := domains[domainId].(total := DomainCount(elements, domainId))];
      }
    }

    /**
     * `add_element`: succeeds exactly when the id is new and the score is NULL or within
     * [0, 10]; a failure leaves every table as it was. A success appends the row, creates
     * the category row when missing, tags the element and recounts the totals.
     */
    method AddElement(elementId: string, domainId: string, categoryId: string, name: string, template: string,
                      chineseName: Option<string>, keywords: seq<string>, tagList: seq<string>, score: Option<real>,
                      promptIds: seq<int>, learnedFrom: string, metadata: Dict) returns (ok: bool)
      requires Valid()
      modifies this
      ensures Valid()
      ensures ok <==> elementId !in Ids(old(elements)) && ScoreOk(score)
      ensures !ok ==> elements == old(elements) && categories == old(categories) && domains == old(domains)
                      && tags == old(tags) && elementTags == old(elementTags)
      ensures sourcePrompts == old(sourcePrompts)
      ensures ok ==> elements == old(elements) + [StoredElement(elementId, domainId, categoryId, name, chineseName, template,
                                                                keywords, score, promptIds, learnedFrom, metadata)]
      ensures ok ==> categories.Keys == old(categories).Keys + {categoryId}
      ensures ok ==> categories[categoryId] == NewCategory(old(categories), domainId, categoryId).(total := CategoryCount(elements, categoryId))
      ensures ok ==> forall c :: c in old(categories) && c != categoryId ==> categories[c] == old(categories)[c]
      ensures ok ==> domains.Keys == old(domains).Keys
      ensures ok ==> forall d :: d in domains ==> domains[d] == old(domains)[d].(total := DomainCount(elements, d))
      ensures ok ==> tags == AddUsage(old(tags), tagList)
      ensures ok ==> elementTags == old(elementTags) + TagPairs(elementId, tagList)
    {
      if elementId in Ids(elements) || !ScoreOk(score) {
        // The INSERT breaks the primary key or the CHECK constraint: the whole transaction,
        // the category row included, is rolled back.
        return false;
      }
      var e := StoredElement(elementId, domainId, categoryId, name, chineseName, template,
                             keywords, score, promptIds, learnedFrom, metadata);
      if categoryId !in categories {
        categories := categories[categoryId := CategoryRow(domainId, CategoryName(categoryId), 0)];
      }
      elements := elements + [e];
      TagElement(elementId, tagList);
      UpdateCounts(domainId, categoryId);
      ok := true;
      KeepsValid(old(elements), old(categories), old(domains), old(tags), old(elementTags), e, tagList);
    }

    /** The row a new category gets: its domain and its title-cased name, unless the category exists. */
    static function NewCategory(cats: map<string, CategoryRow>, domainId: string, categoryId: string): CategoryRow
    {
      if categoryId in cats then cats[categoryId] else CategoryRow(domainId, CategoryName(categoryId), 0)
    }

    /** `add_element`'s tag loop: `_add_tag_to_element` for each name in turn. */
    method TagElement(elementId: string, tagList: seq<string>)
      modifies this
      ensures tags == AddUsage(old(tags), tagList)
      ensures elementTags == old(elementTags) + TagPairs(elementId, tagList)
      ensures elements == old(elements) && categories == old(categories) && domains == old(domains)
      ensures sourcePrompts == old(sourcePrompts)
    {
      for i := 0 to |tagList|
        invariant tags == AddUsage(old(tags), tagList[..i])
        invariant elementTags == old(elementTags) + TagPairs(elementId, tagList[..i])
        invariant elements == old(elements) && categories == old(categories) && domains == old(domains)
        invariant sourcePrompts == old(sourcePrompts)
      {
        AddTagToElement(elementId, tagList[i]);
        assert tagList[..i + 1][..i] == tagList[..i];
        assert TagPairs(elementId, tagList[..i + 1]) == TagPairs(elementId, tagList[..i]) + {(elementId, tagList[i])};
      }
      assert tagList[..|tagList|] == tagList;
    }

    /** The facts that make a successful `AddElement` keep `Valid`. */
    lemma KeepsValid(es: seq<StoredElement>, cats: map<string, CategoryRow>, doms: map<string, DomainRow>,
                     usage: map<string, nat>, pairs: set<(string, string)>, e: StoredElement, tagList: seq<string>)
      requires NoDuplicates(Ids(es)) && e.elementId !in Ids(es) && ScoreOk(e.score)
      requires forall x :: x in es ==> ScoreOk(x.score) && x.categoryId in cats
      requires forall c :: c in cats ==> cats[c].total == CategoryCount(es, c)
      requires forall d :: d in doms <==> d in DomainIds
      requires forall d :: d in doms ==> doms[d].total == DomainCount(es, d)
      requires forall p :: p in pairs ==> p.0 in Ids(es) && p.1 in usage
      requires elements == es + [e]
      requires categories.Keys == cats.Keys + {e.categoryId}
      requires categories[e.categoryId].total == CategoryCount(elements, e.categoryId)
      requires forall c :: c in cats && c != e.categoryId ==> categories[c] == cats[c]
      requires domains == if e.domainId in doms then doms[e.domainId := doms[e.domainId].(total := DomainCount(elements, e.domainId))] else doms
      requires tags == AddUsage(usage, tagList)
      requires elementTags == pairs + TagPairs(e.elementId, tagList)
      ensures Valid()
      ensures forall d :: d in domains ==> domains[d] == doms[d].(total := DomainCount(elements, d))
    {
      IdsSnoc(es, e);
      NoDuplicatesSnoc(Ids(es), [e.elementId]);
      CountsSnoc(es, e);
      AddUsageProps(usage, tagList);
      forall p | p in elementTags
        ensures p.0 in Ids(elements) && p.1 in tags
      {
        if p !in pairs {
          assert p.1 in SetOf(tagList);
        }
      }
    }

    /**
     * `save_source_prompt`: a new id is inserted as completed with the text's length; an
     * id already stored instead adds to its extracted count and is marked completed,
     * every other column kept. It always reports success.
     */
    method SaveSourcePrompt(promptId: int, original: string, theme: Option<string>, classification: Option<string>,
                            quality: Option<real>, complexity: Option<string>, extracted: int) returns (ok: bool)
      modifies this
      ensures ok
      ensures promptId !in old(sourcePrompts) ==> sourcePrompts == old(sourcePrompts)[promptId :=
        SourcePrompt(original, |original|, theme, classification, quality, complexity, "completed", extracted)]
      ensures promptId in old(sourcePrompts) ==> sourcePrompts == old(sourcePrompts)[promptId :=
        old(sourcePrompts)[promptId].(extracted := old(sourcePrompts)[promptId].extracted + extracted, status := "completed")]
      ensures elements == old(elements) && categories == old(categories) && domains == old(domains)
      ensures tags == old(tags) && elementTags == old(elementTags)
    {
      if promptId !in sourcePrompts {
        sourcePrompts := sourcePrompts[promptId :=
          SourcePrompt(original, |original|, theme, classification, quality, complexity, "completed", extracted)];
      } else {
        // The primary key rejects the INSERT; the UPDATE runs instead.
        var row := sourcePrompts[promptId];
        sourcePrompts := sourcePrompts[promptId := row.(extracted := row.extracted + extracted, status := "completed")];
      }
      ok := true;
    }

    /** `get_element`: the element with that id and its tags, or nothing when no element has it. */
    function GetElement(elementId: string): (r: Option<ElementView>)
      reads this
      requires Valid()
      ensures r.None? <==> elementId !in Ids(elements)
      ensures r.Some? ==> r.value.element in elements && r.value.element.elementId == elementId
                          && r.value.tags == TagsOf(elementTags, elementId)
      ensures r.Some? ==> forall e :: e in elements && e.elementId == elementId ==> e == r.value.element
    {
      IdsDetermine(elements);
      var found := Lookup(elements, elementId);
      if found.Some? then Some(View(elementTags, found.value)) else None
    }

    /** `search_by_domain`: the rows `DomainSearch` selects, in its order, each with its tags. */
    method SearchByDomain(domainId: string, categoryId: Option<string>, minScore: Option<real>, limit: Option<int>)
      returns (r: seq<ElementView>)
      ensures Elements(r) == DomainSearch(elements, domainId, categoryId, minScore, limit)
      ensures forall i :: 0 <= i < |r| ==> r[i].tags == TagsOf(elementTags, r[i].element.elementId)
    {
      var rows := DomainSearch(elements, domainId, categoryId, minScore, limit);
      r := [];
      for i := 0 to |rows|
        invariant Elements(r) == rows[..i]
        invariant forall j :: 0 <= j < |r| ==> r[j].tags == TagsOf(elementTags, r[j].element.elementId)
      {
        ElementsSnoc(r, View(elementTags, rows[i]));
        r := r + [View(elementTags, rows[i])];
      }
      assert rows[..|rows|] == rows;
    }

    /** `search_by_tags`: the rows `TagSearch` selects, in table order, each with its tags. */
    method SearchByTags(tagList: seq<string>, requireAll: bool) returns (r: seq<ElementView>)
      ensures Elements(r) == TagSearch(elements, elementTags, tagList, requireAll)
      ensures forall i :: 0 <= i < |r| ==> r[i].tags == TagsOf(elementTags, r[i].element.elementId)
    {
      var rows := TagSearch(elements, elementTags, tagList, requireAll);
      r := [];
      for i := 0 to |rows|
        invariant Elements(r) == rows[..i]
        invariant forall j :: 0 <= j < |r| ==> r[j].tags == TagsOf(elementTags, r[j].element.elementId)
      {
        ElementsSnoc(r, View(elementTags, rows[i]));
        r := r + [View(elementTags, rows[i])];
      }
      assert rows[..|rows|] == rows;
    }

    /** `_clear_all_data`: every table emptied except the domain rows, whose totals drop to zero. */
    method ClearAllData()
      requires Valid()
      modifies this
      ensures Valid()
      ensures elements == [] && categories == map[] && tags == map[] && elementTags == {} && sourcePrompts == map[]
      ensures domains.Keys == old(domains).Keys
      ensures forall d :: d in domains ==> domains[d] == old(domains)[d].(total := 0)
    {
      elementTags := {};
      elements := [];
      tags := map[];
      categories := map[];
      sourcePrompts := map[];
      domains := map d | d in domains :: domains[d].(total := 0);
    }

    // -------------------------------------------------------------------------
    // export_to_json

    /** One category's export: its elements keyed by name, and the number of rows fetched for it. */
    method ExportCategory(domainId: string, categoryId: string) returns (entries: Entries, rows: nat)
      ensures entries == CategoryEntries(elements, elementTags, domainId, categoryId)
      ensures rows == PairCount(elements, domainId, categoryId)
    {
      entries := [];
      rows := 0;
      for i := 0 to |elements|
        invariant entries == CategoryEntries(elements[..i], elementTags, domainId, categoryId)
        invariant rows == PairCount(elements[..i], domainId, categoryId)
      {
        assert elements[..i + 1][..i] == elements[..i];
        var e := elements[i];
        if e.domainId == domainId && e.categoryId == categoryId {
          entries := PutEntry(entries, e.name, View(elementTags, e));
          rows := rows + 1;
        }
      }
      assert elements[..|elements|] == elements;
    }

    /** `SELECT DISTINCT category_id FROM elements WHERE domain_id = ?`, in first-seen order. */
    method CategoriesOf(domainId: string) returns (cs: seq<string>)
      ensures cs == CategoriesIn(elements, domainId)
    {
      cs := [];
      for i := 0 to |elements|
        invariant cs == Dedupe(CategoryIdsIn(elements[..i], domainId))
      {
        assert elements[..i + 1][..i] == elements[..i];
        var e := elements[i];
        ghost var seen := CategoryIdsIn(elements[..i], domainId);
        assert CategoryIdsIn(elements[..i + 1], domainId) == seen + (if e.domainId == domainId then [e.categoryId] else []);
        DedupeProps(seen);
        if e.domainId == domainId {
          DedupeSnoc(seen, e.categoryId);
          if e.categoryId !in cs {
            cs := cs + [e.categoryId];
          }
        } else {
          assert seen + [] == seen;
        }
      }
      assert elements[..|elements|] == elements;
    }

    /** One domain's export and the number of element rows fetched for it. */
    method ExportDomain(domainId: string) returns (de: DomainExport, rows: nat)
      ensures de == DomainEntry(elements, elementTags, domains, domainId)
      ensures rows == RowsIn(elements, domainId, CategoriesIn(elements, domainId))
    {
      var cs := CategoriesOf(domainId);
      var cats: seq<(string, Entries)> := [];
      rows := 0;
      for j := 0 to |cs|
        invariant cats == CategoriesExport(elements, elementTags, domainId, cs[..j])
        invariant rows == RowsIn(elements, domainId, cs[..j])
      {
        assert cs[..j + 1][..j] == cs[..j];
        var entries, n := ExportCategory(domainId, cs[j]);
        rows := rows + n;
        if entries != [] {
          cats := cats + [(cs[j], entries)];
        }
      }
      assert cs[..|cs|] == cs;
      var row := if domainId in domains then domains[domainId] else DomainRow("", "", 0);
      de := DomainExport(row.name, row.total, cats);
    }

    /**
     * `export_to_json`, the timestamp aside: the domains with elements in creation order,
     * each with its categories and elements, the running element counter, the tag index
     * and the source prompts.
     */
    method ExportToJson() returns (lib: Library)
      ensures lib == Export(elements, elementTags, domains, tags, sourcePrompts)
    {
      var ds: seq<string> := [];
      var doms: seq<(string, DomainExport)> := [];
      var total := 0;
      for i := 0 to |DomainIds|
        invariant ds == ExportedDomains(domains, DomainIds[..i])
        invariant doms == DomainsExport(elements, elementTags, domains, ds)
        invariant total == RowsAll(elements, ds)
      {
        var d := DomainIds[i];
        ExportedDomainsStep(domains, DomainIds, i);
        if d in domains && domains[d].total > 0 {
          var de, n := ExportDomain(d);
          DomainsExportSnoc(elements, elementTags, domains, ds, d);
          assert (ds + [d])[..|ds|] == ds;
          ds := ds + [d];
          doms := doms + [(d, de)];
          total := total + n;
        }
      }
      assert DomainIds[..|DomainIds|] == DomainIds;
      lib := Library(total, |ds|, doms, TagIndex(tags, elementTags), sourcePrompts);
    }

    // -------------------------------------------------------------------------
    // import_from_json

    /** One `add_element` call of the import: the element filed under domain `x.0` and category `x.1`, with its tags. */
    method ImportOne(x: Placed) returns (added: bool)
      requires Valid()
      modifies this
      ensures Valid()
      ensures added <==> Row(x).elementId !in Ids(old(elements)) && ScoreOk(Row(x).score)
      ensures elements == old(elements) + (if added then [Row(x)] else [])
      ensures elementTags == old(elementTags) + (if added then set t | t in x.2.tags :: (Row(x).elementId, t) else {})
      ensures tags == (if added then AddUsageOnce(old(tags), x.2.tags) else old(tags))
      ensures !added ==> categories == old(categories) && domains == old(domains)
      ensures added ==> categories.Keys == old(categories).Keys + {x.1}
      ensures added ==> categories[x.1] == NewCategory(old(categories), x.0, x.1).(total := CategoryCount(elements, x.1))
      ensures added ==> forall c :: c in old(categories) && c != x.1 ==> categories[c] == old(categories)[c]
      ensures added ==> forall d :: d in domains ==> domains[d] == old(domains)[d].(total := DomainCount(elements, d))
      ensures sourcePrompts == old(sourcePrompts) && domains.Keys == old(domains).Keys
    {
      var e := Row(x);
      var tagList := ListOf(x.2.tags);
      added := AddElement(e.elementId, x.0, x.1, e.name, e.template, e.chineseName, e.keywords, tagList,
                          e.score, e.sourcePrompts, e.learnedFrom, e.metadata);
      assert TagPairs(e.elementId, tagList) == set t | t in x.2.tags :: (e.elementId, t);
      assert SetOf(tagList) == x.2.tags;
      AddUsageDistinct(old(tags), tagList);
    }

    /**
     * `import_from_json`: optionally clears the library, then calls `add_element` for every
     * element of the library's domains in nesting order, under the domain and category
     * keys it is filed under; the elements whose id is new and whose score passes are
     * added with their tags. The tag index and source prompts of the library are not read.
     */
    method ImportFromJson(lib: Library, clearExisting: bool) returns (ok: bool)
      requires Valid()
      modifies this
      ensures Valid() && ok
      ensures var base := if clearExisting then [] else old(elements);
        elements == base + Elements(Imported(Ids(base), Flat(lib.domains)))
      ensures var base := if clearExisting then [] else old(elements);
        var basePairs := if clearExisting then {} else old(elementTags);
        elementTags == basePairs + ImportedPairs(Imported(Ids(base), Flat(lib.domains)))
      ensures sourcePrompts == if clearExisting then map[] else old(sourcePrompts)
      ensures domains.Keys == old(domains).Keys
    {
      if clearExisting {
        ClearAllData();
      }
      ghost var base := elements;
      ghost var basePairs := elementTags;
      ghost var prompts := sourcePrompts;
      var flat := Flat(lib.domains);
      for i := 0 to |flat|
        invariant Valid()
        invariant elements == base + Elements(Imported(Ids(base), flat[..i]))
        invariant elementTags == basePairs + ImportedPairs(Imported(Ids(base), flat[..i]))
        invariant sourcePrompts == prompts && domains.Keys == old(domains).Keys
      {
        ghost var es, pairs := elements, elementTags;
        var added := ImportOne(flat[i]);
        ImportStep(base, basePairs, flat, i, es, pairs, added);
      }
      assert flat[..|flat|] == flat;
      ok := true;
    }
  }
}
