/**
 * The JSON form of the element library (`export_to_json` / `import_from_json`) as
 * values: domain → category → element name → element, each dict an ordered list of
 * (key, value) pairs. `Export` is what the export writes, `Flat` the order in which the
 * import visits the elements, and `Imported` what the import's `add_element` calls keep.
 */
module ElementLibrary {
  import opened Wrappers
  import opened Seqs
  import opened ElementTables

  /** A category's elements keyed by name, in dict order. */
  type Entries = seq<(string, ElementView)>

  datatype DomainExport = DomainExport(name: string, totalElements: nat, categories: seq<(string, Entries)>)

  datatype Library = Library(
    totalElements: nat,
    totalDomains: nat,
    domains: seq<(string, DomainExport)>,
    tagIndex: map<string, set<string>>,
    sourcePrompts: map<int, SourcePrompt>)

  /** `m[k] = v` on an insertion-ordered dict: an existing key keeps its place. */
  function PutEntry(m: Entries, k: string, v: ElementView): (r: Entries)
    ensures (k, v) in r
    ensures forall p :: p in r ==> p == (k, v) || p in m
    ensures forall p :: p in m && p.0 != k ==> p in r
    ensures (forall p :: p in m ==> p.0 != k) ==> r == m + [(k, v)]
  {
    if m == [] then [(k, v)]
    else if m[0].0 == k then [(k, v)] + m[1..]
    else [m[0]] + PutEntry(m[1..], k, v)
  }

  predicate InCategory(e: StoredElement, d: string, c: string)
  {
    e.domainId == d && e.categoryId == c
  }

  /** The export of one category: each of its elements under its name, a later name overwriting an earlier one. */
  function CategoryEntries(es: seq<StoredElement>, pairs: set<(string, string)>, d: string, c: string): Entries
  {
    if es == [] then []
    else
      var before := CategoryEntries(es[..|es| - 1], pairs, d, c);
      var last := es[|es| - 1];
      if InCategory(last, d, c) then PutEntry(before, last.name, View(pairs, last)) else before
  }

  /** `SELECT category_id FROM elements WHERE domain_id = d`, before DISTINCT. */
  function CategoryIdsIn(es: seq<StoredElement>, d: string): seq<string>
  {
    if es == [] then []
    else
      var last := es[|es| - 1];
      CategoryIdsIn(es[..|es| - 1], d) + (if last.domainId == d then [last.categoryId] else [])
  }

  function CategoriesIn(es: seq<StoredElement>, d: string): seq<string>
  {
    Dedupe(CategoryIdsIn(es, d))
  }

  /** The domain's categories, each with its entries, skipping a category whose entries are empty. */
  function CategoriesExport(es: seq<StoredElement>, pairs: set<(string, string)>, d: string, cs: seq<string>): seq<(string, Entries)>
  {
    if cs == [] then []
    else
      var c := cs[|cs| - 1];
      var entries := CategoryEntries(es, pairs, d, c);
      CategoriesExport(es, pairs, d, cs[..|cs| - 1]) + (if entries != [] then [(c, entries)] else [])
  }

  /** `SELECT * FROM domains WHERE total_elements > 0`, in creation order. */
  function ExportedDomains(domains: map<string, DomainRow>, ids: seq<string>): seq<string>
  {
    if ids == [] then []
    else
      var d := ids[|ids| - 1];
      ExportedDomains(domains, ids[..|ids| - 1]) + (if d in domains && domains[d].total > 0 then [d] else [])
  }

  function DomainEntry(es: seq<StoredElement>, pairs: set<(string, string)>, domains: map<string, DomainRow>, d: string): DomainExport
  {
    var row := if d in domains then domains[d] else DomainRow("", "", 0);
    DomainExport(row.name, row.total, CategoriesExport(es, pairs, d, CategoriesIn(es, d)))
  }

  function DomainsExport(es: seq<StoredElement>, pairs: set<(string, string)>, domains: map<string, DomainRow>, ds: seq<string>): seq<(string, DomainExport)>
  {
    seq(|ds|, i requires 0 <= i < |ds| => (ds[i], DomainEntry(es, pairs, domains, ds[i])))
  }

  /** Elements of domain `d` and category `c`. */
  function PairCount(es: seq<StoredElement>, d: string, c: string): nat
  {
    if es == [] then 0
    else PairCount(es[..|es| - 1], d, c) + (if InCategory(es[|es| - 1], d, c) then 1 else 0)
  }

  /** The rows the export fetches for the categories `cs` of domain `d`. */
  function RowsIn(es: seq<StoredElement>, d: string, cs: seq<string>): nat
  {
    if cs == [] then 0 else RowsIn(es, d, cs[..|cs| - 1]) + PairCount(es, d, cs[|cs| - 1])
  }

  /** The export's `total_elements` counter: one per fetched row over all exported domains. */
  function RowsAll(es: seq<StoredElement>, ds: seq<string>): nat
  {
    if ds == [] then 0 else RowsAll(es, ds[..|ds| - 1]) + RowsIn(es, ds[|ds| - 1], CategoriesIn(es, ds[|ds| - 1]))
  }

  /** The domains' own element totals summed. */
  function DomainTotals(es: seq<StoredElement>, ds: seq<string>): nat
  {
    if ds == [] then 0 else DomainTotals(es, ds[..|ds| - 1]) + DomainCount(es, ds[|ds| - 1])
  }

  /** `tag_index`: every tag with the ids of the elements carrying it. */
  function TagIndex(usage: map<string, nat>, pairs: set<(string, string)>): map<string, set<string>>
  {
    map t | t in usage :: set p | p in pairs && p.1 == t :: p.0
  }

  /** What `export_to_json` writes, the timestamp aside. */
  function Export(es: seq<StoredElement>, pairs: set<(string, string)>, domains: map<string, DomainRow>,
                  usage: map<string, nat>, prompts: map<int, SourcePrompt>): Library
  {
    var ds := ExportedDomains(domains, DomainIds);
    Library(RowsAll(es, ds), |ds|, DomainsExport(es, pairs, domains, ds), TagIndex(usage, pairs), prompts)
  }

  // ---------------------------------------------------------------------------
  // The import's view of a library

  /** An element as the import meets it: its domain key, its category key and the element. */
  type Placed = (string, string, ElementView)

  function FlatEntries(d: string, c: string, m: Entries): seq<Placed>
  {
    seq(|m|, i requires 0 <= i < |m| => (d, c, m[i].1))
  }

  function FlatCategories(d: string, cats: seq<(string, Entries)>): seq<Placed>
  {
    if cats == [] then []
    else FlatCategories(d, cats[..|cats| - 1]) + FlatEntries(d, cats[|cats| - 1].0, cats[|cats| - 1].1)
  }

  /** Every element of the library, in the import's nested-loop order. */
  function Flat(doms: seq<(string, DomainExport)>): seq<Placed>
  {
    if doms == [] then []
    else Flat(doms[..|doms| - 1]) + FlatCategories(doms[|doms| - 1].0, doms[|doms| - 1].1.categories)
  }

  /** The row `add_element` inserts for an imported element: its fields under the dict's domain and category keys. */
  function Row(x: Placed): StoredElement
  {
    x.2.element.(domainId := x.0, categoryId := x.1)
  }

  function Elements(vs: seq<ElementView>): seq<StoredElement>
  {
    seq(|vs|, i requires 0 <= i < |vs| => vs[i].element)
  }

  /**
   * The elements an import adds to a library holding the ids `base`: in visiting order,
   * each whose id is new and whose score passes the CHECK constraint.
   */
  function Imported(base: seq<string>, flat: seq<Placed>): seq<ElementView>
  {
    if flat == [] then []
    else
      var before := Imported(base, flat[..|flat| - 1]);
      var x := flat[|flat| - 1];
      before + (if Row(x).elementId !in base + Ids(Elements(before)) && ScoreOk(Row(x).score)
                then [ElementView(Row(x), x.2.tags)] else [])
  }

  /** The element-tag pairs the import's `add_element` calls create. */
  function ImportedPairs(vs: seq<ElementView>): set<(string, string)>
  {
    if vs == [] then {}
    else
      var v := vs[|vs| - 1];
      ImportedPairs(vs[..|vs| - 1]) + set t | t in v.tags :: (v.element.elementId, t)
  }

  // ---------------------------------------------------------------------------
  // Lemmas

  /** Element ids are unique, so an id names one element. */
  lemma IdsDetermine(es: seq<StoredElement>)
    requires NoDuplicates(Ids(es))
    ensures forall a, b :: a in es && b in es && a.elementId == b.elementId ==> a == b
  {
    forall a, b | a in es && b in es && a.elementId == b.elementId
      ensures a == b
    {
      var i :| 0 <= i < |es| && es[i] == a;
      var j :| 0 <= j < |es| && es[j] == b;
      assert Ids(es)[i] == Ids(es)[j];
    }
  }

  /** No two elements share domain, category and name. */
  predicate UniqueNames(es: seq<StoredElement>)
  {
    forall a, b :: a in es && b in es && a.domainId == b.domainId && a.categoryId == b.categoryId && a.name == b.name ==> a == b
  }

  lemma PrefixMember(es: seq<StoredElement>, e: StoredElement)
    requires es != [] && e in es && e != es[|es| - 1]
    ensures e in es[..|es| - 1]
  {
    var i :| 0 <= i < |es| && es[i] == e;
    assert es[..|es| - 1][i] == e;
  }

  /** Every exported entry of a category is one of its elements under its name. */
  lemma {:induction false} CategoryEntriesSound(es: seq<StoredElement>, pairs: set<(string, string)>, d: string, c: string)
    ensures forall p :: p in CategoryEntries(es, pairs, d, c) ==>
      exists e :: e in es && InCategory(e, d, c) && p == (e.name, View(pairs, e))
  {
    if es != [] {
      var init := es[..|es| - 1];
      CategoryEntriesSound(init, pairs, d, c);
      forall p | p in CategoryEntries(es, pairs, d, c)
        ensures exists e :: e in es && InCategory(e, d, c) && p == (e.name, View(pairs, e))
      {
        if p !in CategoryEntries(init, pairs, d, c) {
          assert es[|es| - 1] in es;
        } else {
          var e :| e in init && InCategory(e, d, c) && p == (e.name, View(pairs, e));
          assert e in es;
        }
      }
    }
  }

  /** With unique names, every element of a category is exported under its name. */
  lemma {:induction false} CategoryEntriesComplete(es: seq<StoredElement>, pairs: set<(string, string)>, d: string, c: string)
    requires UniqueNames(es)
    ensures forall e :: e in es && InCategory(e, d, c) ==> (e.name, View(pairs, e)) in CategoryEntries(es, pairs, d, c)
  {
    if es != [] {
      var init := es[..|es| - 1];
      var last := es[|es| - 1];
      assert UniqueNames(init) by {
        forall a, b | a in init && b in init
          ensures a in es && b in es
        {
        }
      }
      CategoryEntriesComplete(init, pairs, d, c);
      forall e | e in es && InCategory(e, d, c)
        ensures (e.name, View(pairs, e)) in CategoryEntries(es, pairs, d, c)
      {
        if e != last {
          PrefixMember(es, e);
          if InCategory(last, d, c) {
            assert e.name != last.name;
          }
        }
      }
    }
  }

  lemma {:induction false} CategoryIdsInMembers(es: seq<StoredElement>, d: string)
    ensures forall c :: c in CategoryIdsIn(es, d) <==> exists e :: e in es && InCategory(e, d, c)
  {
    if es != [] {
      var init := es[..|es| - 1];
      var last := es[|es| - 1];
      CategoryIdsInMembers(init, d);
      assert CategoryIdsIn(es, d) == CategoryIdsIn(init, d) + (if last.domainId == d then [last.categoryId] else []);
      forall c
        ensures c in CategoryIdsIn(es, d) <==> exists e :: e in es && InCategory(e, d, c)
      {
        if c in CategoryIdsIn(es, d) && c !in CategoryIdsIn(init, d) {
          assert InCategory(last, d, c) && last in es;
        }
        if exists e :: e in es && InCategory(e, d, c) {
          var e :| e in es && InCategory(e, d, c);
          if e != es[|es| - 1] {
            PrefixMember(es, e);
          }
        }
        if c in CategoryIdsIn(init, d) {
          var e :| e in init && InCategory(e, d, c);
          assert e in es;
        }
      }
    }
  }

  /** The exported categories of a domain: each category holding one of its elements, once. */
  lemma CategoriesInMembers(es: seq<StoredElement>, d: string)
    ensures NoDuplicates(CategoriesIn(es, d))
    ensures forall c :: c in CategoriesIn(es, d) <==> exists e :: e in es && InCategory(e, d, c)
  {
    DedupeProps(CategoryIdsIn(es, d));
    CategoryIdsInMembers(es, d);
  }

  lemma {:induction false} CategoriesExportMembers(es: seq<StoredElement>, pairs: set<(string, string)>, d: string, cs: seq<string>)
    ensures forall p :: p in CategoriesExport(es, pairs, d, cs) ==> p.0 in cs && p.1 == CategoryEntries(es, pairs, d, p.0)
    ensures forall c :: c in cs && CategoryEntries(es, pairs, d, c) != [] ==>
      (c, CategoryEntries(es, pairs, d, c)) in CategoriesExport(es, pairs, d, cs)
  {
    if cs != [] {
      CategoriesExportMembers(es, pairs, d, cs[..|cs| - 1]);
      assert cs == cs[..|cs| - 1] + [cs[|cs| - 1]];
    }
  }

  lemma {:induction false} ExportedDomainsMembers(domains: map<string, DomainRow>, ids: seq<string>)
    ensures forall d :: d in ExportedDomains(domains, ids) <==> d in ids && d in domains && domains[d].total > 0
    ensures NoDuplicates(ids) ==> NoDuplicates(ExportedDomains(domains, ids))
  {
    if ids != [] {
      var init := ids[..|ids| - 1];
      var d := ids[|ids| - 1];
      ExportedDomainsMembers(domains, init);
      assert ids == init + [d];
      if NoDuplicates(ids) {
        assert NoDuplicates(init) by {
          forall i, j | 0 <= i < j < |init|
            ensures init[i] != init[j]
          {
            assert ids[i] == init[i] && ids[j] == init[j];
          }
        }
        forall i | 0 <= i < |init|
          ensures init[i] != d
        {
          assert ids[i] == init[i];
        }
        NoDuplicatesSnoc(ExportedDomains(domains, init), if d in domains && domains[d].total > 0 then [d] else []);
      }
    }
  }

  lemma FlatEntriesMembers(d: string, c: string, m: Entries)
    ensures forall x :: x in FlatEntries(d, c, m) <==> exists q :: q in m && x == (d, c, q.1)
  {
    forall x | exists q :: q in m && x == (d, c, q.1)
      ensures x in FlatEntries(d, c, m)
    {
      var q :| q in m && x == (d, c, q.1);
      var i :| 0 <= i < |m| && m[i] == q;
      assert FlatEntries(d, c, m)[i] == x;
    }
  }

  lemma {:induction false} FlatCategoriesMembers(d: string, cats: seq<(string, Entries)>)
    ensures forall x :: x in FlatCategories(d, cats) <==> exists p, q :: p in cats && q in p.1 && x == (d, p.0, q.1)
  {
    if cats != [] {
      var init := cats[..|cats| - 1];
      var last := cats[|cats| - 1];
      FlatCategoriesMembers(d, init);
      FlatEntriesMembers(d, last.0, last.1);
      forall x
        ensures x in FlatCategories(d, cats) <==> exists p, q :: p in cats && q in p.1 && x == (d, p.0, q.1)
      {
        if exists p, q :: p in cats && q in p.1 && x == (d, p.0, q.1) {
          var p, q :| p in cats && q in p.1 && x == (d, p.0, q.1);
          if p != last {
            var i :| 0 <= i < |cats| && cats[i] == p;
            assert init[i] == p;
          }
        }
        if exists p, q :: p in init && q in p.1 && x == (d, p.0, q.1) {
          var p, q :| p in init && q in p.1 && x == (d, p.0, q.1);
          assert p in cats;
        }
      }
    }
  }

  lemma {:induction false} FlatMembers(doms: seq<(string, DomainExport)>)
    ensures forall x :: x in Flat(doms) <==> exists p :: p in doms && x in FlatCategories(p.0, p.1.categories)
  {
    if doms != [] {
      var init := doms[..|doms| - 1];
      var last := doms[|doms| - 1];
      FlatMembers(init);
      forall x
        ensures x in Flat(doms) <==> exists p :: p in doms && x in FlatCategories(p.0, p.1.categories)
      {
        if exists p :: p in doms && x in FlatCategories(p.0, p.1.categories) {
          var p :| p in doms && x in FlatCategories(p.0, p.1.categories);
          if p != last {
            var i :| 0 <= i < |doms| && doms[i] == p;
            assert init[i] == p;
          }
        }
        if exists p :: p in init && x in FlatCategories(p.0, p.1.categories) {
          var p :| p in init && x in FlatCategories(p.0, p.1.categories);
          assert p in doms;
        }
      }
    }
  }

  /** The domains exported: exactly the seven whose element total is positive, each once. */
  lemma ExportedDomainsProps(es: seq<StoredElement>, domains: map<string, DomainRow>)
    requires forall d :: d in DomainIds ==> d in domains && domains[d].total == DomainCount(es, d)
    ensures NoDuplicates(ExportedDomains(domains, DomainIds))
    ensures forall e :: e in es ==> (e.domainId in ExportedDomains(domains, DomainIds) <==> e.domainId in DomainIds)
  {
    SeedDomainsKeys();
    ExportedDomainsMembers(domains, DomainIds);
    forall e | e in es
      ensures e.domainId in DomainIds ==> domains[e.domainId].total > 0
    {
      CountsPositive(es, e);
    }
  }

  /** Every entry of an export is an element of a domain among the seven, placed under its own domain and category. */
  lemma ExportSound(es: seq<StoredElement>, pairs: set<(string, string)>, domains: map<string, DomainRow>,
                    usage: map<string, nat>, prompts: map<int, SourcePrompt>)
    requires forall d :: d in DomainIds ==> d in domains && domains[d].total == DomainCount(es, d)
    ensures forall x :: x in Flat(Export(es, pairs, domains, usage, prompts).domains) ==>
      exists e :: e in es && e.domainId in DomainIds && x == (e.domainId, e.categoryId, View(pairs, e))
  {
    var ds := ExportedDomains(domains, DomainIds);
    var doms := DomainsExport(es, pairs, domains, ds);
    ExportedDomainsProps(es, domains);
    ExportedDomainsMembers(domains, DomainIds);
    FlatMembers(doms);
    forall x | x in Flat(doms)
      ensures exists e :: e in es && e.domainId in DomainIds && x == (e.domainId, e.categoryId, View(pairs, e))
    {
      var p :| p in doms && x in FlatCategories(p.0, p.1.categories);
      var i :| 0 <= i < |doms| && doms[i] == p;
      var d := ds[i];
      FlatCategoriesMembers(d, p.1.categories);
      var cat, q :| cat in p.1.categories && q in cat.1 && x == (d, cat.0, q.1);
      CategoriesExportMembers(es, pairs, d, CategoriesIn(es, d));
      CategoryEntriesSound(es, pairs, d, cat.0);
      var e :| e in es && InCategory(e, d, cat.0) && q == (e.name, View(pairs, e));
      assert d in DomainIds;
    }
  }

  /** With unique names, every element of the seven domains is exported under its own domain and category. */
  lemma ExportComplete(es: seq<StoredElement>, pairs: set<(string, string)>, domains: map<string, DomainRow>,
                       usage: map<string, nat>, prompts: map<int, SourcePrompt>)
    requires forall d :: d in DomainIds ==> d in domains && domains[d].total == DomainCount(es, d)
    requires UniqueNames(es)
    ensures forall e :: e in es && e.domainId in DomainIds ==>
      (e.domainId, e.categoryId, View(pairs, e)) in Flat(Export(es, pairs, domains, usage, prompts).domains)
  {
    var ds := ExportedDomains(domains, DomainIds);
    var doms := DomainsExport(es, pairs, domains, ds);
    ExportedDomainsProps(es, domains);
    FlatMembers(doms);
    forall e | e in es && e.domainId in DomainIds
      ensures (e.domainId, e.categoryId, View(pairs, e)) in Flat(doms)
    {
      var d, c := e.domainId, e.categoryId;
      var i :| 0 <= i < |ds| && ds[i] == d;
      var p := doms[i];
      CategoriesInMembers(es, d);
      CategoryEntriesComplete(es, pairs, d, c);
      var entries := CategoryEntries(es, pairs, d, c);
      assert (e.name, View(pairs, e)) in entries;
      CategoriesExportMembers(es, pairs, d, CategoriesIn(es, d));
      assert (c, entries) in p.1.categories;
      FlatCategoriesMembers(d, p.1.categories);
      assert (d, c, View(pairs, e)) in FlatCategories(p.0, p.1.categories);
    }
  }

  /** The import keeps one view per distinct id when an id always comes with the same element. */
  lemma {:induction false} ImportedMembers(base: seq<string>, flat: seq<Placed>)
    requires forall x :: x in flat ==> x.2.element.elementId !in base && ScoreOk(x.2.element.score)
    requires forall x, y :: x in flat && y in flat && x.2.element.elementId == y.2.element.elementId ==> x == y
    ensures forall v :: v in Imported(base, flat) <==> exists x :: x in flat && v == ElementView(Row(x), x.2.tags)
    ensures forall id :: id in Ids(Elements(Imported(base, flat))) ==> exists x :: x in flat && x.2.element.elementId == id
  {
    if flat != [] {
      var init := flat[..|flat| - 1];
      var last := flat[|flat| - 1];
      assert forall x :: x in init ==> x in flat;
      ImportedMembers(base, init);
      var before := Imported(base, init);
      var added := if Row(last).elementId !in base + Ids(Elements(before)) && ScoreOk(Row(last).score)
                   then [ElementView(Row(last), last.2.tags)] else [];
      assert Imported(base, flat) == before + added;
      assert Ids(Elements(before + added)) == Ids(Elements(before)) + Ids(Elements(added));
      forall v
        ensures v in Imported(base, flat) <==> exists x :: x in flat && v == ElementView(Row(x), x.2.tags)
      {
        if exists x :: x in flat && v == ElementView(Row(x), x.2.tags) {
          var x :| x in flat && v == ElementView(Row(x), x.2.tags);
          if x != last {
            var i :| 0 <= i < |flat| && flat[i] == x;
            assert init[i] == x;
          } else if Row(last).elementId in Ids(Elements(before)) {
            var y :| y in init && y.2.element.elementId == Row(last).elementId;
            assert y == last;
          }
        }
      }
      forall id | id in Ids(Elements(Imported(base, flat)))
        ensures exists x :: x in flat && x.2.element.elementId == id
      {
        if id in Ids(Elements(before)) {
          var y :| y in init && y.2.element.elementId == id;
          assert y in flat;
        } else {
          assert id == Row(last).elementId;
        }
      }
    }
  }

  lemma {:induction false} ImportedPairsMembers(vs: seq<ElementView>)
    ensures forall p :: p in ImportedPairs(vs) <==> exists v :: v in vs && p.0 == v.element.elementId && p.1 in v.tags
  {
    if vs != [] {
      var init := vs[..|vs| - 1];
      ImportedPairsMembers(init);
      assert vs == init + [vs[|vs| - 1]];
    }
  }

  /**
   * Round trip: importing an export into an empty library re-adds exactly the elements of
   * the seven domains, each with the same row (id, name, template, keywords, score, ...)
   * and the same tags, provided names are unique per category.
   */
  lemma RoundTrip(es: seq<StoredElement>, pairs: set<(string, string)>, domains: map<string, DomainRow>,
                  usage: map<string, nat>, prompts: map<int, SourcePrompt>)
    requires NoDuplicates(Ids(es))
    requires forall e :: e in es ==> ScoreOk(e.score)
    requires UniqueNames(es)
    requires forall d :: d in DomainIds ==> d in domains && domains[d].total == DomainCount(es, d)
    ensures var imported := Imported([], Flat(Export(es, pairs, domains, usage, prompts).domains));
      (forall v :: v in imported <==> v.element in es && v.element.domainId in DomainIds && v == View(pairs, v.element))
      && (forall p :: p in ImportedPairs(imported) <==>
            p in pairs && exists e :: e in es && e.domainId in DomainIds && e.elementId == p.0)
  {
    var flat := Flat(Export(es, pairs, domains, usage, prompts).domains);
    ExportSound(es, pairs, domains, usage, prompts);
    ExportComplete(es, pairs, domains, usage, prompts);
    IdsDetermine(es);
    forall x, y | x in flat && y in flat && x.2.element.elementId == y.2.element.elementId
      ensures x == y
    {
      var a :| a in es && a.domainId in DomainIds && x == (a.domainId, a.categoryId, View(pairs, a));
      var b :| b in es && b.domainId in DomainIds && y == (b.domainId, b.categoryId, View(pairs, b));
    }
    forall x | x in flat
      ensures x.2.element.elementId !in [] && ScoreOk(x.2.element.score)
    {
      var a :| a in es && a.domainId in DomainIds && x == (a.domainId, a.categoryId, View(pairs, a));
    }
    ImportedMembers([], flat);
    var imported := Imported([], flat);
    forall v
      ensures v in imported <==> v.element in es && v.element.domainId in DomainIds && v == View(pairs, v.element)
    {
      if v in imported {
        var x :| x in flat && v == ElementView(Row(x), x.2.tags);
        var a :| a in es && a.domainId in DomainIds && x == (a.domainId, a.categoryId, View(pairs, a));
        assert Row(x) == a;
      }
      if v.element in es && v.element.domainId in DomainIds && v == View(pairs, v.element) {
        var a := v.element;
        var x := (a.domainId, a.categoryId, View(pairs, a));
        assert x in flat && Row(x) == a;
      }
    }
    ImportedPairsMembers(imported);
    forall p
      ensures p in ImportedPairs(imported) <==> p in pairs && exists e :: e in es && e.domainId in DomainIds && e.elementId == p.0
    {
      if p in pairs && exists e :: e in es && e.domainId in DomainIds && e.elementId == p.0 {
        var e :| e in es && e.domainId in DomainIds && e.elementId == p.0;
        assert View(pairs, e) in imported;
        assert p.1 in TagsOf(pairs, e.elementId);
      }
      if p in ImportedPairs(imported) {
        var v :| v in imported && p.0 == v.element.elementId && p.1 in v.tags;
        assert p.1 in TagsOf(pairs, v.element.elementId);
        var q :| q in pairs && q.0 == v.element.elementId && q.1 == p.1;
        assert q == p;
      }
    }
  }

  /** Adding an element of domain `d` adds one fetched row exactly when its category is listed, once. */
  lemma {:induction false} RowsInSnoc(es: seq<StoredElement>, x: StoredElement, d: string, cs: seq<string>)
    requires NoDuplicates(cs)
    ensures RowsIn(es + [x], d, cs) == RowsIn(es, d, cs) + (if x.domainId == d && x.categoryId in cs then 1 else 0)
  {
    assert (es + [x])[..|es|] == es;
    if cs != [] {
      var init := cs[..|cs| - 1];
      assert NoDuplicates(init) by {
        forall i, j | 0 <= i < j < |init|
          ensures init[i] != init[j]
        {
          assert cs[i] == init[i] && cs[j] == init[j];
        }
      }
      RowsInSnoc(es, x, d, init);
      assert cs == init + [cs[|cs| - 1]];
      forall i | 0 <= i < |init|
        ensures init[i] != cs[|cs| - 1]
      {
        assert cs[i] == init[i];
      }
    }
  }

  lemma {:induction false} PairCountPositive(es: seq<StoredElement>, d: string, c: string)
    ensures PairCount(es, d, c) > 0 ==> exists e :: e in es && InCategory(e, d, c)
  {
    if es != [] {
      PairCountPositive(es[..|es| - 1], d, c);
      if PairCount(es[..|es| - 1], d, c) > 0 {
        var e :| e in es[..|es| - 1] && InCategory(e, d, c);
        assert e in es;
      }
    }
  }

  /** Counting per category over a list naming each of the domain's categories once counts the whole domain. */
  lemma {:induction false} RowsInPartition(es: seq<StoredElement>, d: string, cs: seq<string>)
    requires NoDuplicates(cs)
    requires forall c :: PairCount(es, d, c) > 0 ==> c in cs
    ensures RowsIn(es, d, cs) == DomainCount(es, d)
  {
    if es != [] {
      var init := es[..|es| - 1];
      var x := es[|es| - 1];
      assert es == init + [x];
      forall c | PairCount(init, d, c) > 0
        ensures c in cs
      {
        assert PairCount(es, d, c) > 0;
      }
      RowsInPartition(init, d, cs);
      RowsInSnoc(init, x, d, cs);
      if x.domainId == d {
        assert PairCount(es, d, x.categoryId) > 0;
      }
    } else {
      RowsInEmpty(d, cs);
    }
  }

  lemma {:induction false} RowsInEmpty(d: string, cs: seq<string>)
    ensures RowsIn([], d, cs) == 0
  {
    if cs != [] {
      RowsInEmpty(d, cs[..|cs| - 1]);
    }
  }

  /** The export's `total_elements` is the sum of the exported domains' element counts. */
  lemma {:induction false} RowsAllIsDomainTotals(es: seq<StoredElement>, ds: seq<string>)
    ensures RowsAll(es, ds) == DomainTotals(es, ds)
  {
    if ds != [] {
      RowsAllIsDomainTotals(es, ds[..|ds| - 1]);
      var d := ds[|ds| - 1];
      CategoriesInMembers(es, d);
      forall c | PairCount(es, d, c) > 0
        ensures c in CategoriesIn(es, d)
      {
        PairCountPositive(es, d, c);
      }
      RowsInPartition(es, d, CategoriesIn(es, d));
    }
  }
}
