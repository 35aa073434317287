/**
 * `DesignVariableSampler`: for a design style, one variable of each variable type
 * (colours, borders, …) from the `design_variables` table, avoiding the ids used
 * most recently for that type.
 *
 * The table is a row sequence and `random.choice` a nondeterministic choice.
 */
module DesignVariables {
  import opened Seqs
  import opened PyValue
  import opened Sorting

  /** A row of `design_variables`; `data` is the decoded JSON, None when empty or invalid. */
  datatype DesignRow = DesignRow(
    variableId: string,
    variableType: string,
    variableName: string,
    data: Value,
    styleName: string,
    priority: real)

  /** One entry of a type's candidate list, and what is returned for a type. */
  datatype Candidate = Candidate(variableId: string, variableName: string, data: Value)

  /** A history record (the timestamp is left out). */
  datatype DesignRecord = DesignRecord(styleName: string, variableType: string, variableId: string)

  const MaxHistory: nat := 100

  function CandidateOf(r: DesignRow): Candidate
  {
    Candidate(r.variableId, r.variableName, r.data)
  }

  function Priority(r: DesignRow): real { r.priority }

  /** The WHERE clause: the style, and the listed types when the list is non-empty. */
  predicate Wanted(r: DesignRow, styleName: string, types: seq<string>)
  {
    r.styleName == styleName && (types == [] || r.variableType in types)
  }

  /** The query's rows, highest priority first. */
  function Matching(rows: seq<DesignRow>, styleName: string, types: seq<string>): seq<DesignRow>
  {
    SortDesc(Filter(rows, (r: DesignRow) => Wanted(r, styleName, types)), Priority)
  }

  function TypeList(rows: seq<DesignRow>): seq<string>
  {
    seq(|rows|, i requires 0 <= i < |rows| => rows[i].variableType)
  }

  /** The variable types in order of first appearance. */
  function TypesOf(rows: seq<DesignRow>): seq<string>
  {
    Dedupe(TypeList(rows))
  }

  /** The candidates of one type, in row order. */
  function CandidatesOf(rows: seq<DesignRow>, t: string): seq<Candidate>
  {
    if rows == [] then []
    else
      var last := rows[|rows| - 1];
      CandidatesOf(rows[..|rows| - 1], t) + (if last.variableType == t then [CandidateOf(last)] else [])
  }

  // ---------------------------------------------------------------------------
  // Grouping by type

  /** `variables_by_type`: an insertion-ordered dict from type to candidate list. */
  type Groups = seq<(string, seq<Candidate>)>

  function GroupKeys(g: Groups): seq<string>
  {
    seq(|g|, i requires 0 <= i < |g| => g[i].0)
  }

  /** Append a candidate to its type's list, opening the list when the type is new. */
  function AddTo(g: Groups, t: string, c: Candidate): Groups
  {
    if t in GroupKeys(g) then
      seq(|g|, i requires 0 <= i < |g| => if g[i].0 == t then (t, g[i].1 + [c]) else g[i])
    else g + [(t, [c])]
  }

  function GroupsOf(rows: seq<DesignRow>): Groups
  {
    if rows == [] then []
    else
      var last := rows[|rows| - 1];
      AddTo(GroupsOf(rows[..|rows| - 1]), last.variableType, CandidateOf(last))
  }

  lemma {:induction false} CandidatesOfAbsent(rows: seq<DesignRow>, t: string)
    requires t !in TypeList(rows)
    ensures CandidatesOf(rows, t) == []
  {
    if rows != [] {
      var init := rows[..|rows| - 1];
      assert forall i :: 0 <= i < |init| ==> TypeList(init)[i] == TypeList(rows)[i];
      assert TypeList(rows)[|rows| - 1] == rows[|rows| - 1].variableType;
      CandidatesOfAbsent(init, t);
    }
  }

  /**
   * Grouping keeps one list per type, the types in first-appearance order, and each
   * list holds exactly that type's rows in row order.
   */
  lemma {:induction false} GroupsOfProps(rows: seq<DesignRow>)
    ensures GroupKeys(GroupsOf(rows)) == TypesOf(rows)
    ensures NoDuplicates(GroupKeys(GroupsOf(rows)))
    ensures forall i :: 0 <= i < |GroupsOf(rows)| ==>
      GroupsOf(rows)[i].1 == CandidatesOf(rows, GroupsOf(rows)[i].0) && GroupsOf(rows)[i].1 != []
  {
    DedupeProps(TypeList(rows));
    if rows != [] {
      var init := rows[..|rows| - 1];
      var last := rows[|rows| - 1];
      var t := last.variableType;
      var g := GroupsOf(init);
      GroupsOfProps(init);
      DedupeProps(TypeList(init));
      assert TypeList(rows) == TypeList(init) + [t];
      DedupeSnoc(TypeList(init), t);
      var g' := GroupsOf(rows);
      assert g' == AddTo(g, t, CandidateOf(last));
      assert t in GroupKeys(g) <==> t in TypeList(init);
      if t in GroupKeys(g) {
        assert GroupKeys(g') == GroupKeys(g);
      } else {
        assert GroupKeys(g') == GroupKeys(g) + [t];
        CandidatesOfAbsent(init, t);
      }
    }
  }

  /** The grouping loop over the query's rows. */
  method GroupByType(rows: seq<DesignRow>) returns (groups: Groups)
    ensures groups == GroupsOf(rows)
  {
    groups := [];
    var i := 0;
    while i < |rows|
      invariant 0 <= i <= |rows|
      invariant groups == GroupsOf(rows[..i])
    {
      assert rows[..i + 1][..i] == rows[..i];
      GroupsOfProps(rows[..i]);
      var t := rows[i].variableType;
      var j := 0;
      while j < |groups| && groups[j].0 != t
        invariant 0 <= j <= |groups|
        invariant forall k :: 0 <= k < j ==> groups[k].0 != t
      {
        j := j + 1;
      }
      if j == |groups| {
        assert t !in GroupKeys(groups);
        groups := groups + [(t, [CandidateOf(rows[i])])];
      } else {
        AddToAt(groups, j, CandidateOf(rows[i]));
        groups := groups[j := (t, groups[j].1 + [CandidateOf(rows[i])])];
      }
      i := i + 1;
    }
    assert rows[..i] == rows;
  }

  /** With distinct keys, adding to a present type updates that type's entry alone. */
  lemma AddToAt(g: Groups, j: nat, c: Candidate)
    requires j < |g| && NoDuplicates(GroupKeys(g))
    ensures AddTo(g, g[j].0, c) == g[j := (g[j].0, g[j].1 + [c])]
  {
    assert GroupKeys(g)[j] == g[j].0;
    assert forall i :: 0 <= i < |g| && i != j ==> g[i].0 == GroupKeys(g)[i] != GroupKeys(g)[j];
  }

  // ---------------------------------------------------------------------------
  // History

  /** The ids recorded for a type, newest first. */
  function NewestIds(h: seq<DesignRecord>, t: string): seq<string>
  {
    if h == [] then []
    else
      var last := h[|h| - 1];
      (if last.variableType == t then [last.variableId] else []) + NewestIds(h[..|h| - 1], t)
  }

  /** The newer records' ids come first. */
  lemma {:induction false} NewestIdsSplit(h: seq<DesignRecord>, k: nat, t: string)
    requires k <= |h|
    ensures NewestIds(h, t) == NewestIds(h[k..], t) + NewestIds(h[..k], t)
    decreases |h|
  {
    if k == |h| {
      assert h[k..] == [] && h[..k] == h;
    } else {
      var init := h[..|h| - 1];
      NewestIdsSplit(init, k, t);
      assert init[..k] == h[..k];
      assert h[k..][..|h[k..]| - 1] == init[k..];
      assert h[k..][|h[k..]| - 1] == h[|h| - 1];
    }
  }

  /** Records of other types do not change a type's recent ids. */
  lemma {:induction false} NewestIdsOtherTypes(h: seq<DesignRecord>, extra: seq<DesignRecord>, t: string)
    requires forall k :: 0 <= k < |extra| ==> extra[k].variableType != t
    ensures NewestIds(h + extra, t) == NewestIds(h, t)
  {
    if extra == [] {
      assert h + extra == h;
    } else {
      var init := extra[..|extra| - 1];
      assert (h + extra)[..|h + extra| - 1] == h + init;
      assert (h + extra)[|h + extra| - 1] == extra[|extra| - 1];
      NewestIdsOtherTypes(h, init, t);
    }
  }

  /** Exactly the ids of the type's records are listed. */
  lemma {:induction false} NewestIdsMembers(h: seq<DesignRecord>, t: string, id: string)
    ensures id in NewestIds(h, t) <==> exists k :: 0 <= k < |h| && h[k].variableType == t && h[k].variableId == id
  {
    if h != [] {
      var init := h[..|h| - 1];
      NewestIdsMembers(init, t, id);
      assert forall k :: 0 <= k < |init| ==> init[k] == h[k];
      if exists k :: 0 <= k < |h| && h[k].variableType == t && h[k].variableId == id {
        var k :| 0 <= k < |h| && h[k].variableType == t && h[k].variableId == id;
        if k < |init| {
          assert init[k] == h[k];
        }
      }
    }
  }

  // ---------------------------------------------------------------------------
  // Choosing

  /** The candidates not used recently, or all of them when every one was. */
  function Pool(cands: seq<Candidate>, recent: seq<string>): seq<Candidate>
  {
    var unused := Filter(cands, (c: Candidate) => c.variableId !in recent);
    if unused != [] then unused else cands
  }

  /**
   * The pool is drawn from the candidates, is non-empty when they are, and avoids every
   * recent id whenever some candidate is not recent.
   */
  lemma PoolProps(cands: seq<Candidate>, recent: seq<string>)
    ensures forall c :: c in Pool(cands, recent) ==> c in cands
    ensures cands != [] ==> Pool(cands, recent) != []
    ensures (exists c :: c in cands && c.variableId !in recent) ==>
      forall c :: c in Pool(cands, recent) ==> c.variableId !in recent
    ensures (forall c :: c in cands ==> c.variableId in recent) ==> Pool(cands, recent) == cands
  {
    var unused := Filter(cands, (c: Candidate) => c.variableId !in recent);
    assert |unused| > 0 ==> unused[0] in cands && unused[0].variableId !in recent;
    if exists c :: c in cands && c.variableId !in recent {
      var c :| c in cands && c.variableId !in recent;
      var k :| 0 <= k < |cands| && cands[k] == c;
      assert c in unused;
    }
    if forall c :: c in cands ==> c.variableId in recent {
    }
  }

  /** A type's pick comes from its pool against the type's 3 most recent ids. */
  ghost predicate Chosen(c: Candidate, cands: seq<Candidate>, h: seq<DesignRecord>, t: string)
  {
    c in Pool(cands, Take(NewestIds(h, t), 3))
  }

  /** The history records of one call, in the order the types were sampled. */
  function Records(styleName: string, sampled: seq<(string, Candidate)>): seq<DesignRecord>
  {
    seq(|sampled|, i requires 0 <= i < |sampled| => DesignRecord(styleName, sampled[i].0, sampled[i].1.variableId))
  }

  /** The types sampled before a group's turn are other types, so its recent ids are the call's starting ones. */
  lemma EarlierTypesDiffer(groups: Groups, sampled: seq<(string, Candidate)>, styleName: string, h: seq<DesignRecord>)
    requires NoDuplicates(GroupKeys(groups))
    requires |sampled| < |groups|
    requires forall k :: 0 <= k < |sampled| ==> sampled[k].0 == groups[k].0
    ensures NewestIds(h + Records(styleName, sampled), groups[|sampled|].0) == NewestIds(h, groups[|sampled|].0)
  {
    var i := |sampled|;
    assert GroupKeys(groups)[i] == groups[i].0;
    assert forall k :: 0 <= k < i ==> Records(styleName, sampled)[k].variableType == GroupKeys(groups)[k] != groups[i].0;
    NewestIdsOtherTypes(h, Records(styleName, sampled), groups[i].0);
  }

  lemma RecordsSnoc(styleName: string, sampled: seq<(string, Candidate)>, t: string, c: Candidate)
    ensures Records(styleName, sampled + [(t, c)]) == Records(styleName, sampled) + [DesignRecord(styleName, t, c.variableId)]
  {
  }

  /** Appending the draw for the next group keeps every earlier group's type and what held of its draw. */
  lemma SampledSnoc<X, Y>(groups: seq<(string, Y)>, sampled: seq<(string, X)>, c: X, ok: (int, X) -> bool)
    requires |sampled| < |groups|
    requires forall k :: 0 <= k < |sampled| ==> sampled[k].0 == groups[k].0 && ok(k, sampled[k].1)
    requires ok(|sampled|, c)
    ensures forall k :: 0 <= k <= |sampled| ==>
      (sampled + [(groups[|sampled|].0, c)])[k].0 == groups[k].0 && ok(k, (sampled + [(groups[|sampled|].0, c)])[k].1)
  {
    var next := sampled + [(groups[|sampled|].0, c)];
    forall k | 0 <= k <= |sampled|
      ensures next[k].0 == groups[k].0 && ok(k, next[k].1)
    {
      if k < |sampled| {
        assert next[k] == sampled[k];
      }
    }
  }

  function SampledTypes(sampled: seq<(string, Candidate)>): seq<string>
  {
    seq(|sampled|, i requires 0 <= i < |sampled| => sampled[i].0)
  }

  class DesignSampler {
    var history: seq<DesignRecord>

    constructor ()
      ensures history == []
    {
      history := [];
    }

    /**
     * `get_recent_variables`: the newest n ids recorded for the type. The loop stops
     * only after appending, so a count of 0 still yields the newest id.
     */
    method GetRecentVariables(t: string, n: nat) returns (recent: seq<string>)
      ensures recent == Take(NewestIds(history, t), if n == 0 then 1 else n)
    {
      ghost var limit := if n == 0 then 1 else n;
      recent := [];
      var k := |history|;
      while k > 0
        invariant 0 <= k <= |history|
        invariant recent == NewestIds(history[k..], t)
        invariant |recent| < limit
      {
        k := k - 1;
        NewestIdsSplit(history[k..], 1, t);
        assert history[k..][1..] == history[k + 1..];
        assert history[k..][..1] == [history[k]];
        assert NewestIds([history[k]], t) == if history[k].variableType == t then [history[k].variableId] else [] by {
          assert [history[k]][..0] == [];
        }
        if history[k].variableType == t {
          recent := recent + [history[k].variableId];
          if |recent| >= n {
            break;
          }
        }
      }
      NewestIdsSplit(history, k, t);
      assert history[..0] == [];
    }

    /** The per-type loop: one draw per group, each recorded in the history. */
    method SampleGroups(groups: Groups, styleName: string) returns (sampled: seq<(string, Candidate)>)
      requires NoDuplicates(GroupKeys(groups))
      requires forall k :: 0 <= k < |groups| ==> groups[k].1 != []
      modifies this
      ensures |sampled| == |groups|
      ensures forall k :: 0 <= k < |groups| ==> sampled[k].0 == groups[k].0
      ensures forall k :: 0 <= k < |groups| ==> Chosen(sampled[k].1, groups[k].1, old(history), groups[k].0)
      ensures history == old(history) + Records(styleName, sampled)
    {
      ghost var h0 := history;
      ghost var ok := (k: int, c: Candidate) => 0 <= k < |groups| && Chosen(c, groups[k].1, h0, groups[k].0);
      sampled := [];
      var i := 0;
      while i < |groups|
        invariant 0 <= i <= |groups|
        invariant |sampled| == i
        invariant forall k :: 0 <= k < i ==> sampled[k].0 == groups[k].0 && ok(k, sampled[k].1)
        invariant history == h0 + Records(styleName, sampled)
      {
        var t := groups[i].0;
        var cands := groups[i].1;
        EarlierTypesDiffer(groups, sampled, styleName, h0);
        var selected := SampleType(t, cands, styleName);
        assert ok(i, selected);
        RecordsSnoc(styleName, sampled, t, selected);
        SampledSnoc(groups, sampled, selected, ok);
        sampled := sampled + [(t, selected)];
        i := i + 1;
      }
      forall k | 0 <= k < |groups|
        ensures Chosen(sampled[k].1, groups[k].1, h0, groups[k].0)
      {
        assert ok(k, sampled[k].1);
      }
    }

    /** One type: a draw from its pool, recorded in the history. */
    method SampleType(t: string, cands: seq<Candidate>, styleName: string) returns (selected: Candidate)
      requires cands != []
      modifies this
      ensures Chosen(selected, cands, old(history), t)
      ensures history == old(history) + [DesignRecord(styleName, t, selected.variableId)]
    {
      var recent := GetRecentVariables(t, 3);
      var filtered := Filter(cands, (c: Candidate) => c.variableId !in recent);
      if filtered == [] {
        filtered := cands;
      }
      PoolProps(cands, recent);
      assert filtered[0] in filtered;
      selected :| selected in filtered;
      history := history + [DesignRecord(styleName, t, selected.variableId)];
    }

    /**
     * `sample_design_variables`: no matching rows return an empty dict and leave the
     * history alone; otherwise one candidate per type, in first-appearance order, each
     * drawn from the type's candidates that are not among its 3 most recent ids (all of
     * them when every one is), one record per type appended and the newest 100 kept.
     */
    method SampleDesignVariables(rows: seq<DesignRow>, styleName: string, types: seq<string>)
      returns (sampled: seq<(string, Candidate)>)
      modifies this
      ensures Matching(rows, styleName, types) == [] ==> sampled == [] && history == old(history)
      ensures SampledTypes(sampled) == TypesOf(Matching(rows, styleName, types))
      ensures forall i :: 0 <= i < |sampled| ==>
        var t := sampled[i].0;
        sampled[i].1 in Pool(CandidatesOf(Matching(rows, styleName, types), t), Take(NewestIds(old(history), t), 3))
      ensures Matching(rows, styleName, types) != [] ==>
        history == LastN(old(history) + Records(styleName, sampled), MaxHistory)
    {
      var matching := Matching(rows, styleName, types);
      if matching == [] {
        return [];
      }
      var groups := GroupByType(matching);
      GroupsOfProps(matching);
      sampled := SampleGroups(groups, styleName);
      if |history| > MaxHistory {
        history := history[|history| - MaxHistory..];
      }
    }
  }
}
