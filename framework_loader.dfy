/**
 * `FrameworkLoader`: the prompt framework as loaded data (categories with their
 * fields, dependency rules, validation rules) and the operations over it: field
 * listings, dependency completion of an intent, intent validation, and the
 * default-value skip with which the framework-driven generator picks the fields
 * it looks up in the element store.
 *
 * Python dictionaries whose order matters are association lists; an intent is a
 * dictionary from category names to (usually dictionary) values.
 */
module FrameworkLoader {
  import opened Wrappers
  import opened Text
  import opened Seqs
  import opened PyValue

  /** A framework category: its own settings (`required`, ...) and its fields in file order. */
  datatype Category = Category(settings: Dict, fields: seq<(string, Dict)>)

  type Categories = seq<(string, Category)>

  /** `f"{category}.{field}"` */
  function QualifiedName(category: string, field: string): string
  {
    category + "." + field
  }

  // ---------------------------------------------------------------------------
  // get_all_fields / get_required_fields

  /** Every qualified field name, in framework order. */
  function AllNames(cats: Categories): seq<string>
  {
    if cats == [] then [] else NamesIn(cats[0].0, cats[0].1.fields) + AllNames(cats[1..])
  }

  function NamesIn(category: string, fields: seq<(string, Dict)>): seq<string>
  {
    if fields == [] then [] else [QualifiedName(category, fields[0].0)] + NamesIn(category, fields[1..])
  }

  /** The entry `get_all_fields` stores for a field: its config with `category` and `field` added (the config's own keys win). */
  function FieldEntry(category: string, field: string, config: Dict): Dict
  {
    map["category" := VStr(category), "field" := VStr(field)] + config
  }

  /** The (name, entry) pairs in the order `get_all_fields` assigns them. */
  function Entries(cats: Categories): seq<(string, Dict)>
  {
    if cats == [] then [] else EntriesIn(cats[0].0, cats[0].1.fields) + Entries(cats[1..])
  }

  function EntriesIn(category: string, fields: seq<(string, Dict)>): seq<(string, Dict)>
  {
    if fields == [] then []
    else
      var entry := (QualifiedName(category, fields[0].0), FieldEntry(category, fields[0].0, fields[0].1));
      [entry] + EntriesIn(category, fields[1..])
  }

  /** A Python dict built by assigning the pairs in order (a later key overwrites). */
  function Assign<V>(pairs: seq<(string, V)>): map<string, V>
  {
    if pairs == [] then map[] else Assign(pairs[..|pairs| - 1])[pairs[|pairs| - 1].0 := pairs[|pairs| - 1].1]
  }

  /** `get_all_fields` */
  function GetAllFields(cats: Categories): map<string, Dict>
  {
    Assign(Entries(cats))
  }

  predicate CategoryRequired(c: Category)
  {
    Truthy(Get(c.settings, "required", VNone))
  }

  predicate FieldRequired(config: Dict)
  {
    Truthy(Get(config, "required", VNone))
  }

  /** `get_required_fields` */
  function GetRequiredFields(cats: Categories): seq<string>
  {
    if cats == [] then []
    else
      var own := if CategoryRequired(cats[0].1) then RequiredIn(cats[0].0, cats[0].1.fields) else [];
      own + GetRequiredFields(cats[1..])
  }

  function RequiredIn(category: string, fields: seq<(string, Dict)>): seq<string>
  {
    if fields == [] then []
    else
      var own := if FieldRequired(fields[0].1) then [QualifiedName(category, fields[0].0)] else [];
      own + RequiredIn(category, fields[1..])
  }

  /** A field is listed by `get_required_fields` exactly when its category and the field itself are required. */
  lemma {:induction false} RequiredFieldsExact(cats: Categories, x: string)
    ensures x in GetRequiredFields(cats) <==>
      exists i, j :: 0 <= i < |cats| && 0 <= j < |cats[i].1.fields| && CategoryRequired(cats[i].1)
        && FieldRequired(cats[i].1.fields[j].1) && x == QualifiedName(cats[i].0, cats[i].1.fields[j].0)
  {
    if cats != [] {
      RequiredFieldsExact(cats[1..], x);
      RequiredInExact(cats[0].0, cats[0].1.fields, x);
      if x in GetRequiredFields(cats[1..]) {
        var i, j :| 0 <= i < |cats[1..]| && 0 <= j < |cats[1..][i].1.fields| && CategoryRequired(cats[1..][i].1)
          && FieldRequired(cats[1..][i].1.fields[j].1) && x == QualifiedName(cats[1..][i].0, cats[1..][i].1.fields[j].0);
        assert cats[1..][i] == cats[i + 1];
      }
      if exists i, j :: (0 <= i < |cats| && 0 <= j < |cats[i].1.fields| && CategoryRequired(cats[i].1)
                          && FieldRequired(cats[i].1.fields[j].1) && x == QualifiedName(cats[i].0, cats[i].1.fields[j].0))
      {
        var i, j :| 0 <= i < |cats| && 0 <= j < |cats[i].1.fields| && CategoryRequired(cats[i].1)
          && FieldRequired(cats[i].1.fields[j].1) && x == QualifiedName(cats[i].0, cats[i].1.fields[j].0);
        if i > 0 {
          assert cats[1..][i - 1] == cats[i];
        }
      }
    }
  }

  lemma {:induction false} RequiredInExact(category: string, fields: seq<(string, Dict)>, x: string)
    ensures x in RequiredIn(category, fields) <==>
      exists j :: 0 <= j < |fields| && FieldRequired(fields[j].1) && x == QualifiedName(category, fields[j].0)
  {
    if fields != [] {
      RequiredInExact(category, fields[1..], x);
      if exists j :: 0 <= j < |fields| && FieldRequired(fields[j].1) && x == QualifiedName(category, fields[j].0) {
        var j :| 0 <= j < |fields| && FieldRequired(fields[j].1) && x == QualifiedName(category, fields[j].0);
        if j > 0 {
          assert fields[1..][j - 1] == fields[j];
        }
      }
      if x in RequiredIn(category, fields[1..]) {
        var j :| 0 <= j < |fields[1..]| && FieldRequired(fields[1..][j].1) && x == QualifiedName(category, fields[1..][j].0);
        assert fields[1..][j] == fields[j + 1];
      }
    }
  }

  /** The required fields come out in framework order: they are a subsequence of all field names. */
  lemma {:induction false} RequiredFieldsInOrder(cats: Categories)
    ensures IsSubsequence(GetRequiredFields(cats), AllNames(cats))
  {
    if cats != [] {
      RequiredFieldsInOrder(cats[1..]);
      RequiredInOrder(cats[0].0, cats[0].1.fields);
      var own := if CategoryRequired(cats[0].1) then RequiredIn(cats[0].0, cats[0].1.fields) else [];
      if !CategoryRequired(cats[0].1) {
        EmptySubsequence(NamesIn(cats[0].0, cats[0].1.fields));
      }
      SubsequenceConcat(own, NamesIn(cats[0].0, cats[0].1.fields), GetRequiredFields(cats[1..]), AllNames(cats[1..]));
    }
  }

  lemma EmptySubsequence<T>(s: seq<T>)
    ensures IsSubsequence([], s)
  {
  }

  lemma {:induction false} RequiredInOrder(category: string, fields: seq<(string, Dict)>)
    ensures IsSubsequence(RequiredIn(category, fields), NamesIn(category, fields))
  {
    if fields != [] {
      RequiredInOrder(category, fields[1..]);
      var name := QualifiedName(category, fields[0].0);
      var rest := RequiredIn(category, fields[1..]);
      if FieldRequired(fields[0].1) {
        assert ([name] + rest)[1..] == rest;
        assert ([name] + NamesIn(category, fields[1..]))[1..] == NamesIn(category, fields[1..]);
      } else {
        SubsequenceExtend(rest, NamesIn(category, fields[1..]), name);
        assert [] + rest == rest;
      }
    }
  }

  lemma {:induction false} AssignKeys<V>(pairs: seq<(string, V)>, k: string)
    ensures k in Assign(pairs) <==> exists i :: 0 <= i < |pairs| && pairs[i].0 == k
  {
    if pairs != [] {
      var init := pairs[..|pairs| - 1];
      AssignKeys(init, k);
      if exists i :: 0 <= i < |pairs| && pairs[i].0 == k {
        var i :| 0 <= i < |pairs| && pairs[i].0 == k;
        if i < |pairs| - 1 {
          assert init[i] == pairs[i];
        }
      }
    }
  }

  /** The value a dict built by assignment holds is the one of the last pair with that key. */
  lemma {:induction false} AssignLast<V>(pairs: seq<(string, V)>, i: int)
    requires 0 <= i < |pairs|
    requires forall j :: i < j < |pairs| ==> pairs[j].0 != pairs[i].0
    ensures pairs[i].0 in Assign(pairs) && Assign(pairs)[pairs[i].0] == pairs[i].1
  {
    if i < |pairs| - 1 {
      var init := pairs[..|pairs| - 1];
      assert init[i] == pairs[i];
      AssignLast(init, i);
    }
  }

  lemma {:induction false} EntriesNames(cats: Categories)
    ensures |Entries(cats)| == |AllNames(cats)|
    ensures forall k :: 0 <= k < |Entries(cats)| ==> Entries(cats)[k].0 == AllNames(cats)[k]
  {
    if cats != [] {
      EntriesNames(cats[1..]);
      EntriesInNames(cats[0].0, cats[0].1.fields);
    }
  }

  lemma {:induction false} EntriesInNames(category: string, fields: seq<(string, Dict)>)
    ensures |EntriesIn(category, fields)| == |NamesIn(category, fields)| == |fields|
    ensures forall k :: 0 <= k < |fields| ==>
      EntriesIn(category, fields)[k] == (QualifiedName(category, fields[k].0), FieldEntry(category, fields[k].0, fields[k].1))
      && NamesIn(category, fields)[k] == QualifiedName(category, fields[k].0)
  {
    if fields != [] {
      EntriesInNames(category, fields[1..]);
    }
  }

  /** `get_all_fields` has one key per qualified field name of the framework. */
  lemma GetAllFieldsKeys(cats: Categories, k: string)
    ensures k in GetAllFields(cats) <==> k in AllNames(cats)
  {
    EntriesNames(cats);
    AssignKeys(Entries(cats), k);
    if k in AllNames(cats) {
      var i :| 0 <= i < |AllNames(cats)| && AllNames(cats)[i] == k;
      assert Entries(cats)[i].0 == k;
    }
  }

  /** With dot-free names, a qualified name determines its category and field. */
  lemma DotInLonger(c1: string, f1: string, c2: string, f2: string)
    requires |c1| < |c2| && QualifiedName(c1, f1) == QualifiedName(c2, f2)
    ensures '.' in c2
  {
    var q := QualifiedName(c1, f1);
    assert q[|c1|] == '.';
    assert q[|c1|] == c2[|c1|];
  }

  lemma QualifiedNameInjective(c1: string, f1: string, c2: string, f2: string)
    requires '.' !in c1 && '.' !in c2
    requires QualifiedName(c1, f1) == QualifiedName(c2, f2)
    ensures c1 == c2 && f1 == f2
  {
    var q := QualifiedName(c1, f1);
    assert q == c2 + "." + f2;
    assert |c1| == |c2| by {
      if |c1| < |c2| {
        DotInLonger(c1, f1, c2, f2);
        assert false;
      } else if |c2| < |c1| {
        DotInLonger(c2, f2, c1, f1);
        assert false;
      }
    }
    assert c1 == q[..|c1|] && c2 == q[..|c2|];
    assert f1 == q[|c1| + 1..] && f2 == q[|c2| + 1..];
  }

  // ---------------------------------------------------------------------------
  // apply_dependencies

  /** A dependency rule: `when` conditions and `then` assignments, each optional. */
  datatype Rule = Rule(conditions: Option<seq<(string, Value)>>, assignments: Option<seq<(string, Value)>>)

  /** `category, field = path.split('.')`: exactly one dot, else a ValueError. */
  function SplitField(path: string): (r: Result<(string, string)>)
    ensures r.Ok? ==> '.' !in r.value.0 && '.' !in r.value.1 && QualifiedName(r.value.0, r.value.1) == path
  {
    var parts := SplitOn(path, '.');
    SplitOnProps(path, '.');
    SplitOnJoin(path, '.');
    if |parts| != 2 then Err("ValueError")
    else
      assert Join(parts, ".") == parts[0] + "." + parts[1];
      Ok((parts[0], parts[1]))
  }

  /** Different well-formed paths name different fields. */
  lemma SplitFieldInjective(p1: string, p2: string)
    requires SplitField(p1).Ok? && SplitField(p1) == SplitField(p2)
    ensures p1 == p2
  {
  }

  /** `intent.get(category, {}).get(field)`: None when absent; an AttributeError on a non-dict. */
  function FieldValue(intent: Dict, category: string, field: string): (r: Result<Value>)
    ensures category !in intent ==> r == Ok(VNone)
    ensures category in intent && intent[category].VDict? ==> r == Ok(Get(intent[category].entries, field, VNone))
    ensures category in intent && !intent[category].VDict? ==> r == Err("AttributeError")
  {
    if category !in intent then Ok(VNone)
    else match intent[category]
      case VDict(m) => Ok(Get(m, field, VNone))
      case _ => Err("AttributeError")
  }

  /** One condition holds: its path is well formed and the intent's value there equals it. */
  predicate Holds(intent: Dict, cond: (string, Value))
  {
    var p := SplitField(cond.0);
    p.Ok? && FieldValue(intent, p.value.0, p.value.1).Ok? && PyEq(FieldValue(intent, p.value.0, p.value.1).value, cond.1)
  }

  /** The condition loop: it stops at the first unmet condition. */
  function ConditionsMet(intent: Dict, when: seq<(string, Value)>): Result<bool>
  {
    if when == [] then Ok(true)
    else match SplitField(when[0].0)
      case Err(e) => Err(e)
      case Ok(p) =>
        match FieldValue(intent, p.0, p.1)
        case Err(e) => Err(e)
        case Ok(actual) => if !PyEq(actual, when[0].1) then Ok(false) else ConditionsMet(intent, when[1..])
  }

  /** `intent[category][field] = value`, creating the category as `{}` when absent. */
  function SetField(intent: Dict, category: string, field: string, value: Value): Result<Dict>
  {
    if category !in intent then Ok(intent[category := VDict(map[field := value])])
    else match intent[category]
      case VDict(m) => Ok(intent[category := VDict(m[field := value])])
      case _ => Err("TypeError")
  }

  /** The `then` loop. */
  function SetFields(intent: Dict, assigns: seq<(string, Value)>): Result<Dict>
    decreases |assigns|
  {
    if assigns == [] then Ok(intent)
    else match SplitField(assigns[0].0)
      case Err(e) => Err(e)
      case Ok(p) =>
        match SetField(intent, p.0, p.1, assigns[0].1)
        case Err(e) => Err(e)
        case Ok(next) => SetFields(next, assigns[1..])
  }

  function ApplyRule(intent: Dict, rule: Rule): Result<Dict>
  {
    if rule.conditions.None? then Ok(intent)
    else match ConditionsMet(intent, rule.conditions.value)
      case Err(e) => Err(e)
      case Ok(met) => if met && rule.assignments.Some? then SetFields(intent, rule.assignments.value) else Ok(intent)
  }

  /** The rules in order, each seeing the intent as updated by the ones before. */
  function ApplyRules(intent: Dict, rules: seq<Rule>): Result<Dict>
    decreases |rules|
  {
    if rules == [] then Ok(intent)
    else match ApplyRule(intent, rules[0])
      case Err(e) => Err(e)
      case Ok(next) => ApplyRules(next, rules[1..])
  }

  /**
   * The caller's intent after the call: `intent.copy()` is shallow, so every category
   * dict the caller already had is the very dict the rules write into.
   */
  function CallerView(intent: Dict, updated: Dict): (r: Dict)
    requires intent.Keys <= updated.Keys
    ensures r.Keys == intent.Keys
  {
    map c | c in intent :: updated[c]
  }

  /** Evaluates a rule's `when` conditions in order, stopping at the first that fails. */
  method CheckConditions(intent: Dict, when: seq<(string, Value)>) returns (r: Result<bool>)
    ensures r == ConditionsMet(intent, when)
  {
    var i := 0;
    while i < |when|
      invariant 0 <= i <= |when|
      invariant ConditionsMet(intent, when[i..]) == ConditionsMet(intent, when)
    {
      assert when[i..][1..] == when[i + 1..];
      var p := SplitField(when[i].0);
      if p.Err? {
        return Err(p.error);
      }
      var category, field := p.value.0, p.value.1;
      var actual := FieldValue(intent, category, field);
      if actual.Err? {
        return Err(actual.error);
      }
      if !PyEq(actual.value, when[i].1) {
        return Ok(false);
      }
      i := i + 1;
    }
    assert when[i..] == [];
    return Ok(true);
  }

  /**
   * Applies a rule's `then` assignments to `updated`; `caller` is the caller's own
   * intent, which sees every write into a category dict it shares.
   */
  method AssignFields(intent: Dict, updated: Dict, caller: Dict, assigns: seq<(string, Value)>)
    returns (r: Result<Dict>, callerAfter: Dict)
    requires intent.Keys <= updated.Keys && caller == CallerView(intent, updated)
    ensures r == SetFields(updated, assigns)
    ensures r.Ok? ==> intent.Keys <= r.value.Keys && callerAfter == CallerView(intent, r.value)
    ensures callerAfter.Keys == intent.Keys
  {
    var cur := updated;
    callerAfter := caller;
    var i := 0;
    while i < |assigns|
      invariant 0 <= i <= |assigns|
      invariant intent.Keys <= cur.Keys && callerAfter == CallerView(intent, cur)
      invariant SetFields(cur, assigns[i..]) == SetFields(updated, assigns)
    {
      assert assigns[i..][1..] == assigns[i + 1..];
      var p := SplitField(assigns[i].0);
      if p.Err? {
        return Err(p.error), callerAfter;
      }
      var category, field := p.value.0, p.value.1;
      ghost var prev := cur;
      if category !in cur {
        cur := cur[category := VDict(map[])];
      }
      if !cur[category].VDict? {
        return Err("TypeError"), callerAfter;
      }
      var entries := cur[category].entries;
      cur := cur[category := VDict(entries[field := assigns[i].1])];
      if category in prev {
        assert SetField(prev, category, field, assigns[i].1) == Ok(cur);
      } else {
        assert map[][field := assigns[i].1] == map[field := assigns[i].1];
        assert cur == prev[category := VDict(map[field := assigns[i].1])];
      }
      if category in intent {
        callerAfter := callerAfter[category := cur[category]];
      }
      i := i + 1;
    }
    assert assigns[i..] == [];
    return Ok(cur), callerAfter;
  }

  /**
   * `apply_dependencies`: the completed intent (or the exception raised) and the
   * caller's intent as the shared category dicts leave it.
   */
  method ApplyDependencies(intent: Dict, rules: seq<Rule>) returns (r: Result<Dict>, callerAfter: Dict)
    ensures r == ApplyRules(intent, rules)
    ensures r.Ok? ==> intent.Keys <= r.value.Keys && callerAfter == CallerView(intent, r.value)
    ensures callerAfter.Keys == intent.Keys
  {
    var updated := intent;
    callerAfter := intent;
    var i := 0;
    while i < |rules|
      invariant 0 <= i <= |rules|
      invariant intent.Keys <= updated.Keys && callerAfter == CallerView(intent, updated)
      invariant ApplyRules(updated, rules[i..]) == ApplyRules(intent, rules)
    {
      assert rules[i..][1..] == rules[i + 1..];
      var rule := rules[i];
      if rule.conditions.Some? {
        var met := CheckConditions(updated, rule.conditions.value);
        if met.Err? {
          return Err(met.error), callerAfter;
        }
        if met.value && rule.assignments.Some? {
          var next;
          next, callerAfter := AssignFields(intent, updated, callerAfter, rule.assignments.value);
          if next.Err? {
            return Err(next.error), callerAfter;
          }
          updated := next.value;
        }
      }
      i := i + 1;
    }
    assert rules[i..] == [];
    return Ok(updated), callerAfter;
  }

  /** A rule's conditions are met exactly when each of them holds. */
  lemma {:induction false} ConditionsMetIff(intent: Dict, when: seq<(string, Value)>)
    ensures ConditionsMet(intent, when) == Ok(true) <==> forall i :: 0 <= i < |when| ==> Holds(intent, when[i])
  {
    if when != [] {
      ConditionsMetIff(intent, when[1..]);
      if forall i :: 0 <= i < |when| ==> Holds(intent, when[i]) {
        assert Holds(intent, when[0]);
        forall i | 0 <= i < |when[1..]|
          ensures Holds(intent, when[1..][i])
        {
          assert when[1..][i] == when[i + 1];
        }
      }
      if ConditionsMet(intent, when) == Ok(true) {
        forall i | 0 <= i < |when|
          ensures Holds(intent, when[i])
        {
          if i > 0 {
            assert when[1..][i - 1] == when[i];
          }
        }
      }
    }
  }

  /** A category an assignment can write into: absent, or a dict. */
  predicate Writable(intent: Dict, category: string)
  {
    category !in intent || intent[category].VDict?
  }

  /** The path of every `then` entry is well formed and its category writable. */
  predicate AssignmentsOk(intent: Dict, assigns: seq<(string, Value)>)
  {
    forall i :: 0 <= i < |assigns| ==> SplitField(assigns[i].0).Ok? && Writable(intent, SplitField(assigns[i].0).value.0)
  }

  /** The step the `then` loop takes for a well-formed entry on a writable category. */
  lemma SetFieldStep(intent: Dict, assigns: seq<(string, Value)>)
    requires assigns != [] && SplitField(assigns[0].0).Ok? && Writable(intent, SplitField(assigns[0].0).value.0)
    ensures var p := SplitField(assigns[0].0).value;
      SetField(intent, p.0, p.1, assigns[0].1).Ok?
      && SetFields(intent, assigns) == SetFields(SetField(intent, p.0, p.1, assigns[0].1).value, assigns[1..])
  {
  }

  /** The assignments succeed exactly when every path is well formed and names a writable category. */
  lemma {:induction false} SetFieldsOk(intent: Dict, assigns: seq<(string, Value)>)
    ensures SetFields(intent, assigns).Ok? <==> AssignmentsOk(intent, assigns)
    decreases |assigns|
  {
    if assigns != [] {
      var p := SplitField(assigns[0].0);
      if p.Ok? && Writable(intent, p.value.0) {
        SetFieldStep(intent, assigns);
        var next := SetField(intent, p.value.0, p.value.1, assigns[0].1).value;
        assert forall k :: Writable(next, k) <==> Writable(intent, k);
        SetFieldsOk(next, assigns[1..]);
        if AssignmentsOk(intent, assigns) {
          forall i | 0 <= i < |assigns[1..]|
            ensures SplitField(assigns[1..][i].0).Ok? && Writable(next, SplitField(assigns[1..][i].0).value.0)
          {
            assert assigns[1..][i] == assigns[i + 1];
          }
        }
        if AssignmentsOk(next, assigns[1..]) {
          forall i | 0 <= i < |assigns|
            ensures SplitField(assigns[i].0).Ok? && Writable(intent, SplitField(assigns[i].0).value.0)
          {
            if i > 0 {
              assert assigns[1..][i - 1] == assigns[i];
            }
          }
        }
      } else {
        assert !AssignmentsOk(intent, assigns) by {
          assert !(SplitField(assigns[0].0).Ok? && Writable(intent, SplitField(assigns[0].0).value.0));
        }
      }
    }
  }

  /** Successful assignments keep every category and change only categories they name. */
  lemma {:induction false} SetFieldsFrame(intent: Dict, assigns: seq<(string, Value)>)
    requires SetFields(intent, assigns).Ok?
    ensures var r := SetFields(intent, assigns).value;
      (forall c :: c in intent ==> c in r)
      && (forall c :: c in r && (c !in intent || r[c] != intent[c]) ==>
            exists i :: 0 <= i < |assigns| && SplitField(assigns[i].0).Ok? && SplitField(assigns[i].0).value.0 == c)
    decreases |assigns|
  {
    if assigns != [] {
      SetFieldsOk(intent, assigns);
      var c := SplitField(assigns[0].0).value.0;
      SetFieldStep(intent, assigns);
      var next := SetField(intent, c, SplitField(assigns[0].0).value.1, assigns[0].1).value;
      SetFieldsFrame(next, assigns[1..]);
      var r := SetFields(intent, assigns).value;
      forall k | k in r && (k !in intent || r[k] != intent[k])
        ensures exists i :: 0 <= i < |assigns| && SplitField(assigns[i].0).Ok? && SplitField(assigns[i].0).value.0 == k
      {
        if k == c {
          assert SplitField(assigns[0].0).value.0 == k;
        } else {
          var i :| 0 <= i < |assigns[1..]| && SplitField(assigns[1..][i].0).Ok? && SplitField(assigns[1..][i].0).value.0 == k;
          assert assigns[1..][i] == assigns[i + 1];
        }
      }
    }
  }

  /**
   * After successful assignments, the category of every entry is a dict holding, for the
   * entry's field, the value of the last entry with that path.
   */
  lemma {:induction false} SetFieldsLastWins(intent: Dict, assigns: seq<(string, Value)>, i: int)
    requires SetFields(intent, assigns).Ok?
    requires 0 <= i < |assigns| && forall j :: i < j < |assigns| ==> assigns[j].0 != assigns[i].0
    ensures SplitField(assigns[i].0).Ok?
    ensures var r := SetFields(intent, assigns).value;
      var p := SplitField(assigns[i].0).value;
      p.0 in r && r[p.0].VDict? && p.1 in r[p.0].entries && r[p.0].entries[p.1] == assigns[i].1
    decreases |assigns|
  {
    SetFieldsOk(intent, assigns);
    var c, f := SplitField(assigns[0].0).value.0, SplitField(assigns[0].0).value.1;
    SetFieldStep(intent, assigns);
    var next := SetField(intent, c, f, assigns[0].1).value;
    if i > 0 {
      assert assigns[1..][i - 1] == assigns[i];
      assert forall j :: i - 1 < j < |assigns[1..]| ==> assigns[1..][j] == assigns[j + 1];
      SetFieldsLastWins(next, assigns[1..], i - 1);
    } else {
      forall j | 0 <= j < |assigns[1..]|
        ensures SplitField(assigns[1..][j].0) != Ok((c, f))
      {
        assert assigns[1..][j] == assigns[j + 1];
      }
      SetFieldsKeeps(next, assigns[1..], c, f);
    }
  }

  /** Assignments to other fields keep a field's value. */
  lemma {:induction false} SetFieldsKeeps(intent: Dict, assigns: seq<(string, Value)>, c: string, f: string)
    requires c in intent && intent[c].VDict? && f in intent[c].entries
    requires SetFields(intent, assigns).Ok?
    requires forall j :: 0 <= j < |assigns| ==> SplitField(assigns[j].0) != Ok((c, f))
    ensures var r := SetFields(intent, assigns).value;
      c in r && r[c].VDict? && f in r[c].entries && r[c].entries[f] == intent[c].entries[f]
    decreases |assigns|
  {
    if assigns != [] {
      var p := SplitField(assigns[0].0).value;
      var next := SetField(intent, p.0, p.1, assigns[0].1).value;
      assert next[c].entries[f] == intent[c].entries[f];
      assert forall j :: 0 <= j < |assigns[1..]| ==> assigns[1..][j] == assigns[j + 1];
      SetFieldsKeeps(next, assigns[1..], c, f);
    }
  }

  /** A rule without `when` never fires; one whose conditions all hold applies its `then` part. */
  lemma RuleFires(intent: Dict, rule: Rule)
    ensures rule.conditions.None? ==> ApplyRule(intent, rule) == Ok(intent)
    ensures rule.conditions.Some? && (forall i :: 0 <= i < |rule.conditions.value| ==> Holds(intent, rule.conditions.value[i])) ==>
      ApplyRule(intent, rule) == if rule.assignments.Some? then SetFields(intent, rule.assignments.value) else Ok(intent)
    ensures rule.conditions.Some? && ConditionsMet(intent, rule.conditions.value) == Ok(false) ==> ApplyRule(intent, rule) == Ok(intent)
  {
    if rule.conditions.Some? {
      ConditionsMetIff(intent, rule.conditions.value);
    }
  }

  // ---------------------------------------------------------------------------
  // validate_intent

  /** An entry of `validation.required_fields`. */
  datatype Requirement = Requirement(field: string, errorMessage: string)

  /** An entry of `validation.consistency_checks`; `suggestion` is '' when absent. */
  datatype Check = Check(conditions: Option<seq<(string, Value)>>, name: string, severity: string, message: string, suggestion: string)

  datatype ValidationIssue =
    | MissingRequired(field: string, message: string)   // type 'missing_required', severity 'error'
    | ConsistencyCheck(name: string, severity: string, message: string, suggestion: string)

  /** The required field is absent: no such category, or the field is not in it. */
  predicate Absent(intent: Dict, req: Requirement)
  {
    var p := SplitField(req.field);
    p.Ok? && (p.value.0 !in intent || PyIn(p.value.1, intent[p.value.0]) == Ok(false))
  }

  function MissingIssues(intent: Dict, reqs: seq<Requirement>): Result<seq<ValidationIssue>>
  {
    if reqs == [] then Ok([])
    else match SplitField(reqs[0].field)
      case Err(e) => Err(e)
      case Ok(p) =>
        var here: Result<bool> := if p.0 !in intent then Ok(false) else PyIn(p.1, intent[p.0]);
        match here
        case Err(e) => Err(e)
        case Ok(present) =>
          Prepend(if present then [] else [MissingRequired(reqs[0].field, reqs[0].errorMessage)], MissingIssues(intent, reqs[1..]))
  }

  /** One condition of a consistency check fires: its value list contains the intent's value. */
  predicate Fires(intent: Dict, cond: (string, Value))
  {
    var p := SplitField(cond.0);
    p.Ok? && cond.1.VList? && FieldValue(intent, p.value.0, p.value.1).Ok?
    && PyMember(FieldValue(intent, p.value.0, p.value.1).value, cond.1.items)
  }

  function CheckIssue(check: Check): ValidationIssue
  {
    ConsistencyCheck(check.name, check.severity, check.message, check.suggestion)
  }

  /** One issue per firing condition of the check. */
  function CheckConditionsIssues(intent: Dict, check: Check, conds: seq<(string, Value)>): Result<seq<ValidationIssue>>
  {
    if conds == [] then Ok([])
    else match SplitField(conds[0].0)
      case Err(e) => Err(e)
      case Ok(p) =>
        match FieldValue(intent, p.0, p.1)
        case Err(e) => Err(e)
        case Ok(actual) =>
          Prepend(if conds[0].1.VList? && PyMember(actual, conds[0].1.items) then [CheckIssue(check)] else [],
            CheckConditionsIssues(intent, check, conds[1..]))
  }

  function CheckIssues(intent: Dict, check: Check): Result<seq<ValidationIssue>>
  {
    if check.conditions.None? then Ok([]) else CheckConditionsIssues(intent, check, check.conditions.value)
  }

  function ConsistencyIssues(intent: Dict, checks: seq<Check>): Result<seq<ValidationIssue>>
  {
    if checks == [] then Ok([])
    else match CheckIssues(intent, checks[0])
      case Err(e) => Err(e)
      case Ok(issues) => Prepend(issues, ConsistencyIssues(intent, checks[1..]))
  }

  function Validation(intent: Dict, reqs: seq<Requirement>, checks: seq<Check>): Result<seq<ValidationIssue>>
  {
    match MissingIssues(intent, reqs)
    case Err(e) => Err(e)
    case Ok(missing) => Prepend(missing, ConsistencyIssues(intent, checks))
  }

  /** `validate_intent`: required-field issues first, then consistency issues. */
  method ValidateIntent(intent: Dict, reqs: seq<Requirement>, checks: seq<Check>) returns (r: Result<seq<ValidationIssue>>)
    ensures r == Validation(intent, reqs, checks)
  {
    var missing := [];
    var i := 0;
    PrependNothing(MissingIssues(intent, reqs));
    while i < |reqs|
      invariant 0 <= i <= |reqs|
      invariant MissingIssues(intent, reqs) == Prepend(missing, MissingIssues(intent, reqs[i..]))
    {
      assert reqs[i..][1..] == reqs[i + 1..];
      var p := SplitField(reqs[i].field);
      if p.Err? {
        return Err(p.error);
      }
      var category, field := p.value.0, p.value.1;
      var present := false;
      if category in intent {
        var inside := PyIn(field, intent[category]);
        if inside.Err? {
          return Err(inside.error);
        }
        present := inside.value;
      }
      var own := if present then [] else [MissingRequired(reqs[i].field, reqs[i].errorMessage)];
      PrependTwice(missing, own, MissingIssues(intent, reqs[i + 1..]));
      missing := missing + own;
      i := i + 1;
    }
    assert reqs[i..] == [];
    assert missing + [] == missing;
    var consistency := CheckAll(intent, checks);
    if consistency.Err? {
      return Err(consistency.error);
    }
    return Ok(missing + consistency.value);
  }

  /** The consistency-check loop. */
  method CheckAll(intent: Dict, checks: seq<Check>) returns (r: Result<seq<ValidationIssue>>)
    ensures r == ConsistencyIssues(intent, checks)
  {
    var issues := [];
    var i := 0;
    PrependNothing(ConsistencyIssues(intent, checks));
    while i < |checks|
      invariant 0 <= i <= |checks|
      invariant ConsistencyIssues(intent, checks) == Prepend(issues, ConsistencyIssues(intent, checks[i..]))
    {
      assert checks[i..][1..] == checks[i + 1..];
      var own := CheckOne(intent, checks[i]);
      if own.Err? {
        return Err(own.error);
      }
      PrependTwice(issues, own.value, ConsistencyIssues(intent, checks[i + 1..]));
      issues := issues + own.value;
      i := i + 1;
    }
    assert checks[i..] == [];
    assert issues + [] == issues;
    return Ok(issues);
  }

  /** One consistency check: an issue for each condition whose value list holds the intent's value. */
  method CheckOne(intent: Dict, check: Check) returns (r: Result<seq<ValidationIssue>>)
    ensures r == CheckIssues(intent, check)
  {
    if check.conditions.None? {
      return Ok([]);
    }
    var conds := check.conditions.value;
    var found := [];
    var j := 0;
    PrependNothing(CheckConditionsIssues(intent, check, conds));
    while j < |conds|
      invariant 0 <= j <= |conds|
      invariant CheckConditionsIssues(intent, check, conds) == Prepend(found, CheckConditionsIssues(intent, check, conds[j..]))
    {
      assert conds[j..][1..] == conds[j + 1..];
      var p := SplitField(conds[j].0);
      if p.Err? {
        return Err(p.error);
      }
      var category, field := p.value.0, p.value.1;
      var actual := FieldValue(intent, category, field);
      if actual.Err? {
        return Err(actual.error);
      }
      var own := if conds[j].1.VList? && PyMember(actual.value, conds[j].1.items) then [CheckIssue(check)] else [];
      PrependTwice(found, own, CheckConditionsIssues(intent, check, conds[j + 1..]));
      found := found + own;
      j := j + 1;
    }
    assert conds[j..] == [];
    assert found + [] == found;
    return Ok(found);
  }

  /** On success, the missing-field issues are exactly those of the absent required fields. */
  lemma {:induction false} MissingIssuesExact(intent: Dict, reqs: seq<Requirement>)
    requires MissingIssues(intent, reqs).Ok?
    ensures forall issue :: issue in MissingIssues(intent, reqs).value ==> issue.MissingRequired?
    ensures forall field, message :: MissingRequired(field, message) in MissingIssues(intent, reqs).value <==>
      exists i :: 0 <= i < |reqs| && reqs[i] == Requirement(field, message) && Absent(intent, reqs[i])
  {
    if reqs != [] {
      MissingIssuesExact(intent, reqs[1..]);
      forall field, message
        ensures MissingRequired(field, message) in MissingIssues(intent, reqs).value <==>
          exists i :: 0 <= i < |reqs| && reqs[i] == Requirement(field, message) && Absent(intent, reqs[i])
      {
        if exists i :: 0 <= i < |reqs| && reqs[i] == Requirement(field, message) && Absent(intent, reqs[i]) {
          var i :| 0 <= i < |reqs| && reqs[i] == Requirement(field, message) && Absent(intent, reqs[i]);
          if i > 0 {
            assert reqs[1..][i - 1] == reqs[i];
          }
        }
        if MissingRequired(field, message) in MissingIssues(intent, reqs[1..]).value {
          var i :| 0 <= i < |reqs[1..]| && reqs[1..][i] == Requirement(field, message) && Absent(intent, reqs[1..][i]);
          assert reqs[1..][i] == reqs[i + 1];
        }
      }
    }
  }

  /** On success, a check contributes one issue per condition whose value list holds the intent's value. */
  lemma {:induction false} CheckConditionsIssuesCount(intent: Dict, check: Check, conds: seq<(string, Value)>)
    requires CheckConditionsIssues(intent, check, conds).Ok?
    ensures |CheckConditionsIssues(intent, check, conds).value| == CountFiring(intent, conds)
    ensures forall issue :: issue in CheckConditionsIssues(intent, check, conds).value ==> issue == CheckIssue(check)
  {
    if conds != [] {
      CheckConditionsIssuesCount(intent, check, conds[1..]);
    }
  }

  function CountFiring(intent: Dict, conds: seq<(string, Value)>): nat
  {
    if conds == [] then 0 else (if Fires(intent, conds[0]) then 1 else 0) + CountFiring(intent, conds[1..])
  }

  // ---------------------------------------------------------------------------
  // query_by_framework: which fields are looked up, with which keywords

  /** Categories the framework walk leaves to other code. */
  const SkippedCategories: set<string> := {"subject", "expression", "scene", "technical"}

  /** Field values that mean "nothing particular" and are never looked up. */
  const DefaultValues: seq<Value> := [VStr("modern"), VStr("natural"), VStr("auto"), VStr("none")]

  /**
   * The search keywords for one field, or None when the field is not looked up: it has
   * no `db_category`, its value (the intent's, else the field's default) is falsy or a
   * default value. A value missing from `search_keywords` is its own keyword.
   */
  function FieldSearch(categoryIntent: Value, field: string, config: Dict): (r: Result<Option<Value>>)
    ensures r.Ok? && r.value.Some? ==> "db_category" in config
  {
    if !categoryIntent.VDict? then Err("AttributeError")
    else
      var value := Get(categoryIntent.entries, field, Get(config, "default", VNone));
      if !("db_category" in config && Truthy(value)) then Ok(None)
      else if value in DefaultValues then Ok(None)
      else
        var keywordsMap := Get(config, "search_keywords", VDict(map[]));
        if !keywordsMap.VDict? then Err("AttributeError")
        else match value
          case VStr(s) => Ok(Some(Get(keywordsMap.entries, s, VList([value]))))
          case VList(_) => Err("TypeError")
          case VDict(_) => Err("TypeError")
          case _ => Ok(Some(VList([value])))
  }

  /** The walk over the framework: (qualified field name, keywords) for every field looked up. */
  function FrameworkSearches(intent: Dict, cats: Categories): Result<seq<(string, Value)>>
  {
    if cats == [] then Ok([])
    else
      var own := if cats[0].0 in SkippedCategories then Ok([])
        else FieldSearches(Get(intent, cats[0].0, VDict(map[])), cats[0].0, cats[0].1.fields);
      match own
      case Err(e) => Err(e)
      case Ok(searches) =>
        match FrameworkSearches(intent, cats[1..])
        case Err(e) => Err(e)
        case Ok(rest) => Ok(searches + rest)
  }

  function FieldSearches(categoryIntent: Value, category: string, fields: seq<(string, Dict)>): Result<seq<(string, Value)>>
  {
    if fields == [] then Ok([])
    else match FieldSearch(categoryIntent, fields[0].0, fields[0].1)
      case Err(e) => Err(e)
      case Ok(kws) =>
        match FieldSearches(categoryIntent, category, fields[1..])
        case Err(e) => Err(e)
        case Ok(rest) => Ok((if kws.Some? then [(QualifiedName(category, fields[0].0), kws.value)] else []) + rest)
  }

  /** A field whose value is a default value, or falsy, is never looked up. */
  lemma DefaultsSkipped(entries: Dict, field: string, config: Dict)
    requires var v := Get(entries, field, Get(config, "default", VNone)); v in DefaultValues || !Truthy(v)
    ensures FieldSearch(VDict(entries), field, config) == Ok(None)
  {
  }

  /** A string value with a `db_category` that is not a default is searched by its mapped keywords, else by itself. */
  lemma SearchKeywordsOf(entries: Dict, field: string, config: Dict, s: string)
    requires Get(entries, field, Get(config, "default", VNone)) == VStr(s)
    requires "db_category" in config && s != "" && VStr(s) !in DefaultValues
    requires Get(config, "search_keywords", VDict(map[])).VDict?
    ensures var m := Get(config, "search_keywords", VDict(map[])).entries;
      FieldSearch(VDict(entries), field, config) == Ok(Some(if s in m then m[s] else VList([VStr(s)])))
  {
  }

  /** The skipped categories contribute no lookups, whatever the intent holds for them. */
  lemma {:induction false} SkippedCategoriesNotSearched(intent: Dict, cats: Categories)
    requires FrameworkSearches(intent, cats).Ok?
    ensures forall k :: 0 <= k < |FrameworkSearches(intent, cats).value| ==>
      exists i, j :: 0 <= i < |cats| && cats[i].0 !in SkippedCategories && 0 <= j < |cats[i].1.fields|
        && FrameworkSearches(intent, cats).value[k].0 == QualifiedName(cats[i].0, cats[i].1.fields[j].0)
  {
    if cats != [] {
      SkippedCategoriesNotSearched(intent, cats[1..]);
      var own: seq<(string, Value)> := if cats[0].0 in SkippedCategories then [] else
        FieldSearches(Get(intent, cats[0].0, VDict(map[])), cats[0].0, cats[0].1.fields).value;
      if cats[0].0 !in SkippedCategories {
        FieldSearchesNames(Get(intent, cats[0].0, VDict(map[])), cats[0].0, cats[0].1.fields);
      }
      var rest := FrameworkSearches(intent, cats[1..]).value;
      assert FrameworkSearches(intent, cats).value == own + rest;
      forall k | 0 <= k < |own + rest|
        ensures exists i, j :: (0 <= i < |cats| && cats[i].0 !in SkippedCategories && 0 <= j < |cats[i].1.fields|
                                && (own + rest)[k].0 == QualifiedName(cats[i].0, cats[i].1.fields[j].0))
      {
        if k < |own| {
          var j :| 0 <= j < |cats[0].1.fields| && own[k].0 == QualifiedName(cats[0].0, cats[0].1.fields[j].0);
          assert (own + rest)[k] == own[k];
        } else {
          assert (own + rest)[k] == rest[k - |own|];
          var i, j :| 0 <= i < |cats[1..]| && cats[1..][i].0 !in SkippedCategories && 0 <= j < |cats[1..][i].1.fields|
            && rest[k - |own|].0 == QualifiedName(cats[1..][i].0, cats[1..][i].1.fields[j].0);
          assert cats[1..][i] == cats[i + 1];
        }
      }
    }
  }

  lemma {:induction false} FieldSearchesNames(categoryIntent: Value, category: string, fields: seq<(string, Dict)>)
    requires FieldSearches(categoryIntent, category, fields).Ok?
    ensures forall k :: 0 <= k < |FieldSearches(categoryIntent, category, fields).value| ==>
      exists j :: 0 <= j < |fields| && FieldSearches(categoryIntent, category, fields).value[k].0 == QualifiedName(category, fields[j].0)
  {
    if fields != [] {
      FieldSearchesNames(categoryIntent, category, fields[1..]);
      var kws := FieldSearch(categoryIntent, fields[0].0, fields[0].1).value;
      var own: seq<(string, Value)> := if kws.Some? then [(QualifiedName(category, fields[0].0), kws.value)] else [];
      var rest := FieldSearches(categoryIntent, category, fields[1..]).value;
      forall k | 0 <= k < |own + rest|
        ensures exists j :: 0 <= j < |fields| && (own + rest)[k].0 == QualifiedName(category, fields[j].0)
      {
        if k < |own| {
          assert (own + rest)[k] == own[k];
        } else {
          assert (own + rest)[k] == rest[k - |own|];
          var j :| 0 <= j < |fields[1..]| && rest[k - |own|].0 == QualifiedName(category, fields[1..][j].0);
          assert fields[1..][j] == fields[j + 1];
        }
      }
    }
  }
}
