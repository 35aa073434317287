/**
 * `SQLiteVariableSampler`: fills the `{name}` placeholders of an element's template
 * with sampled variable values, steering the choice by a style context and away from
 * the values sampled most recently.
 *
 * The `elements` and `element_variables` tables are row sequences. `random.choice`,
 * `random.randint` and `random.uniform` are nondeterministic choices: the model proves
 * where a value comes from, never how it is distributed. Python's `str()` of floats,
 * lists and dicts is the parameter `repr`.
 */
module VariableSampler {
  import opened Wrappers
  import opened Text
  import opened Seqs
  import opened PyValue
  import opened Sorting
  import opened ElementLookup

  /** A row of `element_variables`; `possibleValues` is the decoded JSON, None when absent or invalid. */
  datatype VariableRow = VariableRow(
    elementId: string,
    variableId: string,
    name: string,
    kind: string,
    possibleValues: Value,
    default: Value)

  /** `get_element_variables`: the element's variable rows in table order. */
  function VariablesOf(vars: seq<VariableRow>, elementId: string): seq<VariableRow>
  {
    Filter(vars, (v: VariableRow) => v.elementId == elementId)
  }

  /** `get_element`: the row with that id. */
  function FindElement(rows: seq<Row>, elementId: string): (r: Option<Row>)
    ensures r.Some? ==> r.value in rows && r.value.elementId == elementId
    ensures r.None? <==> forall i :: 0 <= i < |rows| ==> rows[i].elementId != elementId
  {
    if rows == [] then None
    else if rows[0].elementId == elementId then Some(rows[0])
    else
      var r := FindElement(rows[1..], elementId);
      assert forall i :: 1 <= i < |rows| ==> rows[i] == rows[1..][i - 1];
      r
  }

  // ---------------------------------------------------------------------------
  // Ordered variable dicts

  /** A Python dict from variable name to value, in insertion order. */
  type Vars = seq<(string, Value)>

  function Names(vs: Vars): seq<string>
  {
    seq(|vs|, i requires 0 <= i < |vs| => vs[i].0)
  }

  /** `vs[name] = value`: overwrite in place when present, append otherwise. */
  function Put(vs: Vars, name: string, value: Value): (r: Vars)
    ensures name in Names(vs) ==> |r| == |vs| && Names(r) == Names(vs)
    ensures name !in Names(vs) ==> r == vs + [(name, value)]
    ensures forall i :: 0 <= i < |r| ==> r[i] == if r[i].0 == name then (name, value) else vs[i]
  {
    if name in Names(vs) then
      seq(|vs|, i requires 0 <= i < |vs| => if vs[i].0 == name then (name, value) else vs[i])
    else
      assert forall i :: 0 <= i < |vs| ==> vs[i].0 == Names(vs)[i];
      vs + [(name, value)]
  }

  // ---------------------------------------------------------------------------
  // apply_variables

  function Placeholder(name: string): (r: string)
    ensures r != []
  {
    "{" + name + "}"
  }

  /** One variable: every occurrence of its placeholder, when there is one, becomes `str(value)`. */
  function ApplyOne(template: string, name: string, value: Value, repr: Value -> string): string
  {
    if Contains(template, Placeholder(name)) then Replace(template, Placeholder(name), Str(value, repr))
    else template
  }

  /** `apply_variables`: the variables applied one after another, in dict order. */
  function ApplyVariables(template: string, vs: Vars, repr: Value -> string): string
  {
    if vs == [] then template
    else
      var last := vs[|vs| - 1];
      ApplyOne(ApplyVariables(template, vs[..|vs| - 1], repr), last.0, last.1, repr)
  }

  method ApplyVariablesLoop(template: string, vs: Vars, repr: Value -> string) returns (result: string)
    ensures result == ApplyVariables(template, vs, repr)
  {
    result := template;
    var i := 0;
    while i < |vs|
      invariant 0 <= i <= |vs|
      invariant result == ApplyVariables(template, vs[..i], repr)
    {
      assert vs[..i + 1][..i] == vs[..i];
      var (name, value) := vs[i];
      var placeholder := "{" + name + "}";
      if Contains(result, placeholder) {
        result := Replace(result, placeholder, Str(value, repr));
      }
      i := i + 1;
    }
    assert vs[..i] == vs;
  }

  /**
   * Applying one variable cuts the text at every occurrence of its placeholder and joins
   * the pieces, none of which holds the placeholder, with `str(value)`: the rest of the
   * text is kept as it was.
   */
  lemma ApplyOneProps(template: string, name: string, value: Value, repr: Value -> string)
    ensures var pieces := SplitStr(template, Placeholder(name));
      Join(pieces, Placeholder(name)) == template
      && ApplyOne(template, name, value, repr) == Join(pieces, Str(value, repr))
      && forall k :: 0 <= k < |pieces| ==> !Contains(pieces[k], Placeholder(name))
  {
    var ph := Placeholder(name);
    SplitStrJoin(template, ph);
    SplitStrPiecesFree(template, ph);
    ReplaceIsSplitJoin(template, ph, Str(value, repr));
    if !Contains(template, ph) {
      ReplaceAbsent(template, ph, Str(value, repr));
    }
  }

  /** A template holding none of the placeholders comes back unchanged. */
  lemma {:induction false} ApplyWithoutPlaceholders(template: string, vs: Vars, repr: Value -> string)
    requires forall i :: 0 <= i < |vs| ==> !Contains(template, Placeholder(vs[i].0))
    ensures ApplyVariables(template, vs, repr) == template
  {
    if vs != [] {
      var init := vs[..|vs| - 1];
      assert forall i :: 0 <= i < |init| ==> init[i] == vs[i];
      ApplyWithoutPlaceholders(template, init, repr);
    }
  }

  // ---------------------------------------------------------------------------
  // filter_by_style

  /** Python's `v in container`; unhashable keys and containers without `in` raise TypeError. */
  function PyContains(v: Value, container: Value): Result<bool>
  {
    match container
    case VList(items) => Ok(PyMember(v, items))
    case VStr(s) => if v.VStr? then Ok(Contains(s, v.s)) else Err("TypeError")
    case VDict(m) =>
      if v.VStr? then Ok(v.s in m)
      else if v.VList? || v.VDict? then Err("TypeError")
      else Ok(false)
    case _ => Err("TypeError")
  }

  /** `[v for v in values if v in preferred]` */
  function KeepPreferred(values: seq<Value>, preferred: Value): (r: Result<seq<Value>>)
    ensures r.Ok? ==> IsSubsequence(r.value, values)
    ensures r.Ok? ==> forall v :: v in r.value ==> PyContains(v, preferred) == Ok(true)
    ensures r.Ok? ==> forall i :: 0 <= i < |values| && PyContains(values[i], preferred) == Ok(true) ==> values[i] in r.value
  {
    if values == [] then Ok([])
    else
      match (PyContains(values[0], preferred), KeepPreferred(values[1..], preferred))
      case (Err(e), _) => Err(e)
      case (_, Err(e)) => Err(e)
      case (Ok(keep), Ok(rest)) =>
        assert forall i :: 1 <= i < |values| ==> values[i] == values[1..][i - 1];
        SubsequenceExtend(rest, values[1..], values[0]);
        assert [values[0]] + values[1..] == values;
        if keep then
          assert ([values[0]] + rest)[1..] == rest;
          Ok([values[0]] + rest)
        else Ok(rest)
  }

  /** `filter_by_style`: the preferred values when there are any among them, else all of them. */
  function FilterByStyle(values: seq<Value>, style: Dict): Result<seq<Value>>
  {
    var preferred := Get(style, "preferred_values", VList([]));
    if !Truthy(preferred) then Ok(values)
    else
      match KeepPreferred(values, preferred)
      case Err(e) => Err(e)
      case Ok(kept) => Ok(if kept != [] then kept else values)
  }

  /**
   * The style filter returns the values unchanged, or the non-empty list of those in
   * `preferred_values`, in their order; it raises only when a membership test does.
   */
  lemma FilterByStyleProps(values: seq<Value>, style: Dict)
    ensures var r := FilterByStyle(values, style);
      var preferred := Get(style, "preferred_values", VList([]));
      r.Ok? ==>
        (r.value == values
         || (r.value != [] && IsSubsequence(r.value, values)
             && forall v :: v in r.value ==> PyContains(v, preferred) == Ok(true)))
    ensures var r := FilterByStyle(values, style);
      var preferred := Get(style, "preferred_values", VList([]));
      r.Ok? && Truthy(preferred) && (exists i :: 0 <= i < |values| && PyContains(values[i], preferred) == Ok(true)) ==>
        forall v :: v in r.value ==> PyContains(v, preferred) == Ok(true)
  {
  }

  // ---------------------------------------------------------------------------
  // adjust_range_by_style

  /** A Python number as a real; booleans count as 0 and 1. */
  function NumOf(v: Value): Option<real>
  {
    match v
    case VInt(i) => Some(i as real)
    case VFloat(x) => Some(x)
    case VBool(b) => Some(if b then 1.0 else 0.0)
    case _ => None
  }

  /** A Python int (`isinstance(v, int)` holds for booleans too). */
  function IntOf(v: Value): Option<int>
  {
    match v
    case VInt(i) => Some(i)
    case VBool(b) => Some(if b then 1 else 0)
    case _ => None
  }

  /** The midpoint `lo + (hi - lo) * 0.5`, a float. */
  function Midpoint(lo: Value, hi: Value): Result<Value>
  {
    if NumOf(lo).Some? && NumOf(hi).Some? then
      Ok(VFloat(NumOf(lo).value + (NumOf(hi).value - NumOf(lo).value) * 0.5))
    else Err("TypeError")
  }

  /** `adjust_range_by_style`: 'low' keeps the lower half, 'high' the upper half, anything else the range. */
  function AdjustRange(lo: Value, hi: Value, style: Dict): Result<(Value, Value)>
  {
    if "range_preference" in style && style["range_preference"] == VStr("low") then
      match Midpoint(lo, hi)
      case Err(e) => Err(e)
      case Ok(mid) => Ok((lo, mid))
    else if "range_preference" in style && style["range_preference"] == VStr("high") then
      match Midpoint(lo, hi)
      case Err(e) => Err(e)
      case Ok(mid) => Ok((mid, hi))
    else Ok((lo, hi))
  }

  /** For numeric bounds with lo <= hi the adjusted range is a half of the original one, or all of it. */
  lemma AdjustRangeProps(lo: Value, hi: Value, style: Dict)
    requires NumOf(lo).Some? && NumOf(hi).Some? && NumOf(lo).value <= NumOf(hi).value
    ensures var r := AdjustRange(lo, hi, style); var l := NumOf(lo).value; var h := NumOf(hi).value;
      r.Ok?
      && NumOf(r.value.0).Some? && NumOf(r.value.1).Some?
      && l <= NumOf(r.value.0).value <= NumOf(r.value.1).value <= h
      && (Get(style, "range_preference", VNone) == VStr("low") ==> r.value == (lo, VFloat(l + (h - l) / 2.0)))
      && (Get(style, "range_preference", VNone) == VStr("high") ==> r.value == (VFloat(l + (h - l) / 2.0), hi))
      && (Get(style, "range_preference", VNone) !in {VStr("low"), VStr("high")} ==> r.value == (lo, hi))
  {
  }

  // ---------------------------------------------------------------------------
  // History and get_recent_values

  /** One history record: the element and the variables sampled for it (the timestamp is left out). */
  datatype SampleRecord = SampleRecord(elementId: string, variables: Vars)

  function Values(vs: Vars): seq<Value>
  {
    seq(|vs|, i requires 0 <= i < |vs| => vs[i].1)
  }

  /** Every recorded value, newest record first, each record's values in dict order. */
  function NewestValues(history: seq<SampleRecord>): seq<Value>
  {
    if history == [] then []
    else Values(history[|history| - 1].variables) + NewestValues(history[..|history| - 1])
  }

  /** `get_recent_values`: the first n of those, whatever variable they belong to. */
  function RecentValues(history: seq<SampleRecord>, n: nat): seq<Value>
  {
    Take(NewestValues(history), n)
  }

  const MaxHistory: nat := 100

  // ---------------------------------------------------------------------------
  // sample_variable

  /** What a variable's sampling draws from. */
  datatype Draw =
    | Fixed(v: Value)            // always this value
    | OneOf(pool: seq<Value>)    // `random.choice(pool)`
    | OneOfKeys(keys: set<string>) // `random.choice` of a list of dict keys
    | IntIn(lo: int, hi: int)    // `random.randint(lo, hi)`
    | AnyFloat                   // `round(random.uniform(lo, hi), 2)`
    | AnyBool                    // `random.choice([True, False])`

  predicate Drawn(d: Draw, v: Value)
  {
    match d
    case Fixed(x) => v == x
    case OneOf(pool) => v in pool
    case OneOfKeys(keys) => v.VStr? && v.s in keys
    case IntIn(lo, hi) => v.VInt? && lo <= v.i <= hi
    case AnyFloat => v.VFloat?
    case AnyBool => v.VBool?
  }

  /** The items an enum iterates over: a list's items or a string's characters. */
  function EnumItems(pv: Value): Option<seq<Value>>
  {
    match pv
    case VList(items) => Some(items)
    case VStr(s) => Some(seq(|s|, i requires 0 <= i < |s| => VStr([s[i]])))
    case _ => None
  }

  /** The enum values after the history filter: those not recent, when there are some and more than one value. */
  function AvoidRecent(values: seq<Value>, recent: seq<Value>, avoid: bool): seq<Value>
  {
    if avoid && |values| > 1 then
      var unseen := Filter(values, v => !PyMember(v, recent));
      if unseen != [] then unseen else values
    else values
  }

  /** The style context as `sample_variable` sees it: None or a dict. */
  predicate StyleContext(style: Value)
  {
    style.VNone? || style.VDict?
  }

  /** The dict keys `filter_by_style` keeps: None when it returns the dict itself. */
  function StyledKeys(keys: set<string>, style: Value): Result<Option<set<string>>>
    requires StyleContext(style)
  {
    var preferred := if Truthy(style) then Get(style.entries, "preferred_values", VList([])) else VList([]);
    if !Truthy(preferred) then Ok(None)
    else if !(preferred.VList? || preferred.VStr? || preferred.VDict?) then Err("TypeError")
    else
      var kept := set k | k in keys && PyContains(VStr(k), preferred) == Ok(true);
      Ok(if kept != {} then Some(kept) else None)
  }

  /**
   * An enum whose possible values are a (non-empty) dict: the filters iterate over its
   * keys and turn it into a list of keys when they keep some; `random.choice` on the dict
   * itself indexes it by an int, which no (string) key is: KeyError.
   */
  function DictEnumDraw(keys: set<string>, style: Value, recent: seq<Value>, avoid: bool): Result<Draw>
    requires StyleContext(style)
  {
    match StyledKeys(keys, style)
    case Err(e) => Err(e)
    case Ok(styled) =>
      var current := if styled.Some? then styled.value else keys;
      var unseen := set k | k in current && !PyMember(VStr(k), recent);
      if avoid && |current| > 1 && unseen != {} then Ok(OneOfKeys(unseen))
      else if styled.Some? then Ok(OneOfKeys(current))
      else Err("KeyError")
  }

  function EnumDraw(v: VariableRow, style: Value, recent: seq<Value>, avoid: bool): Result<Draw>
    requires StyleContext(style)
  {
    if !Truthy(v.possibleValues) then Ok(Fixed(v.default))
    else if v.possibleValues.VDict? then DictEnumDraw(v.possibleValues.entries.Keys, style, recent, avoid)
    else
      match EnumItems(v.possibleValues)
      case None => Err("TypeError")
      case Some(items) =>
        var styled := if Truthy(style) then FilterByStyle(items, style.entries) else Ok(items);
        match styled
        case Err(e) => Err(e)
        case Ok(values) =>
          var pool := AvoidRecent(values, recent, avoid);
          Ok(if pool != [] then OneOf(pool) else Fixed(v.default))
  }

  /** The two bounds of a range: a two-item list; other two-element containers unpack to non-numbers. */
  function RangeDraw(v: VariableRow, style: Value): Result<Draw>
    requires StyleContext(style)
  {
    var pv := v.possibleValues;
    if !Truthy(pv) then Ok(Fixed(v.default))
    else if !(pv.VList? || pv.VStr? || pv.VDict?) then Err("TypeError")
    else if pv.VList? && |pv.items| != 2 then Ok(Fixed(v.default))
    else if pv.VStr? && |pv.s| != 2 then Ok(Fixed(v.default))
    else if pv.VDict? && |pv.entries| != 2 then Ok(Fixed(v.default))
    else if !pv.VList? then Err("TypeError")
    else
      var bounds := if Truthy(style) then AdjustRange(pv.items[0], pv.items[1], style.entries) else Ok((pv.items[0], pv.items[1]));
      match bounds
      case Err(e) => Err(e)
      case Ok((lo, hi)) =>
        if IntOf(lo).Some? && IntOf(hi).Some? then
          if IntOf(lo).value <= IntOf(hi).value then Ok(IntIn(IntOf(lo).value, IntOf(hi).value)) else Err("ValueError")
        else if NumOf(lo).Some? && NumOf(hi).Some? then Ok(AnyFloat)
        else Err("TypeError")
  }

  function BooleanDraw(v: VariableRow, style: Value): Draw
    requires StyleContext(style)
  {
    if Truthy(style) && "prefer_" + v.name in style.entries then Fixed(style.entries["prefer_" + v.name])
    else AnyBool
  }

  /** `sample_variable` with the recent values it would consult. */
  function SampleDraw(v: VariableRow, style: Value, recent: seq<Value>, avoid: bool): Result<Draw>
    requires StyleContext(style)
  {
    if v.kind == "enum" then EnumDraw(v, style, recent, avoid)
    else if v.kind == "range" then RangeDraw(v, style)
    else if v.kind == "boolean" then Ok(BooleanDraw(v, style))
    else Ok(Fixed(v.default))
  }

  /** A draw always has a value to give. */
  predicate Drawable(d: Draw)
  {
    match d
    case OneOf(pool) => pool != []
    case OneOfKeys(keys) => keys != {}
    case IntIn(lo, hi) => lo <= hi
    case _ => true
  }

  lemma SampleDrawDrawable(v: VariableRow, style: Value, recent: seq<Value>, avoid: bool)
    requires StyleContext(style)
    ensures SampleDraw(v, style, recent, avoid).Ok? ==> Drawable(SampleDraw(v, style, recent, avoid).value)
  {
  }

  /**
   * Enum sampling: the default without values; otherwise a value among the style-filtered
   * ones, and, with history avoidance, more than one of them and one not recent, a value
   * that is not recent.
   */
  lemma EnumDrawProps(v: VariableRow, style: Value, recent: seq<Value>, avoid: bool)
    requires StyleContext(style) && v.kind == "enum"
    ensures !Truthy(v.possibleValues) ==> SampleDraw(v, style, recent, avoid) == Ok(Fixed(v.default))
    ensures var d := SampleDraw(v, style, recent, avoid);
      d.Ok? && Truthy(v.possibleValues) && !v.possibleValues.VDict? ==>
        var styled := if Truthy(style) then FilterByStyle(EnumItems(v.possibleValues).value, style.entries).value
                      else EnumItems(v.possibleValues).value;
        d.value.OneOf? && (forall x :: x in d.value.pool ==> x in styled)
        && (avoid && |styled| > 1 && (exists x :: x in styled && !PyMember(x, recent)) ==>
              forall x :: x in d.value.pool ==> !PyMember(x, recent))
  {
    if Truthy(v.possibleValues) && !v.possibleValues.VDict? && SampleDraw(v, style, recent, avoid).Ok? {
      var items := EnumItems(v.possibleValues).value;
      EnumItemsNonEmpty(v.possibleValues);
      var styled := if Truthy(style) then FilterByStyle(items, style.entries).value else items;
      if Truthy(style) {
        FilterByStyleProps(items, style.entries);
      }
      AvoidRecentProps(styled, recent, avoid);
    }
  }

  /** A truthy list or string has at least one item to iterate over. */
  lemma EnumItemsNonEmpty(pv: Value)
    requires Truthy(pv) && (pv.VList? || pv.VStr?)
    ensures EnumItems(pv).Some? && EnumItems(pv).value != []
  {
    match pv
    case VList(xs) =>
    case VStr(s) => assert EnumItems(pv).value[0] == VStr([s[0]]);
  }

  /**
   * The history filter keeps values from its input, and, with avoidance, more than one value
   * and one of them not recent, keeps only values that are not recent.
   */
  lemma AvoidRecentProps(values: seq<Value>, recent: seq<Value>, avoid: bool)
    ensures forall x :: x in AvoidRecent(values, recent, avoid) ==> x in values
    ensures avoid && |values| > 1 && (exists x :: x in values && !PyMember(x, recent)) ==>
      forall x :: x in AvoidRecent(values, recent, avoid) ==> !PyMember(x, recent)
  {
    if avoid && |values| > 1 && (exists x :: x in values && !PyMember(x, recent)) {
      var x :| x in values && !PyMember(x, recent);
      assert x in Filter(values, y => !PyMember(y, recent));
    }
  }

  /**
   * Enum sampling over a dict's keys: a key, one the style prefers when it prefers any,
   * and, with history avoidance among several keys one of which is not recent, a key
   * that is not recent; KeyError exactly when neither filter kept a key.
   */
  lemma DictEnumDrawProps(keys: set<string>, style: Value, recent: seq<Value>, avoid: bool)
    requires StyleContext(style) && keys != {}
    ensures var d := DictEnumDraw(keys, style, recent, avoid);
      d.Ok? ==> d.value.OneOfKeys? && d.value.keys != {} && d.value.keys <= keys
    ensures var d := DictEnumDraw(keys, style, recent, avoid);
      d.Ok? && StyledKeys(keys, style).value.Some? ==> d.value.keys <= StyledKeys(keys, style).value.value
    ensures var d := DictEnumDraw(keys, style, recent, avoid);
      var current := if StyledKeys(keys, style).Ok? && StyledKeys(keys, style).value.Some? then StyledKeys(keys, style).value.value else keys;
      d.Ok? && avoid && |current| > 1 && (exists k :: k in current && !PyMember(VStr(k), recent)) ==>
        forall k :: k in d.value.keys ==> !PyMember(VStr(k), recent)
    ensures var d := DictEnumDraw(keys, style, recent, avoid);
      d == Err("KeyError") <==>
        StyledKeys(keys, style) == Ok(None) && !(avoid && |keys| > 1 && exists k :: k in keys && !PyMember(VStr(k), recent))
  {
    var d := DictEnumDraw(keys, style, recent, avoid);
    if StyledKeys(keys, style).Ok? {
      var styled := StyledKeys(keys, style).value;
      var current := if styled.Some? then styled.value else keys;
      var unseen := set k | k in current && !PyMember(VStr(k), recent);
      if exists k :: k in current && !PyMember(VStr(k), recent) {
        var k :| k in current && !PyMember(VStr(k), recent);
        assert k in unseen;
      }
    }
  }

  /**
   * Range sampling: the default unless the possible values hold exactly two entries;
   * with int bounds lo <= hi an int in [lo, hi].
   */
  lemma RangeDrawProps(v: VariableRow, style: Value)
    requires StyleContext(style) && v.kind == "range"
    ensures var pv := v.possibleValues;
      pv.VList? && |pv.items| != 2 ==> SampleDraw(v, style, [], true) == Ok(Fixed(v.default))
    ensures var pv := v.possibleValues;
      pv.VList? && |pv.items| == 2 && !Truthy(style) && IntOf(pv.items[0]).Some? && IntOf(pv.items[1]).Some?
      && IntOf(pv.items[0]).value <= IntOf(pv.items[1]).value ==>
        SampleDraw(v, style, [], true) == Ok(IntIn(IntOf(pv.items[0]).value, IntOf(pv.items[1]).value))
  {
  }

  /** Boolean sampling: the style's `prefer_<name>` when present, otherwise any boolean; an unknown type gives the default. */
  lemma OtherDrawProps(v: VariableRow, style: Value, recent: seq<Value>, avoid: bool)
    requires StyleContext(style)
    ensures v.kind == "boolean" && style.VDict? && style.entries != map[] && "prefer_" + v.name in style.entries ==>
      SampleDraw(v, style, recent, avoid) == Ok(Fixed(style.entries["prefer_" + v.name]))
    ensures v.kind == "boolean" && (style.VNone? || "prefer_" + v.name !in style.entries) ==>
      SampleDraw(v, style, recent, avoid) == Ok(AnyBool)
    ensures v.kind != "enum" && v.kind != "range" && v.kind != "boolean" ==>
      SampleDraw(v, style, recent, avoid) == Ok(Fixed(v.default))
  {
  }

  // ---------------------------------------------------------------------------
  // The sampler

  /** A draw for each variable, collected into the dict by name, a later variable of the same name replacing an earlier one's value. */
  function PutAll(vars: seq<VariableRow>, draws: seq<Value>): Vars
    requires |draws| == |vars|
  {
    if vars == [] then []
    else Put(PutAll(vars[..|vars| - 1], draws[..|draws| - 1]), vars[|vars| - 1].name, draws[|draws| - 1])
  }

  /** The dict holds one entry per distinct variable name, in first-occurrence order. */
  lemma {:induction false} PutAllNames(vars: seq<VariableRow>, draws: seq<Value>)
    requires |draws| == |vars|
    ensures Names(PutAll(vars, draws)) == Dedupe(seq(|vars|, i requires 0 <= i < |vars| => vars[i].name))
  {
    var names := seq(|vars|, i requires 0 <= i < |vars| => vars[i].name);
    if vars != [] {
      var init := vars[..|vars| - 1];
      PutAllNames(init, draws[..|draws| - 1]);
      var initNames := seq(|init|, i requires 0 <= i < |init| => init[i].name);
      assert names == initNames + [vars[|vars| - 1].name];
      DedupeSnoc(initNames, vars[|vars| - 1].name);
      DedupeProps(initNames);
    }
  }

  /** The values the element's variables were drawn as, in variable order. */
  ghost predicate DrawnAll(vars: seq<VariableRow>, style: Value, recent: seq<Value>, draws: seq<Value>)
    requires StyleContext(style)
  {
    |draws| == |vars|
    && forall j :: 0 <= j < |vars| ==>
         SampleDraw(vars[j], style, recent, true).Ok? && Drawn(SampleDraw(vars[j], style, recent, true).value, draws[j])
  }

  lemma DrawnAllSnoc(vars: seq<VariableRow>, style: Value, recent: seq<Value>, draws: seq<Value>, v: VariableRow, x: Value)
    requires StyleContext(style)
    requires DrawnAll(vars, style, recent, draws)
    requires SampleDraw(v, style, recent, true).Ok? && Drawn(SampleDraw(v, style, recent, true).value, x)
    ensures DrawnAll(vars + [v], style, recent, draws + [x])
  {
    assert forall j :: 0 <= j < |vars| ==> (vars + [v])[j] == vars[j] && (draws + [x])[j] == draws[j];
  }

  lemma PutAllSnoc(vars: seq<VariableRow>, draws: seq<Value>, v: VariableRow, x: Value)
    requires |draws| == |vars|
    ensures PutAll(vars + [v], draws + [x]) == Put(PutAll(vars, draws), v.name, x)
  {
    assert (vars + [v])[..|vars|] == vars;
    assert (draws + [x])[..|draws|] == draws;
  }

  /** What `sample_element_with_variables` returns. */
  datatype Sampled = Sampled(element: Row, variables: Vars, result: string)

  class Sampler {
    var history: seq<SampleRecord>

    constructor ()
      ensures history == []
    {
      history := [];
    }

    /** One value of the inner loop: it is kept while fewer than `n` are. */
    static lemma RecentStep(all: seq<Value>, vals: seq<Value>, j: int, recent: seq<Value>, n: nat)
      requires 0 <= j < |vals| && recent == Take(all + vals[..j], n)
      ensures (if |recent| < n then recent + [vals[j]] else recent) == Take(all + vals[..j + 1], n)
    {
      assert vals[..j + 1] == vals[..j] + [vals[j]];
      assert all + vals[..j + 1] == (all + vals[..j]) + [vals[j]];
      TakeSnoc(all + vals[..j], vals[j], n);
    }

    /** `get_recent_values`: the variable id is not consulted. */
    method GetRecentValues(variableId: string, n: nat) returns (recent: seq<Value>)
      ensures recent == RecentValues(history, n)
    {
      recent := [];
      ghost var all: seq<Value> := [];
      var k := |history|;
      while k > 0
        invariant 0 <= k <= |history|
        invariant all == NewestValues(history[k..])
        invariant recent == Take(all, n)
      {
        var record := history[k - 1];
        var j := 0;
        while j < |record.variables|
          invariant 0 <= j <= |record.variables|
          invariant recent == Take(all + Values(record.variables)[..j], n)
        {
          assert Values(record.variables)[j] == record.variables[j].1;
          RecentStep(all, Values(record.variables), j, recent, n);
          if |recent| < n {
            recent := recent + [record.variables[j].1];
          }
          j := j + 1;
        }
        assert Values(record.variables)[..j] == Values(record.variables);
        assert history[k - 1..] == [record] + history[k..];
        NewestValuesCons(record, history[k..]);
        all := all + Values(record.variables);
        k := k - 1;
      }
      assert history[0..] == history;
    }

    /** `sample_variable` against the current history. */
    method SampleVariable(v: VariableRow, style: Value, avoid: bool) returns (r: Result<Value>)
      requires StyleContext(style)
      ensures SampleDraw(v, style, RecentValues(history, 3), avoid).Err? ==>
        r == Err(SampleDraw(v, style, RecentValues(history, 3), avoid).error)
      ensures SampleDraw(v, style, RecentValues(history, 3), avoid).Ok? ==>
        r.Ok? && Drawn(SampleDraw(v, style, RecentValues(history, 3), avoid).value, r.value)
    {
      var recent := GetRecentValues(v.variableId, 3);
      var d := SampleDraw(v, style, recent, avoid);
      SampleDrawDrawable(v, style, recent, avoid);
      if d.Err? {
        return Err(d.error);
      }
      match d.value
      case Fixed(x) =>
        r := Ok(x);
      case OneOf(pool) =>
        assert pool[0] in pool;
        var x :| x in pool;
        r := Ok(x);
      case OneOfKeys(keys) =>
        var k :| k in keys;
        r := Ok(VStr(k));
      case IntIn(lo, hi) =>
        var x :| lo <= x <= hi;
        r := Ok(VInt(x));
      case AnyFloat =>
        var x: real :| true;
        r := Ok(VFloat(x));
      case AnyBool =>
        var b: bool :| true;
        r := Ok(VBool(b));
    }

    /** The sampling loop: each variable drawn in order into the dict, stopping at the first error. */
    method SampleAll(own: seq<VariableRow>, style: Value) returns (r: Result<Vars>, ghost draws: seq<Value>)
      requires StyleContext(style)
      ensures r.Ok? ==> DrawnAll(own, style, RecentValues(history, 3), draws) && r.value == PutAll(own, draws)
      ensures r.Err? ==> exists j :: 0 <= j < |own| && SampleDraw(own[j], style, RecentValues(history, 3), true).Err?
    {
      var sampled: Vars := [];
      draws := [];
      var i := 0;
      while i < |own|
        invariant 0 <= i <= |own|
        invariant |draws| == i
        invariant DrawnAll(own[..i], style, RecentValues(history, 3), draws)
        invariant sampled == PutAll(own[..i], draws)
      {
        var value := SampleVariable(own[i], style, true);
        if value.Err? {
          return Err(value.error), draws;
        }
        assert own[..i + 1] == own[..i] + [own[i]];
        DrawnAllSnoc(own[..i], style, RecentValues(history, 3), draws, own[i], value.value);
        PutAllSnoc(own[..i], draws, own[i], value.value);
        sampled := Put(sampled, own[i].name, value.value);
        draws := draws + [value.value];
        i := i + 1;
      }
      assert own[..i] == own;
      r := Ok(sampled);
    }

    /**
     * `sample_element_with_variables`. A missing element raises ValueError; an element
     * without variables returns its template and leaves the history alone; otherwise each
     * variable is drawn in order, the template filled, and exactly one record appended,
     * the history keeping its newest 100 records.
     */
    method SampleElementWithVariables(rows: seq<Row>, vars: seq<VariableRow>, elementId: string, style: Value,
                                      repr: Value -> string) returns (r: Result<Sampled>)
      requires StyleContext(style)
      modifies this
      ensures FindElement(rows, elementId).None? ==> r == Err("ValueError") && history == old(history)
      ensures r.Err? ==> history == old(history)
      ensures FindElement(rows, elementId).Some? && VariablesOf(vars, elementId) == [] ==>
        r == Ok(Sampled(FindElement(rows, elementId).value, [], FindElement(rows, elementId).value.template))
        && history == old(history)
      ensures FindElement(rows, elementId).Some? && VariablesOf(vars, elementId) != [] && r.Ok? ==>
        var element := FindElement(rows, elementId).value;
        var own := VariablesOf(vars, elementId);
        r.value.element == element
        && (exists draws :: DrawnAll(own, style, RecentValues(old(history), 3), draws) && r.value.variables == PutAll(own, draws))
        && r.value.result == ApplyVariables(element.template, r.value.variables, repr)
        && history == LastN(old(history) + [SampleRecord(elementId, r.value.variables)], MaxHistory)
      ensures FindElement(rows, elementId).Some? && r.Err? ==>
        exists j :: 0 <= j < |VariablesOf(vars, elementId)|
          && SampleDraw(VariablesOf(vars, elementId)[j], style, RecentValues(old(history), 3), true).Err?
      ensures |history| <= MaxHistory || history == old(history)
    {
      var element := FindElement(rows, elementId);
      if element.None? {
        return Err("ValueError");
      }
      var own := VariablesOf(vars, elementId);
      if own == [] {
        return Ok(Sampled(element.value, [], element.value.template));
      }
      var sampled, draws := SampleAll(own, style);
      if sampled.Err? {
        return Err(sampled.error);
      }
      ghost var recent := RecentValues(history, 3);
      assert DrawnAll(own, style, recent, draws) && sampled.value == PutAll(own, draws);
      var result := ApplyVariablesLoop(element.value.template, sampled.value, repr);
      Remember(SampleRecord(elementId, sampled.value));
      return Ok(Sampled(element.value, sampled.value, result));
    }

    /** The history update: append the record, then keep the newest 100. */
    method Remember(record: SampleRecord)
      modifies this
      ensures history == LastN(old(history) + [record], MaxHistory)
      ensures |history| <= MaxHistory
    {
      history := history + [record];
      if |history| > MaxHistory {
        history := history[|history| - MaxHistory..];
      }
    }
  }

  /** An older record's values come after those of every newer record. */
  lemma {:induction false} NewestValuesCons(x: SampleRecord, t: seq<SampleRecord>)
    ensures NewestValues([x] + t) == NewestValues(t) + Values(x.variables)
  {
    if t == [] {
      assert [x] + t == [x];
      assert [x][..0] == [];
    } else {
      var init := t[..|t| - 1];
      assert ([x] + t)[..|t|] == [x] + init;
      assert ([x] + t)[|t|] == t[|t| - 1];
      NewestValuesCons(x, init);
    }
  }

  /** Appending grows a `Take` by the new item exactly while it is short. */
  lemma TakeSnoc<T>(s: seq<T>, x: T, n: nat)
    ensures Take(s + [x], n) == if |Take(s, n)| < n then Take(s, n) + [x] else Take(s, n)
  {
  }
}
