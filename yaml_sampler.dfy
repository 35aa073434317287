/**
 * `YAMLVariableSampler`: picks a colour scheme, a border style and a decoration for a
 * design style from three YAML tables, avoiding the two names picked most recently
 * for each category, and keeps the newest 100 picks in its history.
 *
 * A loaded YAML table is an ordered dict from style name to that style's options (a
 * `Value`, normally a mapping from option name to option data). `random.choice` is a
 * nondeterministic choice; Python's `str()` of non-string values is the parameter `repr`.
 */
module YamlSampler {
  import opened Wrappers
  import opened Text
  import opened Seqs
  import opened PyValue

  /** A loaded YAML file: style name to options, in file order. */
  type Table = seq<(string, Value)>

  function TableKeys(t: Table): seq<string>
  {
    seq(|t|, i requires 0 <= i < |t| => t[i].0)
  }

  /** `table[key]` for a key that is present (the first entry with that key). */
  function Lookup(t: Table, key: string): Value
    requires key in TableKeys(t)
  {
    if t[0].0 == key then t[0].1
    else
      assert TableKeys(t)[1..] == TableKeys(t[1..]);
      Lookup(t[1..], key)
  }

  /** One category's pick; `Empty` is the `{}` returned when there is nothing to pick from. */
  datatype Sample =
    | Empty
    | Scheme(schemeName: string, schemeData: Value, selectedVariant: Option<Value>, style: string)
    | Border(borderName: string, borderConfig: Value, style: string)
    | Decoration(decorationName: string, decorationConfig: Value, style: string)

  /** The dict `sample_variables` returns: the categories sampled, always in this order. */
  datatype Sampled = Sampled(colors: Option<Sample>, borders: Option<Sample>, decorations: Option<Sample>)

  /** A history record (the timestamp is left out). */
  datatype YamlRecord = YamlRecord(style: Value, sampled: Sampled)

  const MaxHistory: nat := 100

  // ---------------------------------------------------------------------------
  // Style resolution and options

  /**
   * The requested style when the table has it, else the table's first style; None when
   * that one is empty. The style is whatever value the caller passed (None included);
   * testing a list or dict for membership in a dict raises.
   */
  function ResolveStyle(t: Table, style: Value): (r: Result<Option<string>>)
    ensures r.Err? <==> style.VList? || style.VDict?
    ensures r.Ok? && r.value.Some? ==> r.value.value in TableKeys(t)
    ensures style.VStr? && style.s in TableKeys(t) ==> r == Ok(Some(style.s))
    ensures r.Ok? && !(style.VStr? && style.s in TableKeys(t)) ==>
      r.value == if t != [] && t[0].0 != "" then Some(t[0].0) else None
  {
    if style.VList? || style.VDict? then Err("TypeError")
    else if style.VStr? && style.s in TableKeys(t) then Ok(Some(style.s))
    else if t == [] || t[0].0 == "" then Ok(None)
    else
      assert TableKeys(t)[0] == t[0].0;
      Ok(Some(t[0].0))
  }

  /** Colour scheme names naming text or background colours are not main schemes. */
  predicate MainSchemeName(name: string)
  {
    !Contains(name, "文字") && !Contains(name, "背景")
  }

  /**
   * The main colour schemes of the resolved style: mapping entries whose name is a main
   * scheme name. Options that are not a mapping have no `.items()`.
   */
  function ColorOptions(t: Table, style: Value): Result<Option<(string, map<string, Value>)>>
  {
    match ResolveStyle(t, style)
    case Err(e) => Err(e)
    case Ok(None) => Ok(None)
    case Ok(Some(s)) =>
      var opts := Lookup(t, s);
      if !opts.VDict? then Err("AttributeError")
      else
        var main := map n | n in opts.entries && MainSchemeName(n) && opts.entries[n].VDict? :: opts.entries[n];
        if main == map[] then Ok(None) else Ok(Some((s, main)))
  }

  /** The border or decoration options of the resolved style; empty options pick nothing. */
  function KeyedOptions(t: Table, style: Value): Result<Option<(string, map<string, Value>)>>
  {
    match ResolveStyle(t, style)
    case Err(e) => Err(e)
    case Ok(None) => Ok(None)
    case Ok(Some(s)) =>
      var opts := Lookup(t, s);
      if !Truthy(opts) then Ok(None)
      else if !opts.VDict? then Err("AttributeError")
      else Ok(Some((s, opts.entries)))
  }

  /** A name drawn from the options that avoids the recent names unless every option is recent. */
  predicate Picked(opts: map<string, Value>, recent: seq<string>, name: string)
  {
    name in opts && (name in recent ==> forall n :: n in opts ==> n in recent)
  }

  /** `random.choice(variants) if variants else None` over a scheme's `variants`. */
  predicate VariantDrawn(variants: Value, v: Option<Value>)
  {
    if !Truthy(variants) then v.None?
    else match variants
      case VList(items) => v.Some? && v.value in items
      case VStr(s) => v.Some? && exists i :: 0 <= i < |s| && v.value == VStr([s[i]])
      case _ => false
  }

  /** `random.choice` on a truthy mapping or number raises. */
  function VariantError(variants: Value): Option<string>
  {
    if !Truthy(variants) || variants.VList? || variants.VStr? then None
    else if variants.VDict? then Some("KeyError")
    else Some("TypeError")
  }

  function Variants(data: Value): Value
  {
    if data.VDict? then Get(data.entries, "variants", VList([])) else VNone
  }

  // ---------------------------------------------------------------------------
  // Recent names

  /** `record['sampled'][category].get(<name key>)`, "" standing for a missing entry or name. */
  function EntryName(r: YamlRecord, category: string): string
  {
    if category == "colors" && r.sampled.colors.Some? && r.sampled.colors.value.Scheme? then
      r.sampled.colors.value.schemeName
    else if category == "borders" && r.sampled.borders.Some? && r.sampled.borders.value.Border? then
      r.sampled.borders.value.borderName
    else if category == "decorations" && r.sampled.decorations.Some? && r.sampled.decorations.value.Decoration? then
      r.sampled.decorations.value.decorationName
    else ""
  }

  /** The name a record holds for a category, as a list of zero or one non-empty names. */
  function NameIn(r: YamlRecord, category: string): seq<string>
  {
    if EntryName(r, category) == "" then [] else [EntryName(r, category)]
  }

  /** Whether a record holds an entry (possibly `{}`) for the category. */
  predicate HasEntry(r: YamlRecord, category: string)
  {
    (category == "colors" && r.sampled.colors.Some?)
    || (category == "borders" && r.sampled.borders.Some?)
    || (category == "decorations" && r.sampled.decorations.Some?)
  }

  /** Each record's contribution, newest record first. */
  function NewestFirst<T>(h: seq<T>, f: T -> seq<string>): seq<string>
  {
    if h == [] then [] else f(h[|h| - 1]) + NewestFirst(h[..|h| - 1], f)
  }

  lemma {:induction false} NewestFirstSplit<T>(h: seq<T>, k: nat, f: T -> seq<string>)
    requires k <= |h|
    ensures NewestFirst(h, f) == NewestFirst(h[k..], f) + NewestFirst(h[..k], f)
    decreases |h|
  {
    if k == |h| {
      assert h[k..] == [] && h[..k] == h;
    } else {
      var init := h[..|h| - 1];
      NewestFirstSplit(init, k, f);
      assert init[..k] == h[..k];
      assert h[k..][..|h[k..]| - 1] == init[k..];
      assert h[k..][|h[k..]| - 1] == h[|h| - 1];
    }
  }

  function NameOf(category: string): YamlRecord -> seq<string>
  {
    r => NameIn(r, category)
  }

  /** The category's recorded names, newest first, repeats included. */
  function NamesNewest(h: seq<YamlRecord>, category: string): seq<string>
  {
    NewestFirst(h, NameOf(category))
  }

  lemma NamesNewestSplit(h: seq<YamlRecord>, k: nat, category: string)
    requires k <= |h|
    ensures NamesNewest(h, category) == NamesNewest(h[k..], category) + NamesNewest(h[..k], category)
  {
    NewestFirstSplit(h, k, NameOf(category));
  }

  /** One older record's name joins the end of the newest-first list. */
  lemma NamesNewestStep(h: seq<YamlRecord>, k: nat, category: string)
    requires k < |h|
    ensures NamesNewest(h[k..], category) == NamesNewest(h[k + 1..], category) + NameIn(h[k], category)
  {
    NamesNewestSplit(h[k..], 1, category);
    assert h[k..][1..] == h[k + 1..];
    assert h[k..][..1] == [h[k]];
    assert [h[k]][..0] == [];
    assert NamesNewest([h[k]], category) == NameOf(category)(h[k]) + NewestFirst([h[k]][..0], NameOf(category));
  }

  /** Appending a record's name to the scan: a new non-empty name joins the de-duplicated list. */
  lemma ScanName(seen: seq<string>, named: seq<string>, name: string)
    requires named == if name == "" then [] else [name]
    ensures Dedupe(seen + named) == Dedupe(seen) + (if name != "" && name !in Dedupe(seen) then [name] else [])
  {
    DedupeProps(seen);
    if name == "" {
      assert seen + named == seen;
    } else {
      DedupeSnoc(seen, name);
    }
  }

  /** Where the scan stops: at the oldest record, or once the window is full. */
  lemma ScanDone(h: seq<YamlRecord>, k: nat, category: string, n: nat, recent: seq<string>)
    requires k <= |h|
    requires recent == Dedupe(NamesNewest(h[k..], category))
    requires |recent| <= (if n == 0 then 1 else n)
    requires k == 0 || n == 0 || |recent| == n
    ensures recent <= Dedupe(NamesNewest(h, category))
    ensures n > 0 ==> recent == Take(Dedupe(NamesNewest(h, category)), n)
    ensures n == 0 ==> |recent| <= 1
  {
    NamesNewestSplit(h, k, category);
    DedupePrefix(NamesNewest(h[k..], category), NamesNewest(h[..k], category));
    if k == 0 {
      assert h[..0] == [] && h[0..] == h;
      assert NamesNewest(h, category) == NamesNewest(h[k..], category) + [];
    }
  }

  /** Growing a list only grows its de-duplication at the end. */
  lemma {:induction false} DedupePrefix<T>(a: seq<T>, b: seq<T>)
    ensures Dedupe(a) <= Dedupe(a + b)
  {
    if b == [] {
      assert a + b == a;
    } else {
      var init := b[..|b| - 1];
      DedupePrefix(a, init);
      assert a + b == (a + init) + [b[|b| - 1]];
      DedupeSnoc(a + init, b[|b| - 1]);
    }
  }

  /**
   * What `_get_recent_values` returns for a category: the newest n distinct names.
   * The scan's stop test comes after the first record holding the category, so a
   * window of 0 still reports that record's name.
   */
  function RecentNames(h: seq<YamlRecord>, category: string, n: nat): seq<string>
    requires n > 0
  {
    Take(Dedupe(NamesNewest(h, category)), n)
  }

  // ---------------------------------------------------------------------------
  // get_prompt_description

  /** `variant['name']` and `variant['hex']` written into the colour part. */
  function ColorPart(scheme: string, variant: Value, repr: Value -> string): Result<string>
  {
    match variant
    case VDict(m) =>
      if "name" in m && "hex" in m then
        Ok("Color palette: " + scheme + ", primary color " + Str(m["name"], repr) + " (" + Str(m["hex"], repr) + ")")
      else Err("KeyError")
    case _ => Err("TypeError")
  }

  /** The entry's fields as the dict lookups see them: `{}` has none. */
  function SchemeNameOf(s: Sample): string { if s.Scheme? then s.schemeName else "" }
  function VariantOf(s: Sample): Value { if s.Scheme? && s.selectedVariant.Some? then s.selectedVariant.value else VNone }
  function BorderNameOf(s: Sample): string { if s.Border? then s.borderName else "" }
  function BorderConfigOf(s: Sample): Value { if s.Border? then s.borderConfig else VDict(map[]) }
  function DecorationNameOf(s: Sample): string { if s.Decoration? then s.decorationName else "" }

  /** The radius of a border configuration; only a mapping has `.get`. */
  function Radius(config: Value): Result<Value>
  {
    if config.VDict? then Ok(Get(config.entries, "radius", VStr(""))) else Err("AttributeError")
  }

  /** The colour part, present when a truthy variant was picked. */
  function ColorParts(s: Sampled, repr: Value -> string): Result<seq<string>>
  {
    if s.colors.Some? && Truthy(VariantOf(s.colors.value)) then
      match ColorPart(SchemeNameOf(s.colors.value), VariantOf(s.colors.value), repr)
      case Err(e) => Err(e)
      case Ok(p) => Ok([p])
    else Ok([])
  }

  /** The border part, present when the border configuration's radius is truthy. */
  function BorderParts(s: Sampled, repr: Value -> string): Result<seq<string>>
  {
    if s.borders.Some? then
      match Radius(BorderConfigOf(s.borders.value))
      case Err(e) => Err(e)
      case Ok(radius) =>
        Ok(if Truthy(radius) then ["Border style: " + BorderNameOf(s.borders.value) + ", radius " + Str(radius, repr)] else [])
    else Ok([])
  }

  /** The decoration part, present whenever decorations were sampled. */
  function DecorationParts(s: Sampled): seq<string>
  {
    if s.decorations.Some? then ["Decorative elements: " + DecorationNameOf(s.decorations.value)] else []
  }

  /** The parts in colour, border, decoration order; a failed lookup raises. */
  function DescriptionParts(s: Sampled, repr: Value -> string): Result<seq<string>>
  {
    if ColorParts(s, repr).Err? then Err(ColorParts(s, repr).error)
    else if BorderParts(s, repr).Err? then Err(BorderParts(s, repr).error)
    else Ok(ColorParts(s, repr).value + BorderParts(s, repr).value + DecorationParts(s))
  }

  /**
   * At most three parts; the decoration part comes last whenever decorations were
   * sampled; a colour part leads exactly when a truthy variant was picked; with neither
   * colours nor borders sampled nothing can fail.
   */
  lemma DescriptionPartsProps(s: Sampled, repr: Value -> string)
    ensures var r := DescriptionParts(s, repr);
      r.Ok? ==> |r.value| <= 3
    ensures var r := DescriptionParts(s, repr);
      r.Ok? && s.decorations.Some? ==>
        r.value != [] && r.value[|r.value| - 1] == "Decorative elements: " + DecorationNameOf(s.decorations.value)
    ensures var r := DescriptionParts(s, repr);
      r.Ok? && (s.colors.None? || !Truthy(VariantOf(s.colors.value))) ==>
        forall k :: 0 <= k < |r.value| ==> !("Color palette: " <= r.value[k])
    ensures var r := DescriptionParts(s, repr);
      r.Ok? && s.colors.Some? && Truthy(VariantOf(s.colors.value)) ==>
        r.value != [] && "Color palette: " <= r.value[0]
    ensures s.colors.None? && s.borders.None? ==>
      DescriptionParts(s, repr) == Ok(DecorationParts(s))
  {
    var r := DescriptionParts(s, repr);
    if r.Ok? {
      var colored := s.colors.Some? && Truthy(VariantOf(s.colors.value));
      ColorPartsShape(s, repr);
      BorderPartsShape(s, repr);
      assert r.value == ColorParts(s, repr).value + BorderParts(s, repr).value + DecorationParts(s);
      PartsLayout(ColorParts(s, repr).value, BorderParts(s, repr).value, DecorationParts(s), colored,
                  if s.decorations.Some? then Some(DecorationNameOf(s.decorations.value)) else None);
    }
    if s.colors.None? && s.borders.None? {
      assert ColorParts(s, repr) == Ok([]) && BorderParts(s, repr) == Ok([]);
      assert [] + [] + DecorationParts(s) == DecorationParts(s);
    }
  }

  /** The colour part is one "Color palette: " line for a truthy variant, none otherwise. */
  lemma ColorPartsShape(s: Sampled, repr: Value -> string)
    ensures var c := ColorParts(s, repr);
      c.Ok? ==>
        (s.colors.Some? && Truthy(VariantOf(s.colors.value)) ==> |c.value| == 1 && "Color palette: " <= c.value[0])
        && (!(s.colors.Some? && Truthy(VariantOf(s.colors.value))) ==> c.value == [])
  {
  }

  /** The border part is at most one "Border style: " line. */
  lemma BorderPartsShape(s: Sampled, repr: Value -> string)
    ensures var b := BorderParts(s, repr);
      b.Ok? ==> |b.value| <= 1 && forall k :: 0 <= k < |b.value| ==> "Border style: " <= b.value[k]
  {
  }

  /** Colour, border and decoration lines, each at most one, told apart by their first letter. */
  lemma PartsLayout(c: seq<string>, b: seq<string>, d: seq<string>, colored: bool, deco: Option<string>)
    requires colored ==> |c| == 1 && "Color palette: " <= c[0]
    requires !colored ==> c == []
    requires |b| <= 1 && forall k :: 0 <= k < |b| ==> "Border style: " <= b[k]
    requires deco.Some? ==> d == ["Decorative elements: " + deco.value]
    requires deco.None? ==> d == []
    ensures |c + b + d| <= 3
    ensures deco.Some? ==> c + b + d != [] && (c + b + d)[|c + b + d| - 1] == "Decorative elements: " + deco.value
    ensures !colored ==> forall k :: 0 <= k < |c + b + d| ==> !("Color palette: " <= (c + b + d)[k])
    ensures colored ==> c + b + d != [] && "Color palette: " <= (c + b + d)[0]
  {
    var r := c + b + d;
    assert "Color palette: "[0] == 'C' && "Border style: "[0] == 'B' && "Decorative elements: "[0] == 'D';
    if !colored {
      forall k | 0 <= k < |r|
        ensures !("Color palette: " <= r[k])
      {
        if k < |b| {
          assert r[k] == b[k];
          assert r[k][0] == 'B';
        } else {
          assert r[k] == d[k - |b|];
          assert r[k][0] == 'D';
        }
      }
    } else {
      assert r[0] == c[0];
    }
  }

  /** The sample `get_prompt_description` receives before `join`. */
  method GetPromptDescription(s: Sampled, repr: Value -> string) returns (r: Result<string>)
    ensures DescriptionParts(s, repr).Err? ==> r == Err(DescriptionParts(s, repr).error)
    ensures DescriptionParts(s, repr).Ok? ==> r == Ok(Join(DescriptionParts(s, repr).value, ", "))
  {
    var parts: seq<string> := [];
    if s.colors.Some? {
      var variant := VariantOf(s.colors.value);
      if Truthy(variant) {
        var part := ColorPart(SchemeNameOf(s.colors.value), variant, repr);
        if part.Err? {
          return Err(part.error);
        }
        parts := parts + [part.value];
      }
    }
    assert parts == ColorParts(s, repr).value;
    if s.borders.Some? {
      var radius := Radius(BorderConfigOf(s.borders.value));
      if radius.Err? {
        return Err(radius.error);
      }
      if Truthy(radius.value) {
        parts := parts + ["Border style: " + BorderNameOf(s.borders.value) + ", radius " + Str(radius.value, repr)];
      }
    }
    assert BorderParts(s, repr).Ok? && parts == ColorParts(s, repr).value + BorderParts(s, repr).value;
    if s.decorations.Some? {
      parts := parts + ["Decorative elements: " + DecorationNameOf(s.decorations.value)];
    }
    assert parts == ColorParts(s, repr).value + BorderParts(s, repr).value + DecorationParts(s);
    assert DescriptionParts(s, repr) == Ok(parts);
    r := Ok(Join(parts, ", "));
  }

  // ---------------------------------------------------------------------------
  // The sampler

  /** Which categories a call samples: the requested ones whose table is non-empty. */
  predicate Requested(types: Option<seq<string>>, category: string)
  {
    types.None? || category in types.value
  }

  /** A category is sampled when it is requested and its table is non-empty. */
  predicate Samples(types: Option<seq<string>>, category: string, t: Table)
  {
    Requested(types, category) && t != []
  }

  /** The colour step cannot raise: its options resolve and no main scheme has variants `random.choice` rejects. */
  predicate ColorsSafe(t: Table, style: Value)
  {
    ColorOptions(t, style).Ok?
    && (ColorOptions(t, style).value.Some? ==>
          forall n :: n in ColorOptions(t, style).value.value.1 ==>
            VariantError(Variants(ColorOptions(t, style).value.value.1[n])).None?)
  }

  /** The colour step may raise `e`: its options fail with it, or a pickable scheme's variants do. */
  ghost predicate ColorsRaise(t: Table, style: Value, recent: seq<string>, e: string)
  {
    ColorOptions(t, style) == Err(e)
    || (ColorOptions(t, style).Ok? && ColorOptions(t, style).value.Some?
        && exists n :: Picked(ColorOptions(t, style).value.value.1, recent, n)
                       && VariantError(Variants(ColorOptions(t, style).value.value.1[n])) == Some(e))
  }

  /** A colour pick as `_sample_colors` makes it: `{}` without options, else a main scheme with its data and a variant. */
  predicate ColorPick(t: Table, style: Value, recent: seq<string>, c: Sample)
  {
    (ColorOptions(t, style) == Ok(None) ==> c == Empty)
    && (ColorOptions(t, style).Ok? && ColorOptions(t, style).value.Some? ==>
          var (s, main) := ColorOptions(t, style).value.value;
          c.Scheme? && c.style == s && Picked(main, recent, c.schemeName)
          && c.schemeData == main[c.schemeName]
          && VariantDrawn(Variants(c.schemeData), c.selectedVariant))
  }

  /** A border pick: `{}` without options, else a border of the resolved style with its configuration. */
  predicate BorderPick(t: Table, style: Value, recent: seq<string>, b: Sample)
  {
    (KeyedOptions(t, style) == Ok(None) ==> b == Empty)
    && (KeyedOptions(t, style).Ok? && KeyedOptions(t, style).value.Some? ==>
          var (s, opts) := KeyedOptions(t, style).value.value;
          b.Border? && b.style == s && Picked(opts, recent, b.borderName) && b.borderConfig == opts[b.borderName])
  }

  /** A decoration pick: `{}` without options, else a decoration of the resolved style with its configuration. */
  predicate DecorationPick(t: Table, style: Value, recent: seq<string>, d: Sample)
  {
    (KeyedOptions(t, style) == Ok(None) ==> d == Empty)
    && (KeyedOptions(t, style).Ok? && KeyedOptions(t, style).value.Some? ==>
          var (s, opts) := KeyedOptions(t, style).value.value;
          d.Decoration? && d.style == s && Picked(opts, recent, d.decorationName)
          && d.decorationConfig == opts[d.decorationName])
  }

  /** No sampled type can raise: the colour step is safe and the border and decoration options resolve. */
  predicate SamplingSafe(colors: Table, borders: Table, decorations: Table, types: Option<seq<string>>, style: Value)
  {
    (Samples(types, "colors", colors) ==> ColorsSafe(colors, style))
    && (Samples(types, "borders", borders) ==> KeyedOptions(borders, style).Ok?)
    && (Samples(types, "decorations", decorations) ==> KeyedOptions(decorations, style).Ok?)
  }

  /** Some sampled type may raise `e` against the given history. */
  ghost predicate SamplingRaises(colors: Table, borders: Table, decorations: Table, types: Option<seq<string>>,
                                 style: Value, history: seq<YamlRecord>, e: string)
  {
    (Samples(types, "colors", colors) && ColorsRaise(colors, style, RecentNames(history, "colors", 2), e))
    || (Samples(types, "borders", borders) && KeyedOptions(borders, style) == Err(e))
    || (Samples(types, "decorations", decorations) && KeyedOptions(decorations, style) == Err(e))
  }

  class YamlVariableSampler {
    const colors: Table
    const borders: Table
    const decorations: Table
    var history: seq<YamlRecord>

    constructor (colors: Table, borders: Table, decorations: Table)
      ensures this.colors == colors && this.borders == borders && this.decorations == decorations
      ensures history == []
    {
      this.colors := colors;
      this.borders := borders;
      this.decorations := decorations;
      history := [];
    }

    /** `_get_recent_values`: distinct non-empty names, newest first, stopping once n are found. */
    method GetRecentValues(category: string, n: nat) returns (recent: seq<string>)
      ensures recent <= Dedupe(NamesNewest(history, category))
      ensures n > 0 ==> recent == RecentNames(history, category, n)
      ensures n == 0 ==> |recent| <= 1
    {
      ghost var limit := if n == 0 then 1 else n;
      recent := [];
      var k := |history|;
      while k > 0
        invariant 0 <= k <= |history|
        invariant recent == Dedupe(NamesNewest(history[k..], category))
        invariant |recent| < limit
      {
        k := k - 1;
        var record := history[k];
        NamesNewestStep(history, k, category);
        if HasEntry(record, category) {
          var name := EntryName(record, category);
          ScanName(NamesNewest(history[k + 1..], category), NameIn(record, category), name);
          if name != "" && name !in recent {
            recent := recent + [name];
          }
          if |recent| >= n {
            break;
          }
        } else {
          assert NamesNewest(history[k + 1..], category) + NameIn(record, category) == NamesNewest(history[k + 1..], category);
        }
      }
      ScanDone(history, k, category, n, recent);
    }

    /** `_sample_colors`. */
    method SampleColors(style: Value) returns (r: Result<Sample>)
      ensures ColorOptions(colors, style).Err? ==> r == Err(ColorOptions(colors, style).error)
      ensures ColorOptions(colors, style) == Ok(None) ==> r == Ok(Empty)
      ensures ColorOptions(colors, style).Ok? && ColorOptions(colors, style).value.Some? ==>
        var (s, main) := ColorOptions(colors, style).value.value;
        (r.Ok? ==>
          r.value.Scheme? && r.value.style == s
          && Picked(main, RecentNames(history, "colors", 2), r.value.schemeName)
          && r.value.schemeData == main[r.value.schemeName]
          && VariantDrawn(Variants(r.value.schemeData), r.value.selectedVariant))
        && (r.Err? ==> exists name :: Picked(main, RecentNames(history, "colors", 2), name)
                         && VariantError(Variants(main[name])) == Some(r.error))
      ensures r.Ok? ==> ColorPick(colors, style, RecentNames(history, "colors", 2), r.value)
      ensures r.Err? ==> ColorsRaise(colors, style, RecentNames(history, "colors", 2), r.error)
      ensures ColorsSafe(colors, style) ==> r.Ok?
    {
      var options := ColorOptions(colors, style);
      if options.Err? {
        return Err(options.error);
      }
      if options.value.None? {
        return Ok(Empty);
      }
      var (s, main) := options.value.value;
      var recent := GetRecentValues("colors", 2);
      var name := PickName(main, recent);
      var data := main[name];
      var variants := Variants(data);
      var variant: Option<Value>;
      if !Truthy(variants) {
        variant := None;
      } else if variants.VList? {
        assert variants.items[0] in variants.items;
        var v :| v in variants.items;
        variant := Some(v);
      } else if variants.VStr? {
        var i :| 0 <= i < |variants.s|;
        variant := Some(VStr([variants.s[i]]));
      } else {
        return Err(VariantError(variants).value);
      }
      r := Ok(Scheme(name, data, variant, s));
    }

    /** `_sample_borders` and `_sample_decorations` share this shape. */
    method SampleKeyed(t: Table, category: string, style: Value) returns (r: Result<(string, Value, string)>, picked: bool)
      ensures KeyedOptions(t, style).Err? ==> r == Err(KeyedOptions(t, style).error)
      ensures KeyedOptions(t, style) == Ok(None) ==> r.Ok? && !picked
      ensures KeyedOptions(t, style).Ok? && KeyedOptions(t, style).value.Some? ==>
        var (s, opts) := KeyedOptions(t, style).value.value;
        r.Ok? && picked && r.value.2 == s
        && Picked(opts, RecentNames(history, category, 2), r.value.0)
        && r.value.1 == opts[r.value.0]
    {
      picked := false;
      var options := KeyedOptions(t, style);
      if options.Err? {
        return Err(options.error), false;
      }
      if options.value.None? {
        return Ok(("", VNone, "")), false;
      }
      var (s, opts) := options.value.value;
      assert opts != map[] by {
        var v := Lookup(t, s);
        assert Truthy(v) && v.VDict?;
      }
      var recent := GetRecentValues(category, 2);
      var name := PickName(opts, recent);
      return Ok((name, opts[name], s)), true;
    }

    /** `_sample_borders`: the border pick of the resolved style, or the error its options raise. */
    method SampleBorders(style: Value) returns (r: Result<Sample>)
      ensures KeyedOptions(borders, style).Err? ==> r == Err(KeyedOptions(borders, style).error)
      ensures KeyedOptions(borders, style).Ok? ==> r.Ok? && BorderPick(borders, style, RecentNames(history, "borders", 2), r.value)
    {
      var sample, picked := SampleKeyed(borders, "borders", style);
      if sample.Err? {
        return Err(sample.error);
      }
      r := Ok(if picked then Border(sample.value.0, sample.value.1, sample.value.2) else Empty);
    }

    /** `_sample_decorations`: the decoration pick of the resolved style, or the error its options raise. */
    method SampleDecorations(style: Value) returns (r: Result<Sample>)
      ensures KeyedOptions(decorations, style).Err? ==> r == Err(KeyedOptions(decorations, style).error)
      ensures KeyedOptions(decorations, style).Ok? ==>
        r.Ok? && DecorationPick(decorations, style, RecentNames(history, "decorations", 2), r.value)
    {
      var sample, picked := SampleKeyed(decorations, "decorations", style);
      if sample.Err? {
        return Err(sample.error);
      }
      r := Ok(if picked then Decoration(sample.value.0, sample.value.1, sample.value.2) else Empty);
    }

    /**
     * `sample_variables`: each requested category with a non-empty table is sampled
     * against the history as it stood before the call, and exactly one record is
     * appended, the history keeping its newest 100 records. A raised error leaves the
     * history as it was.
     */
    method SampleVariables(style: Value, types: Option<seq<string>>) returns (r: Result<Sampled>)
      modifies this
      ensures r.Ok? ==>
        (r.value.colors.Some? <==> Requested(types, "colors") && colors != [])
        && (r.value.borders.Some? <==> Requested(types, "borders") && borders != [])
        && (r.value.decorations.Some? <==> Requested(types, "decorations") && decorations != [])
      ensures r.Ok? ==> history == LastN(old(history) + [YamlRecord(style, r.value)], MaxHistory)
      ensures r.Err? ==> history == old(history)
      ensures r.Ok? && r.value.colors.Some? ==>
        ColorPick(colors, style, RecentNames(old(history), "colors", 2), r.value.colors.value)
      ensures r.Ok? && r.value.borders.Some? ==>
        BorderPick(borders, style, RecentNames(old(history), "borders", 2), r.value.borders.value)
      ensures r.Ok? && r.value.decorations.Some? ==>
        DecorationPick(decorations, style, RecentNames(old(history), "decorations", 2), r.value.decorations.value)
      // The failures, in the order the types are sampled.
      ensures Samples(types, "colors", colors) && ColorOptions(colors, style).Err? ==>
        r == Err(ColorOptions(colors, style).error)
      ensures ((Samples(types, "colors", colors) ==> ColorsSafe(colors, style))
               && Samples(types, "borders", borders) && KeyedOptions(borders, style).Err?) ==>
        r == Err(KeyedOptions(borders, style).error)
      ensures ((Samples(types, "colors", colors) ==> ColorsSafe(colors, style))
               && (Samples(types, "borders", borders) ==> KeyedOptions(borders, style).Ok?)
               && Samples(types, "decorations", decorations) && KeyedOptions(decorations, style).Err?) ==>
        r == Err(KeyedOptions(decorations, style).error)
      ensures SamplingSafe(colors, borders, decorations, types, style) ==> r.Ok?
      ensures r.Err? ==> SamplingRaises(colors, borders, decorations, types, style, old(history), r.error)
    {
      r := SampleTypes(style, types);
      if r.Ok? {
        AddRecord(YamlRecord(style, r.value));
      }
    }

    /** The sampling part of `sample_variables`, against the current history, which it leaves alone. */
    method SampleTypes(style: Value, types: Option<seq<string>>) returns (r: Result<Sampled>)
      ensures r.Ok? ==>
        (r.value.colors.Some? <==> Requested(types, "colors") && colors != [])
        && (r.value.borders.Some? <==> Requested(types, "borders") && borders != [])
        && (r.value.decorations.Some? <==> Requested(types, "decorations") && decorations != [])
      ensures r.Ok? && r.value.colors.Some? ==>
        ColorPick(colors, style, RecentNames(history, "colors", 2), r.value.colors.value)
      ensures r.Ok? && r.value.borders.Some? ==>
        BorderPick(borders, style, RecentNames(history, "borders", 2), r.value.borders.value)
      ensures r.Ok? && r.value.decorations.Some? ==>
        DecorationPick(decorations, style, RecentNames(history, "decorations", 2), r.value.decorations.value)
      // The failures, in the order the types are sampled.
      ensures Samples(types, "colors", colors) && ColorOptions(colors, style).Err? ==>
        r == Err(ColorOptions(colors, style).error)
      ensures ((Samples(types, "colors", colors) ==> ColorsSafe(colors, style))
               && Samples(types, "borders", borders) && KeyedOptions(borders, style).Err?) ==>
        r == Err(KeyedOptions(borders, style).error)
      ensures ((Samples(types, "colors", colors) ==> ColorsSafe(colors, style))
               && (Samples(types, "borders", borders) ==> KeyedOptions(borders, style).Ok?)
               && Samples(types, "decorations", decorations) && KeyedOptions(decorations, style).Err?) ==>
        r == Err(KeyedOptions(decorations, style).error)
      ensures SamplingSafe(colors, borders, decorations, types, style) ==> r.Ok?
      ensures r.Err? ==> SamplingRaises(colors, borders, decorations, types, style, history, r.error)
    {
      r := Ok(Sampled(None, None, None));
      if Samples(types, "colors", colors) {
        var sample := SampleColors(style);
        r := if sample.Err? then Err(sample.error) else Ok(Sampled(Some(sample.value), None, None));
      }
      if r.Ok? && Samples(types, "borders", borders) {
        var sample := SampleBorders(style);
        r := if sample.Err? then Err(sample.error) else Ok(r.value.(borders := Some(sample.value)));
      }
      if r.Ok? && Samples(types, "decorations", decorations) {
        var sample := SampleDecorations(style);
        r := if sample.Err? then Err(sample.error) else Ok(r.value.(decorations := Some(sample.value)));
      }
    }

    /** Appends one record, keeping the newest 100. */
    method AddRecord(record: YamlRecord)
      modifies this
      ensures history == LastN(old(history) + [record], MaxHistory)
    {
      history := history + [record];
      if |history| > MaxHistory {
        history := history[|history| - MaxHistory..];
      }
    }
  }

  /** `random.choice(available)`, the available names being those not recent, or all when every one is. */
  method PickName(opts: map<string, Value>, recent: seq<string>) returns (name: string)
    requires opts != map[]
    ensures Picked(opts, recent, name)
  {
    var available := set n | n in opts && n !in recent;
    assert forall n :: n in opts && n !in recent ==> n in available;
    if available == {} {
      available := opts.Keys;
    }
    assert available != {} by {
      var n :| n in opts;
      assert n in opts.Keys;
    }
    name :| name in available;
  }

  /**
   * A pick made while some option is not recent is none of the recent names; in
   * particular it differs from the newest recorded name, so with an option outside the
   * window a category never repeats its previous pick.
   */
  lemma PickAvoidsNewest(opts: map<string, Value>, h: seq<YamlRecord>, category: string, name: string)
    requires Picked(opts, RecentNames(h, category, 2), name)
    requires exists n :: n in opts && n !in RecentNames(h, category, 2)
    ensures name !in RecentNames(h, category, 2)
    ensures NamesNewest(h, category) != [] ==> name != NamesNewest(h, category)[0]
  {
    var names := NamesNewest(h, category);
    if names != [] {
      assert Dedupe([names[0]]) == [names[0]] by {
        DedupeSnoc([], names[0]);
        assert [] + [names[0]] == [names[0]];
      }
      DedupePrefix([names[0]], names[1..]);
      assert [names[0]] + names[1..] == names;
      assert RecentNames(h, category, 2)[0] == names[0];
    }
  }

  /**
   * With exactly two options both inside the window the whole table is available again,
   * so the previous pick may be repeated.
   */
  lemma RepeatWithTwoOptions(a: string, b: string, v: Value)
    requires a != b
    ensures Picked(map[a := v, b := v], [b, a], b)
  {
  }
}
