/**
 * Prompt composition: turning the chosen elements into one comma-separated prompt,
 * dropping fragments that repeat a concept (through a synonym table) or mention a
 * blacklisted word; the plain template join; and the running quality average kept
 * per element.
 */
module Composer {
  import opened Wrappers
  import opened Text
  import opened Seqs
  import opened ElementLookup
  import opened Sorting

  /**
   * The representative of a lowercased phrase in the synonym table, or the phrase
   * itself when no group lists it.
   */
  function ConceptOf(lower: string): string
  {
    match lower
    case "woman" | "female" | "lady" | "girl" => "woman"
    case "man" | "male" | "gentleman" | "boy" => "man"
    case "young" | "youthful" | "young adult" => "young"
    case "fair" | "pale" | "light" => "fair"
    case "east asian" | "chinese" | "japanese" | "korean" => "East Asian"
    case "eyes" | "eye" | "large expressive eyes" | "almond eyes" => "eyes"
    case "hair" | "hairs" | "black hair" => "hair"
    case "skin" | "fair skin" | "pale skin" | "realistic skin texture" => "skin"
    case "face" | "oval face" => "face"
    case "ponytail with bangs" | "straight bangs ponytail" | "ponytail and fringe" | "ponytail" => "ponytail"
    case "creamy bokeh" | "cinematic bokeh" | "smooth bokeh" | "bokeh" => "bokeh"
    case "dramatic shadows" | "dramatic lighting" | "dramatic" => "dramatic"
    case "rim light" | "edge lighting" | "backlight" | "rim lighting" => "rim light"
    case "innocent gaze" | "gentle smile" | "soft introspective" | "gaze" => "gaze"
    case "relaxed" | "casual stance" | "natural pose" | "pose" => "pose"
    case _ => lower
  }

  /** Words that mark a fragment as unrelated to a portrait. */
  const Blacklist: set<string> :=
    {"bottle", "highlighting", "condensa", "elements", "surroundings",
     "practical", "string", "lanterns", "vintage lamps", "accent lights"}

  predicate Blacklisted(lower: string)
  {
    exists b :: b in Blacklist && Contains(lower, b)
  }

  /** Python's `s[:n]`, including a negative `n` counted from the end. */
  function SliceTo<T>(s: seq<T>, n: int): (r: seq<T>)
    ensures r <= s
    ensures n >= 0 ==> |r| == if n < |s| then n else |s|
    ensures n < 0 ==> |r| == if |s| + n > 0 then |s| + n else 0
  {
    if n >= 0 then Take(s, n)
    else if |s| + n > 0 then s[..|s| + n] else []
  }

  /** The fragment a keyword contributes before the concept check, if it survives the filters. */
  function KeywordFragment(kw: string): (r: Option<string>)
    ensures r.Some? ==> r.value == Strip(kw) && r.value != [] && !Blacklisted(Lower(r.value))
    ensures r.Some? && |Words(r.value)| == 1 ==> |r.value| >= 4
  {
    var stripped := Strip(kw);
    if stripped == [] then None
    else if Blacklisted(Lower(stripped)) then None
    else if |Words(stripped)| == 1 && (|stripped| < 4 || Lower(stripped) in Blacklist) then None
    else Some(stripped)
  }

  /** The fragment a template contributes before the concept check: no short-word filter here. */
  function TemplateFragment(text: string): (r: Option<string>)
    ensures r.Some? ==> r.value == Strip(text) && r.value != [] && !Blacklisted(Lower(r.value))
  {
    var stripped := Strip(text);
    if stripped == [] || Blacklisted(Lower(stripped)) then None else Some(stripped)
  }

  /** A Python local that may not have been assigned yet. */
  datatype Binding<T> = Unbound | Bound(v: T)

  /**
   * The loop state of `compose_prompt`: the two locals `text` and `text_list`, which
   * keep their values from one element to the next, the fragments so far and the
   * concepts they cover.
   */
  datatype ComposeState = ComposeState(
    text: Binding<string>,
    textList: Binding<Option<seq<string>>>,
    fragments: seq<string>,
    seen: set<string>)

  const InitialState := ComposeState(Unbound, Unbound, [], {})

  /** Adds the fragment unless its concept was already used. */
  function AddFragment(st: ComposeState, fragment: Option<string>): ComposeState
  {
    if fragment.None? || ConceptOf(Lower(fragment.value)) in st.seen then st
    else st.(fragments := st.fragments + [fragment.value], seen := st.seen + {ConceptOf(Lower(fragment.value))})
  }

  function AddKeywords(st: ComposeState, kws: seq<string>): ComposeState
    decreases |kws|
  {
    if kws == [] then st else AddKeywords(AddFragment(st, KeywordFragment(kws[0])), kws[1..])
  }

  /** The text-selection `if` chain for one element. */
  function Select(st: ComposeState, e: Element, mode: string, limit: int): ComposeState
  {
    if mode == "simple" then st.(text := Bound(e.template))
    else if mode == "detailed" && e.keywords.Some? && |e.keywords.value| > 0 then
      st.(textList := Bound(Some(SliceTo(e.keywords.value, limit))))
    else if mode == "auto" && e.keywords.Some? && |e.keywords.value| > 2 then
      st.(textList := Bound(Some(SliceTo(e.keywords.value, limit))))
    else st.(text := Bound(e.template), textList := Bound(None))
  }

  /** One element: a non-empty keyword list is used keyword by keyword, otherwise `text` is. */
  function ComposeStep(st: ComposeState, e: Element, mode: string, limit: int): Result<ComposeState>
  {
    var s := Select(st, e, mode, limit);
    if s.textList.Unbound? then Err("UnboundLocalError: text_list")
    else if s.textList.v.Some? && s.textList.v.value != [] then Ok(AddKeywords(s, s.textList.v.value))
    else if s.text.Unbound? then Err("UnboundLocalError: text")
    else Ok(AddFragment(s, TemplateFragment(s.text.v)))
  }

  function ComposeFrom(st: ComposeState, elements: seq<Element>, mode: string, limit: int): Result<ComposeState>
    decreases |elements|
  {
    if elements == [] then Ok(st)
    else
      match ComposeStep(st, elements[0], mode, limit)
      case Err(e) => Err(e)
      case Ok(next) => ComposeFrom(next, elements[1..], mode, limit)
  }

  /** What `compose_prompt` returns, or the error it raises. */
  function Compose(elements: seq<Element>, mode: string, limit: int): Result<string>
  {
    match ComposeFrom(InitialState, elements, mode, limit)
    case Err(e) => Err(e)
    case Ok(st) => Ok(Join(st.fragments, ", "))
  }

  /** The keyword loop of `compose_prompt`. */
  method AddKeywordFragments(fragments: seq<string>, seen: set<string>, kws: seq<string>)
    returns (fragmentsOut: seq<string>, seenOut: set<string>)
    ensures forall st: ComposeState :: st.fragments == fragments && st.seen == seen ==>
      AddKeywords(st, kws) == st.(fragments := fragmentsOut, seen := seenOut)
  {
    fragmentsOut, seenOut := fragments, seen;
    var j := 0;
    while j < |kws|
      invariant 0 <= j <= |kws|
      invariant forall st: ComposeState :: st.fragments == fragments && st.seen == seen ==>
        AddKeywords(st, kws) == AddKeywords(st.(fragments := fragmentsOut, seen := seenOut), kws[j..])
    {
      assert kws[j..][1..] == kws[j + 1..];
      var kw := kws[j];
      if kw != [] && Strip(kw) != [] {
        var stripped := Strip(kw);
        var lower := Lower(stripped);
        if !Blacklisted(lower) {
          var words := Words(stripped);
          if !(|words| == 1 && (|stripped| < 4 || lower in Blacklist)) {
            var concept := ConceptOf(lower);
            if concept !in seenOut {
              fragmentsOut := fragmentsOut + [stripped];
              seenOut := seenOut + {concept};
            }
          }
        }
      }
      j := j + 1;
    }
    assert kws[j..] == [];
  }

  /** `compose_prompt(elements, mode, keywords_limit)` */
  method ComposePrompt(elements: seq<Element>, mode: string, limit: int) returns (r: Result<string>)
    ensures r == Compose(elements, mode, limit)
  {
    var text: Binding<string> := Unbound;
    var textList: Binding<Option<seq<string>>> := Unbound;
    var fragments: seq<string> := [];
    var seen: set<string> := {};
    var i := 0;
    while i < |elements|
      invariant 0 <= i <= |elements|
      invariant ComposeFrom(InitialState, elements, mode, limit)
        == ComposeFrom(ComposeState(text, textList, fragments, seen), elements[i..], mode, limit)
    {
      assert elements[i..][1..] == elements[i + 1..];
      ghost var before := ComposeState(text, textList, fragments, seen);
      var e := elements[i];
      if mode == "simple" {
        text := Bound(e.template);
      } else if mode == "detailed" && e.keywords.Some? && |e.keywords.value| > 0 {
        textList := Bound(Some(SliceTo(e.keywords.value, limit)));
      } else if mode == "auto" && e.keywords.Some? && |e.keywords.value| > 2 {
        textList := Bound(Some(SliceTo(e.keywords.value, limit)));
      } else {
        text := Bound(e.template);
        textList := Bound(None);
      }
      assert Select(before, e, mode, limit) == ComposeState(text, textList, fragments, seen);
      if textList.Unbound? {
        return Err("UnboundLocalError: text_list");
      }
      if textList.v.Some? && textList.v.value != [] {
        fragments, seen := AddKeywordFragments(fragments, seen, textList.v.value);
      } else {
        if text.Unbound? {
          return Err("UnboundLocalError: text");
        }
        var stripped := Strip(text.v);
        if text.v != [] && stripped != [] {
          var lower := Lower(stripped);
          if !Blacklisted(lower) {
            var concept := ConceptOf(lower);
            if concept !in seen {
              fragments := fragments + [stripped];
              seen := seen + {concept};
            }
          }
        }
      }
      i := i + 1;
    }
    assert elements[i..] == [];
    r := Ok(Join(fragments, ", "));
  }

  /** The concept a fragment stands for. */
  function Concept(fragment: string): string
  {
    ConceptOf(Lower(fragment))
  }

  /** The concepts of the fragments. */
  function ConceptSet(fragments: seq<string>): set<string>
  {
    KeySet(fragments, Concept)
  }

  lemma ConceptSetMembers(fragments: seq<string>)
    ensures forall i :: 0 <= i < |fragments| ==> Concept(fragments[i]) in ConceptSet(fragments)
    ensures forall c :: c in ConceptSet(fragments) ==> exists i :: 0 <= i < |fragments| && Concept(fragments[i]) == c
  {
    forall c | c in ConceptSet(fragments)
      ensures exists i :: 0 <= i < |fragments| && Concept(fragments[i]) == c
    {
      var f :| f in fragments && Concept(f) == c;
      var i :| 0 <= i < |fragments| && fragments[i] == f;
    }
  }

  /** The fragment invariant: concepts recorded exactly, pairwise distinct, nothing blacklisted. */
  ghost predicate Clean(st: ComposeState)
  {
    st.seen == ConceptSet(st.fragments)
    && (forall i, j :: 0 <= i < j < |st.fragments| ==> Concept(st.fragments[i]) != Concept(st.fragments[j]))
    && (forall i :: 0 <= i < |st.fragments| ==> st.fragments[i] != [] && !Blacklisted(Lower(st.fragments[i])))
  }

  lemma AddFragmentClean(st: ComposeState, fragment: Option<string>)
    requires Clean(st)
    requires fragment.Some? ==> fragment.value != [] && !Blacklisted(Lower(fragment.value))
    ensures Clean(AddFragment(st, fragment))
    ensures IsPrefix(st.fragments, AddFragment(st, fragment).fragments)
  {
    var next := AddFragment(st, fragment);
    if fragment.Some? && Concept(fragment.value) !in st.seen {
      var n := |st.fragments|;
      assert next.fragments == st.fragments + [fragment.value];
      assert next.fragments[..n] == st.fragments;
      ConceptSetMembers(st.fragments);
    }
  }

  predicate IsPrefix<T(==)>(a: seq<T>, b: seq<T>)
  {
    |a| <= |b| && a == b[..|a|]
  }

  lemma {:induction false} AddKeywordsClean(st: ComposeState, kws: seq<string>)
    requires Clean(st)
    ensures Clean(AddKeywords(st, kws))
    ensures IsPrefix(st.fragments, AddKeywords(st, kws).fragments)
    ensures AddKeywords(st, kws).text == st.text && AddKeywords(st, kws).textList == st.textList
    decreases |kws|
  {
    if kws != [] {
      var next := AddFragment(st, KeywordFragment(kws[0]));
      AddFragmentClean(st, KeywordFragment(kws[0]));
      AddKeywordsClean(next, kws[1..]);
      PrefixTrans(st.fragments, next.fragments, AddKeywords(next, kws[1..]).fragments);
    }
  }

  lemma {:induction false} ComposeFromClean(st: ComposeState, elements: seq<Element>, mode: string, limit: int)
    requires Clean(st)
    requires ComposeFrom(st, elements, mode, limit).Ok?
    ensures Clean(ComposeFrom(st, elements, mode, limit).value)
    ensures IsPrefix(st.fragments, ComposeFrom(st, elements, mode, limit).value.fragments)
    decreases |elements|
  {
    if elements != [] {
      var next := ComposeStep(st, elements[0], mode, limit).value;
      ComposeStepClean(st, elements[0], mode, limit);
      ComposeFromClean(next, elements[1..], mode, limit);
      PrefixTrans(st.fragments, next.fragments, ComposeFrom(next, elements[1..], mode, limit).value.fragments);
    }
  }

  /** One element keeps the state clean and only appends fragments. */
  lemma ComposeStepClean(st: ComposeState, e: Element, mode: string, limit: int)
    requires Clean(st)
    requires ComposeStep(st, e, mode, limit).Ok?
    ensures Clean(ComposeStep(st, e, mode, limit).value)
    ensures IsPrefix(st.fragments, ComposeStep(st, e, mode, limit).value.fragments)
  {
    var s := Select(st, e, mode, limit);
    assert Clean(s);
    if s.textList.v.Some? && s.textList.v.value != [] {
      AddKeywordsClean(s, s.textList.v.value);
    } else {
      AddFragmentClean(s, TemplateFragment(s.text.v));
    }
  }

  lemma PrefixTrans<T>(a: seq<T>, b: seq<T>, c: seq<T>)
    requires IsPrefix(a, b) && IsPrefix(b, c)
    ensures IsPrefix(a, c)
  {
    assert c[..|b|][..|a|] == c[..|a|];
  }

  /**
   * A composed prompt is its fragments joined by ", ": the offered fragments with
   * every repeated concept dropped; no two share a concept, none is empty and none
   * contains a blacklisted word. It fails exactly where a local is read unbound.
   */
  lemma ComposeClean(elements: seq<Element>, mode: string, limit: int)
    ensures Compose(elements, mode, limit).Ok? <==> Offered(Unbound, Unbound, elements, mode, limit).Ok?
    ensures Compose(elements, mode, limit).Ok? ==>
      var st := ComposeFrom(InitialState, elements, mode, limit).value;
      Compose(elements, mode, limit).value == Join(st.fragments, ", ")
      && st.fragments == KeepNew(Offered(Unbound, Unbound, elements, mode, limit).value, {})
      && (forall i, j :: 0 <= i < j < |st.fragments| ==> ConceptOf(Lower(st.fragments[i])) != ConceptOf(Lower(st.fragments[j])))
      && (forall i :: 0 <= i < |st.fragments| ==> st.fragments[i] != [] && !Blacklisted(Lower(st.fragments[i])))
  {
    ComposeFromOffered(InitialState, elements, mode, limit);
    if Compose(elements, mode, limit).Ok? {
      ComposeFromClean(InitialState, elements, mode, limit);
    }
  }

  // ---------------------------------------------------------------------------
  // What compose_prompt keeps: the offered fragments, first of each concept

  function OptSeq(f: Option<string>): seq<string>
  {
    if f.None? then [] else [f.value]
  }

  /** The fragments a keyword list offers, in order: those that survive the empty, blacklist and short-word filters. */
  function KeywordOffers(kws: seq<string>): seq<string>
  {
    if kws == [] then [] else OptSeq(KeywordFragment(kws[0])) + KeywordOffers(kws[1..])
  }

  /**
   * The fragments the elements offer, in element order, from the given `text` and
   * `text_list` bindings on; the error `compose_prompt` raises on an unbound local.
   */
  function Offered(text: Binding<string>, textList: Binding<Option<seq<string>>>, elements: seq<Element>, mode: string, limit: int): Result<seq<string>>
    decreases |elements|
  {
    if elements == [] then Ok([])
    else
      var s := Select(ComposeState(text, textList, [], {}), elements[0], mode, limit);
      if s.textList.Unbound? then Err("UnboundLocalError: text_list")
      else
        var useList := s.textList.v.Some? && s.textList.v.value != [];
        if !useList && s.text.Unbound? then Err("UnboundLocalError: text")
        else
          var here := if useList then KeywordOffers(s.textList.v.value) else OptSeq(TemplateFragment(s.text.v));
          match Offered(s.text, s.textList, elements[1..], mode, limit)
          case Err(e) => Err(e)
          case Ok(rest) => Ok(here + rest)
  }

  /** `f` is what the element's template or one of its keywords strips to. */
  predicate FromElement(e: Element, f: string)
  {
    f == Strip(e.template) || (e.keywords.Some? && exists kw :: kw in e.keywords.value && f == Strip(kw))
  }

  lemma {:induction false} KeywordOffersFrom(kws: seq<string>)
    ensures forall f :: f in KeywordOffers(kws) ==> f != [] && !Blacklisted(Lower(f)) && exists kw :: kw in kws && f == Strip(kw)
    decreases |kws|
  {
    if kws != [] {
      KeywordOffersFrom(kws[1..]);
      forall f | f in KeywordOffers(kws)
        ensures f != [] && !Blacklisted(Lower(f)) && exists kw :: kw in kws && f == Strip(kw)
      {
        if f in OptSeq(KeywordFragment(kws[0])) {
          assert kws[0] in kws;
        } else {
          assert f in KeywordOffers(kws[1..]);
          var kw :| kw in kws[1..] && f == Strip(kw);
          assert kw in kws;
        }
      }
    }
  }

  /** `f` is what the `text` or one of the `text_list` keywords bound on entry strips to. */
  predicate FromBindings(text: Binding<string>, textList: Binding<Option<seq<string>>>, f: string)
  {
    (text.Bound? && f == Strip(text.v))
    || (textList.Bound? && textList.v.Some? && exists kw :: kw in textList.v.value && f == Strip(kw))
  }

  /** The selection keeps each local or rebinds it from the element. */
  lemma SelectBindings(st: ComposeState, e: Element, mode: string, limit: int)
    ensures var s := Select(st, e, mode, limit);
      (s.text == st.text || s.text == Bound(e.template))
      && (s.textList == st.textList || s.textList == Bound(None)
          || (e.keywords.Some? && s.textList == Bound(Some(SliceTo(e.keywords.value, limit)))))
  {
  }

  /** A fragment from the locals after one element comes from that element or from the locals before it. */
  lemma BindingsShift(text: Binding<string>, textList: Binding<Option<seq<string>>>, e: Element, mode: string, limit: int, f: string)
    requires var s := Select(ComposeState(text, textList, [], {}), e, mode, limit); FromBindings(s.text, s.textList, f)
    ensures FromElement(e, f) || FromBindings(text, textList, f)
  {
    var s := Select(ComposeState(text, textList, [], {}), e, mode, limit);
    SelectBindings(ComposeState(text, textList, [], {}), e, mode, limit);
    if s.textList != textList && s.textList.Bound? && s.textList.v.Some? && exists kw :: kw in s.textList.v.value && f == Strip(kw) {
      var kw :| kw in s.textList.v.value && f == Strip(kw);
      assert kw in e.keywords.value;
    }
  }

  /** What one element offers comes from its locals after selection, and is neither empty nor blacklisted. */
  lemma HereFrom(s: ComposeState, useList: bool, here: seq<string>)
    requires s.textList.Bound? && useList == (s.textList.v.Some? && s.textList.v.value != []) && (useList || s.text.Bound?)
    requires here == if useList then KeywordOffers(s.textList.v.value) else OptSeq(TemplateFragment(s.text.v))
    ensures forall f :: f in here ==> f != [] && !Blacklisted(Lower(f)) && FromBindings(s.text, s.textList, f)
  {
    if useList {
      KeywordOffersFrom(s.textList.v.value);
    }
  }

  /**
   * Every offered fragment is non-empty, not blacklisted, and what some element's
   * template or keyword strips to, or else what a local bound on entry strips to.
   */
  lemma {:induction false} OfferedFrom(text: Binding<string>, textList: Binding<Option<seq<string>>>, elements: seq<Element>, mode: string, limit: int)
    requires Offered(text, textList, elements, mode, limit).Ok?
    ensures forall f :: f in Offered(text, textList, elements, mode, limit).value ==>
      f != [] && !Blacklisted(Lower(f))
      && ((exists k :: 0 <= k < |elements| && FromElement(elements[k], f)) || FromBindings(text, textList, f))
    decreases |elements|
  {
    if elements != [] {
      var e := elements[0];
      var s := Select(ComposeState(text, textList, [], {}), e, mode, limit);
      var here := OfferedHead(text, textList, elements, mode, limit);
      var rest := Offered(s.text, s.textList, elements[1..], mode, limit).value;
      OfferedFrom(s.text, s.textList, elements[1..], mode, limit);
      forall f | f in here + rest
        ensures (exists k :: 0 <= k < |elements| && FromElement(elements[k], f)) || FromBindings(text, textList, f)
      {
        if f in rest && exists k :: 0 <= k < |elements[1..]| && FromElement(elements[1..][k], f) {
          var k :| 0 <= k < |elements[1..]| && FromElement(elements[1..][k], f);
          assert elements[1..][k] == elements[k + 1];
        } else {
          BindingsShift(text, textList, e, mode, limit, f);
          if FromElement(e, f) {
            assert FromElement(elements[0], f);
          }
        }
      }
    }
  }

  /** What the first element offers, in front of what the rest offer from the locals it leaves. */
  lemma OfferedHead(text: Binding<string>, textList: Binding<Option<seq<string>>>, elements: seq<Element>, mode: string, limit: int)
    returns (here: seq<string>)
    requires elements != [] && Offered(text, textList, elements, mode, limit).Ok?
    ensures var s := Select(ComposeState(text, textList, [], {}), elements[0], mode, limit);
      Offered(s.text, s.textList, elements[1..], mode, limit).Ok?
      && Offered(text, textList, elements, mode, limit).value == here + Offered(s.text, s.textList, elements[1..], mode, limit).value
      && forall f :: f in here ==> f != [] && !Blacklisted(Lower(f)) && FromBindings(s.text, s.textList, f)
  {
    var s := Select(ComposeState(text, textList, [], {}), elements[0], mode, limit);
    var useList := s.textList.v.Some? && s.textList.v.value != [];
    here := if useList then KeywordOffers(s.textList.v.value) else OptSeq(TemplateFragment(s.text.v));
    HereFrom(s, useList, here);
  }

  /** The offered fragments whose concept is new: not in `seen` and not that of an earlier kept fragment. */
  function KeepNew(offered: seq<string>, seen: set<string>): seq<string>
  {
    FirstPerKey(offered, seen, Concept)
  }

  /** A fragment is added exactly as `KeepNew` keeps it. */
  lemma AddFragmentKeep(st: ComposeState, f: Option<string>)
    ensures AddFragment(st, f) == st.(fragments := st.fragments + KeepNew(OptSeq(f), st.seen), seen := st.seen + ConceptSet(OptSeq(f)))
  {
    if f.Some? {
      var x := f.value;
      assert OptSeq(f) == [x];
      FirstPerKeySingle(x, st.seen, Concept);
      if Concept(x) in st.seen {
        assert st.fragments + [] == st.fragments && st.seen + {Concept(x)} == st.seen;
      }
    } else {
      assert KeepNew([], st.seen) == [] && ConceptSet([]) == {};
      assert st.fragments + [] == st.fragments && st.seen + {} == st.seen;
    }
  }

  lemma {:induction false} AddKeywordsKeep(st: ComposeState, kws: seq<string>)
    ensures AddKeywords(st, kws) == st.(fragments := st.fragments + KeepNew(KeywordOffers(kws), st.seen), seen := st.seen + ConceptSet(KeywordOffers(kws)))
    decreases |kws|
  {
    if kws != [] {
      var next := AddFragment(st, KeywordFragment(kws[0]));
      AddFragmentKeep(st, KeywordFragment(kws[0]));
      AddKeywordsKeep(next, kws[1..]);
      KeepChain(st.fragments, OptSeq(KeywordFragment(kws[0])), KeywordOffers(kws[1..]), st.seen, next.fragments, next.seen);
    }
  }

  /** One batch of fragments, then the rest: the kept fragments and the concepts seen chain. */
  lemma KeepChain(f0: seq<string>, here: seq<string>, rest: seq<string>, seen: set<string>, kept1: seq<string>, seen1: set<string>)
    requires kept1 == f0 + KeepNew(here, seen) && seen1 == seen + ConceptSet(here)
    ensures kept1 + KeepNew(rest, seen1) == f0 + KeepNew(here + rest, seen)
    ensures seen1 + ConceptSet(rest) == seen + ConceptSet(here + rest)
  {
    FirstPerKeyChain(f0, here, rest, seen, kept1, seen1, Concept);
  }

  /** The selection touches only the two locals, and reads nothing else of the state. */
  lemma SelectLocals(st: ComposeState, e: Element, mode: string, limit: int)
    ensures var s := Select(st, e, mode, limit);
      var s0 := Select(ComposeState(st.text, st.textList, [], {}), e, mode, limit);
      s.text == s0.text && s.textList == s0.textList && s.fragments == st.fragments && s.seen == st.seen
  {
  }

  /** One element of the loop adds what it offers, as `KeepNew` keeps it, and keeps the two locals. */
  lemma ComposeStepKeep(st: ComposeState, e: Element, mode: string, limit: int)
    requires ComposeStep(st, e, mode, limit).Ok?
    ensures var s := Select(ComposeState(st.text, st.textList, [], {}), e, mode, limit);
      var here := if s.textList.v.Some? && s.textList.v.value != [] then KeywordOffers(s.textList.v.value) else OptSeq(TemplateFragment(s.text.v));
      var next := ComposeStep(st, e, mode, limit).value;
      next.text == s.text && next.textList == s.textList
      && next.fragments == st.fragments + KeepNew(here, st.seen) && next.seen == st.seen + ConceptSet(here)
  {
    var s := Select(st, e, mode, limit);
    SelectLocals(st, e, mode, limit);
    if s.textList.v.Some? && s.textList.v.value != [] {
      AddKeywordsKeep(s, s.textList.v.value);
    } else {
      AddFragmentKeep(s, TemplateFragment(s.text.v));
    }
  }

  lemma {:induction false} ComposeFromOffered(st: ComposeState, elements: seq<Element>, mode: string, limit: int)
    ensures ComposeFrom(st, elements, mode, limit).Ok? <==> Offered(st.text, st.textList, elements, mode, limit).Ok?
    ensures ComposeFrom(st, elements, mode, limit).Ok? ==>
      ComposeFrom(st, elements, mode, limit).value.fragments == st.fragments + KeepNew(Offered(st.text, st.textList, elements, mode, limit).value, st.seen)
    decreases |elements|
  {
    if elements == [] {
      assert st.fragments + [] == st.fragments;
    } else {
      var s0 := Select(ComposeState(st.text, st.textList, [], {}), elements[0], mode, limit);
      SelectLocals(st, elements[0], mode, limit);
      if ComposeStep(st, elements[0], mode, limit).Ok? {
        var next := ComposeStep(st, elements[0], mode, limit).value;
        var here := if s0.textList.v.Some? && s0.textList.v.value != [] then KeywordOffers(s0.textList.v.value) else OptSeq(TemplateFragment(s0.text.v));
        ComposeStepKeep(st, elements[0], mode, limit);
        ComposeFromOffered(next, elements[1..], mode, limit);
        var rest := Offered(s0.text, s0.textList, elements[1..], mode, limit);
        if rest.Ok? {
          KeepChain(st.fragments, here, rest.value, st.seen, next.fragments, next.seen);
        }
      }
    }
  }

  /**
   * What `compose_prompt` keeps of the offered fragments: a subsequence, in order; each
   * kept fragment's concept is new; every concept offered is kept once; and the first
   * fragment offered for a concept is the one kept.
   */
  lemma KeepNewProps(offered: seq<string>)
    ensures IsSubsequence(KeepNew(offered, {}), offered)
    ensures ConceptSet(KeepNew(offered, {})) == ConceptSet(offered)
    ensures forall i :: 0 <= i < |offered| && (forall j :: 0 <= j < i ==> Concept(offered[j]) != Concept(offered[i])) ==>
      offered[i] in KeepNew(offered, {})
  {
    FirstPerKeyProps(offered, {}, Concept);
    forall i | 0 <= i < |offered| && (forall j :: 0 <= j < i ==> Concept(offered[j]) != Concept(offered[i]))
      ensures offered[i] in KeepNew(offered, {})
    {
      assert FirstNew(offered, {}, Concept, i);
    }
  }

  /** Mode 'simple' never binds `text_list`: any non-empty element list raises. */
  lemma SimpleModeFails(elements: seq<Element>, limit: int)
    requires elements != []
    ensures Compose(elements, "simple", limit) == Err("UnboundLocalError: text_list")
  {
  }

  /** Without elements the prompt is empty, whatever the mode. */
  lemma ComposeEmpty(mode: string, limit: int)
    ensures Compose([], mode, limit) == Ok("")
  {
  }

  /**
   * In mode 'auto' an element is taken keyword by keyword exactly when it has at
   * least three keywords, and then only the first `limit` of them are considered.
   */
  lemma AutoModeUsesKeywords(st: ComposeState, e: Element, limit: int)
    ensures (e.keywords.Some? && |e.keywords.value| >= 3) ==>
      Select(st, e, "auto", limit).textList == Bound(Some(SliceTo(e.keywords.value, limit)))
      && Select(st, e, "auto", limit).text == st.text
    ensures !(e.keywords.Some? && |e.keywords.value| >= 3) ==>
      Select(st, e, "auto", limit) == st.(text := Bound(e.template), textList := Bound(None))
  {
  }

  /**
   * When a keyword list is selected but slices to nothing (a limit of 0), the
   * element falls back to `text`, which at the first element is still unbound.
   */
  lemma AutoModeZeroLimitFirstElement(elements: seq<Element>)
    requires elements != [] && elements[0].keywords.Some? && |elements[0].keywords.value| >= 3
    ensures Compose(elements, "auto", 0) == Err("UnboundLocalError: text")
  {
  }

  /** `assemble_prompt_from_elements`: the subject (if any) and the non-empty templates, joined by ", ". */
  function AssembleParts(elements: seq<Element>, subject: string): (parts: seq<string>)
  {
    (if subject != "" then [subject] else []) + NonEmptyTemplates(elements)
  }

  function NonEmptyTemplates(elements: seq<Element>): seq<string>
  {
    if elements == [] then []
    else (if elements[0].template != "" then [elements[0].template] else []) + NonEmptyTemplates(elements[1..])
  }

  /** The elements' templates, in element order. */
  function Templates(elements: seq<Element>): seq<string>
  {
    seq(|elements|, i requires 0 <= i < |elements| => elements[i].template)
  }

  method AssemblePromptFromElements(elements: seq<Element>, subject: string) returns (prompt: string)
    ensures prompt == Join(AssembleParts(elements, subject), ", ")
  {
    var parts: seq<string> := [];
    if subject != "" {
      parts := parts + [subject];
    }
    var i := 0;
    while i < |elements|
      invariant 0 <= i <= |elements|
      invariant parts + NonEmptyTemplates(elements[i..]) == AssembleParts(elements, subject)
    {
      assert elements[i..][1..] == elements[i + 1..];
      if elements[i].template != "" {
        parts := parts + [elements[i].template];
      }
      i := i + 1;
    }
    assert elements[i..] == [];
    assert parts + [] == parts;
    prompt := Join(parts, ", ");
  }

  /** The assembled parts are exactly the subject and the non-empty templates, in element order. */
  lemma {:induction false} NonEmptyTemplatesProps(elements: seq<Element>)
    ensures forall k :: 0 <= k < |NonEmptyTemplates(elements)| ==> NonEmptyTemplates(elements)[k] != ""
    ensures forall i :: 0 <= i < |elements| && elements[i].template != "" ==> elements[i].template in NonEmptyTemplates(elements)
    ensures |NonEmptyTemplates(elements)| <= |elements|
    ensures NonEmptyTemplates(elements) == Filter(Templates(elements), (t: string) => t != "")
  {
    if elements != [] {
      NonEmptyTemplatesProps(elements[1..]);
      assert Templates(elements)[1..] == Templates(elements[1..]);
      forall i | 0 <= i < |elements| && elements[i].template != ""
        ensures elements[i].template in NonEmptyTemplates(elements)
      {
        if i > 0 {
          assert elements[i] == elements[1..][i - 1];
        }
      }
    }
  }

  /** A row of `element_usage_stats`. */
  datatype UsageStat = UsageStat(usageCount: nat, avgQuality: real)

  /** One use of an element rated `quality`: a new row, or the running average updated. */
  function RecordUse(stats: map<string, UsageStat>, id: string, quality: real): map<string, UsageStat>
  {
    if id in stats then
      var prev := stats[id];
      stats[id := UsageStat(prev.usageCount + 1, (prev.avgQuality * prev.usageCount as real + quality) / (prev.usageCount + 1) as real)]
    else stats[id := UsageStat(1, quality)]
  }

  function RecordUses(stats: map<string, UsageStat>, ids: seq<string>, quality: real): map<string, UsageStat>
    decreases |ids|
  {
    if ids == [] then stats
    else RecordUses(if ids[0] != "" then RecordUse(stats, ids[0], quality) else stats, ids[1..], quality)
  }

  /** The usage-statistics loop of `save_generated_prompt`; empty ids are skipped. */
  method UpdateUsageStats(stats: map<string, UsageStat>, ids: seq<string>, quality: real)
    returns (updated: map<string, UsageStat>)
    ensures updated == RecordUses(stats, ids, quality)
  {
    updated := stats;
    var i := 0;
    while i < |ids|
      invariant 0 <= i <= |ids|
      invariant RecordUses(updated, ids[i..], quality) == RecordUses(stats, ids, quality)
    {
      assert ids[i..][1..] == ids[i + 1..];
      var id := ids[i];
      ghost var prev := updated;
      if id != "" {
        if id in updated {
          var oldCount := updated[id].usageCount;
          var oldAvg := updated[id].avgQuality;
          var newCount := oldCount + 1;
          var newAvg := (oldAvg * oldCount as real + quality) / (oldCount + 1) as real;
          assert newAvg == (prev[id].avgQuality * prev[id].usageCount as real + quality) / (prev[id].usageCount + 1) as real;
          updated := updated[id := UsageStat(newCount, newAvg)];
          assert updated[id] == RecordUse(prev, id, quality)[id];
        } else {
          updated := updated[id := UsageStat(1, quality)];
        }
        assert updated == RecordUse(prev, id, quality);
      }
      i := i + 1;
    }
    assert ids[i..] == [];
  }

  /** The quality total a row stands for. */
  function Total(s: UsageStat): real { s.avgQuality * s.usageCount as real }

  /**
   * The running average is exact: each use adds one to the count and `quality` to
   * count × average; rows of other elements are untouched.
   */
  lemma RecordUseTotal(stats: map<string, UsageStat>, id: string, quality: real)
    ensures id in RecordUse(stats, id, quality)
    ensures RecordUse(stats, id, quality)[id].usageCount == (if id in stats then stats[id].usageCount else 0) + 1
    ensures Total(RecordUse(stats, id, quality)[id]) == (if id in stats then Total(stats[id]) else 0.0) + quality
    ensures forall k :: k != id ==> (k in RecordUse(stats, id, quality) <==> k in stats)
    ensures forall k :: k != id && k in stats ==> RecordUse(stats, id, quality)[k] == stats[k]
  {
    if id in stats {
      var prev := stats[id];
      var n := (prev.usageCount + 1) as real;
      var avg := (prev.avgQuality * prev.usageCount as real + quality) / n;
      assert avg * n == prev.avgQuality * prev.usageCount as real + quality;
    }
  }

  function CountOf(stats: map<string, UsageStat>, id: string): nat
  {
    if id in stats then stats[id].usageCount else 0
  }

  function TotalOf(stats: map<string, UsageStat>, id: string): real
  {
    if id in stats then Total(stats[id]) else 0.0
  }

  lemma RecordUseFor(stats: map<string, UsageStat>, x: string, quality: real, id: string)
    ensures id in RecordUse(stats, x, quality) <==> id in stats || x == id
    ensures CountOf(RecordUse(stats, x, quality), id) == CountOf(stats, id) + (if x == id then 1 else 0)
    ensures TotalOf(RecordUse(stats, x, quality), id) == TotalOf(stats, id) + (if x == id then quality else 0.0)
  {
    RecordUseTotal(stats, x, quality);
  }

  /** `q` added `c` times. */
  function Scaled(c: nat, q: real): real
  {
    if c == 0 then 0.0 else Scaled(c - 1, q) + q
  }

  /** Scaled is multiplication. */
  lemma {:induction false} ScaledIsProduct(c: nat, q: real)
    ensures Scaled(c, q) == c as real * q
  {
    if c > 0 {
      ScaledIsProduct(c - 1, q);
    }
  }

  /** After a batch of uses, every element's count grows by the number of times its id occurs. */
  lemma {:induction false} RecordUsesCount(stats: map<string, UsageStat>, ids: seq<string>, quality: real, id: string)
    requires id != ""
    ensures id in RecordUses(stats, ids, quality) <==> id in stats || Count(ids, id) > 0
    ensures CountOf(RecordUses(stats, ids, quality), id) == CountOf(stats, id) + Count(ids, id)
    decreases |ids|
  {
    if ids != [] {
      var next := if ids[0] != "" then RecordUse(stats, ids[0], quality) else stats;
      if ids[0] != "" {
        RecordUseFor(stats, ids[0], quality, id);
      }
      assert RecordUses(stats, ids, quality) == RecordUses(next, ids[1..], quality);
      RecordUsesCount(next, ids[1..], quality, id);
      assert Count(ids, id) == (if ids[0] == id then 1 else 0) + Count(ids[1..], id);
    }
  }

  /**
   * After a batch of uses, every element's quality total (count times average) grows
   * by `quality` once per occurrence of its id: the stored averages stay exact.
   */
  lemma {:induction false} RecordUsesTotal(stats: map<string, UsageStat>, ids: seq<string>, quality: real, id: string)
    requires id != ""
    ensures TotalOf(RecordUses(stats, ids, quality), id) == TotalOf(stats, id) + Scaled(Count(ids, id), quality)
    decreases |ids|
  {
    if ids != [] {
      var next := if ids[0] != "" then RecordUse(stats, ids[0], quality) else stats;
      var t0 := TotalOf(stats, id);
      var t1 := TotalOf(next, id);
      if ids[0] != "" {
        RecordUseFor(stats, ids[0], quality, id);
      }
      assert t1 == t0 + (if ids[0] == id then quality else 0.0);
      assert RecordUses(stats, ids, quality) == RecordUses(next, ids[1..], quality);
      RecordUsesTotal(next, ids[1..], quality, id);
      var c := Count(ids[1..], id);
      assert Count(ids, id) == (if ids[0] == id then 1 else 0) + c;
    }
  }
}
