/** The generator's fixed common-sense tables and small lookups over element lists. */
module Knowledge {
  import opened Wrappers
  import opened Text
  import opened ElementLookup

  /** Typical eye colours per ethnicity; None for an ethnicity the table does not list. */
  function TypicalEyes(ethnicity: string): Option<seq<string>>
  {
    match ethnicity
    case "East_Asian" => Some(["black", "dark brown", "brown"])
    case "Southeast_Asian" => Some(["dark brown", "brown", "black"])
    case "South_Asian" => Some(["dark brown", "brown", "black"])
    case "European" => Some(["blue", "green", "brown", "hazel", "grey"])
    case "African" => Some(["dark brown", "black", "brown"])
    case "Middle_Eastern" => Some(["brown", "dark brown", "hazel", "black"])
    case "Latin_American" => Some(["brown", "dark brown", "hazel", "green"])
    case _ => None
  }

  /** Typical hair colours per ethnicity; None for an ethnicity the table does not list. */
  function TypicalHair(ethnicity: string): Option<seq<string>>
  {
    match ethnicity
    case "East_Asian" => Some(["black", "dark brown"])
    case "Southeast_Asian" => Some(["black", "dark brown"])
    case "South_Asian" => Some(["black", "dark brown"])
    case "European" => Some(["blonde", "brown", "black", "red", "auburn"])
    case "African" => Some(["black", "dark brown"])
    case "Middle_Eastern" => Some(["black", "dark brown", "brown"])
    case "Latin_American" => Some(["black", "dark brown", "brown"])
    case _ => None
  }

  /** Categories describing the person, which style keywords must not override. */
  const SubjectAttributeCategories: set<string> :=
    {"gender", "age_range", "ethnicity", "skin_tones", "eye_types", "hair_colors",
     "hair_styles", "face_shapes", "nose_types", "lip_types"}

  /** The lower-cased ethnicity names `extract_ethnicity_name` recognises, with their canonical spelling. */
  const EthnicityMapping: map<string, string> :=
    map["east_asian" := "East_Asian", "southeast_asian" := "Southeast_Asian", "south_asian" := "South_Asian",
        "european" := "European", "african" := "African", "middle_eastern" := "Middle_Eastern",
        "latin_american" := "Latin_American"]

  /** `extract_ethnicity_name`: `mapping.get(name.lower(), name)`. */
  function ExtractEthnicityName(name: string): (r: string)
    ensures r == name || TypicalHair(r).Some?
    ensures TypicalHair(r).Some? <==> TypicalEyes(r).Some?
    ensures Lower(r) == Lower(name)
  {
    MappingCanonical();
    var key := Lower(name);
    if key in EthnicityMapping then EthnicityMapping[key] else name
  }

  /** Every mapped spelling is a known ethnicity whose lower-case form is its key. */
  lemma MappingCanonical()
    ensures forall k :: k in EthnicityMapping ==>
      Lower(EthnicityMapping[k]) == k && TypicalHair(EthnicityMapping[k]).Some? && TypicalEyes(EthnicityMapping[k]).Some?
  {
    CanonicalLower();
  }

  /** Each ethnicity the tables know is mapped to from its own lower-case form. */
  lemma KnownIsMapped(c: string)
    requires TypicalHair(c).Some?
    ensures Lower(c) in EthnicityMapping && EthnicityMapping[Lower(c)] == c
  {
    CanonicalLower();
    assert c == "East_Asian" || c == "Southeast_Asian" || c == "South_Asian" || c == "European"
      || c == "African" || c == "Middle_Eastern" || c == "Latin_American";
  }

  /** The seven spellings both tables use, lower-cased. */
  lemma CanonicalLower()
    ensures Lower("East_Asian") == "east_asian"
    ensures Lower("Southeast_Asian") == "southeast_asian"
    ensures Lower("South_Asian") == "south_asian"
    ensures Lower("European") == "european"
    ensures Lower("African") == "african"
    ensures Lower("Middle_Eastern") == "middle_eastern"
    ensures Lower("Latin_American") == "latin_american"
  {
    CanonicalLowerLong();
  }

  lemma CanonicalLowerLong()
    ensures Lower("Southeast_Asian") == "southeast_asian"
    ensures Lower("Middle_Eastern") == "middle_eastern"
    ensures Lower("Latin_American") == "latin_american"
  {
  }

  /**
   * The lookup is case-insensitive over the known ethnicities: a name gets a canonical
   * spelling exactly when it is some known ethnicity up to case, and then that spelling
   * is the one of the same letters; any other name comes back unchanged.
   */
  lemma ExtractEthnicityCanonical(name: string)
    ensures var r := ExtractEthnicityName(name);
      (TypicalHair(r).Some? <==> exists c :: TypicalHair(c).Some? && Lower(c) == Lower(name))
      && (forall c :: TypicalHair(c).Some? && Lower(c) == Lower(name) ==> r == c)
      && (TypicalHair(r).None? ==> r == name)
  {
    var r := ExtractEthnicityName(name);
    forall c | TypicalHair(c).Some? && Lower(c) == Lower(name)
      ensures r == c
    {
      KnownIsMapped(c);
    }
    if TypicalHair(r).Some? {
      assert TypicalHair(r).Some? && Lower(r) == Lower(name);
    }
  }

  /** `find_element_by_category`: the first element of the category. */
  function FindElementByCategory(elements: seq<Element>, category: string): (r: Option<Element>)
    ensures r.Some? ==> r.value in elements && r.value.category == category
    ensures r.None? <==> forall i :: 0 <= i < |elements| ==> elements[i].category != category
    ensures r.Some? ==> exists k :: (0 <= k < |elements| && elements[k] == r.value
      && forall j :: 0 <= j < k ==> elements[j].category != category)
  {
    if elements == [] then None
    else if elements[0].category == category then Some(elements[0])
    else
      var r := FindElementByCategory(elements[1..], category);
      FirstShift(elements, category, r);
      r
  }

  lemma FirstShift(elements: seq<Element>, category: string, r: Option<Element>)
    requires elements != [] && elements[0].category != category
    requires r.Some? ==> exists k :: (0 <= k < |elements[1..]| && elements[1..][k] == r.value
      && forall j :: 0 <= j < k ==> elements[1..][j].category != category)
    ensures r.Some? ==> exists k :: (0 <= k < |elements| && elements[k] == r.value
      && forall j :: 0 <= j < k ==> elements[j].category != category)
  {
    if r.Some? {
      var k :| 0 <= k < |elements[1..]| && elements[1..][k] == r.value
        && forall j :: 0 <= j < k ==> elements[1..][j].category != category;
      assert elements[k + 1] == r.value;
      assert forall j :: 0 <= j < k + 1 ==> elements[j].category != category by {
        forall j | 0 <= j < k + 1
          ensures elements[j].category != category
        {
          if j > 0 {
            assert elements[j] == elements[1..][j - 1];
          }
        }
      }
    }
  }
}
