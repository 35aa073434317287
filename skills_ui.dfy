/**
 * The SkillsLM skill card's reading of a skill's agents: the agents text is split at
 * commas, and each supported tool is shown as synchronised when some listed agent,
 * lower-cased, occurs in the tool's lower-cased name.
 */
module SkillsUi {
  import opened Wrappers
  import opened Text

  /**
   * `parse_agents`: nothing for a missing or empty text or the literal "None", otherwise
   * every comma-separated piece, stripped; empty pieces are kept.
   */
  function ParseAgents(agents: Option<string>): (r: seq<string>)
    ensures agents.None? || agents.value == "" || agents.value == "None" ==> r == []
  {
    if agents.None? || agents.value == "" || agents.value == "None" then []
    else seq(|SplitOn(agents.value, ',')|, k requires 0 <= k < |SplitOn(agents.value, ',')| => Strip(SplitOn(agents.value, ',')[k]))
  }

  /** Otherwise one entry per piece, one more than the commas, and the raw pieces joined with commas give the text back. */
  lemma ParseAgentsCount(s: string)
    requires s != "" && s != "None"
    ensures |ParseAgents(Some(s))| == CountChar(s, ',') + 1 == |SplitOn(s, ',')|
    ensures Join(SplitOn(s, ','), ",") == s
  {
    SplitOnProps(s, ',');
    SplitOnJoin(s, ',');
  }

  /** Each entry is its piece without surrounding whitespace, in order, and holds no comma. */
  lemma ParseAgentsEntries(s: string)
    requires s != "" && s != "None"
    ensures var r := ParseAgents(Some(s));
      forall k :: 0 <= k < |r| ==>
        r[k] == Strip(SplitOn(s, ',')[k]) && ',' !in r[k]
        && (r[k] == [] || (!IsSpace(r[k][0]) && !IsSpace(r[k][|r[k]| - 1])))
  {
    SplitOnProps(s, ',');
    var pieces := SplitOn(s, ',');
    var r := ParseAgents(Some(s));
    forall k | 0 <= k < |r|
      ensures r[k] == Strip(pieces[k]) && ',' !in r[k]
    {
      assert ',' !in pieces[k];
      StripInside(pieces[k]);
    }
  }

  /** A stripped text is a slice of the original, so it holds no character the original lacks. */
  lemma StripInside(s: string)
    ensures forall c :: c in Strip(s) ==> c in s
  {
    var l := LStrip(s);
    var r := RStrip(l);
    assert Strip(s) == r;
    forall c | c in r
      ensures c in s
    {
      var i :| 0 <= i < |r| && r[i] == c;
      assert r[i] == l[i];
      assert l[i] == s[|s| - |l| + i];
    }
  }

  const SupportedAgents: seq<string> := ["Cursor", "Claude Code", "Cline", "Trae", "OpenCode"]

  /** `is_active`: some parsed agent, lower-cased, is a substring of the lower-cased tool name. */
  predicate IsActive(agents: seq<string>, tool: string)
  {
    exists k :: 0 <= k < |agents| && Contains(Lower(tool), Lower(agents[k]))
  }

  /** The badge state of each supported tool, in the card's order. */
  function ActiveTools(agents: seq<string>): (r: seq<bool>)
    ensures |r| == |SupportedAgents|
    ensures forall i :: 0 <= i < |r| ==> (r[i] <==> IsActive(agents, SupportedAgents[i]))
  {
    seq(|SupportedAgents|, i requires 0 <= i < |SupportedAgents| => IsActive(agents, SupportedAgents[i]))
  }

  /** With no agents no tool is active; an empty agent (from an empty piece) activates every tool. */
  lemma ActiveExtremes(agents: seq<string>, tool: string)
    ensures agents == [] ==> !IsActive(agents, tool)
    ensures "" in agents ==> IsActive(agents, tool)
  {
    if "" in agents {
      var k :| 0 <= k < |agents| && agents[k] == "";
      assert Lower(agents[k]) == "";
      ContainsEmpty(Lower(tool));
    }
  }

  /** An agent text with an empty piece, such as a trailing comma, lights every tool. */
  lemma {:induction false} TrailingCommaActivatesAll(s: string)
    ensures forall i :: 0 <= i < |SupportedAgents| ==> ActiveTools(ParseAgents(Some(s + ",")))[i]
  {
    var t := s + ",";
    assert t[|t| - 1] == ',';
    assert t != "" && t != "None";
    var pieces := SplitOn(t, ',');
    LastPieceEmpty(s);
    var r := ParseAgents(Some(t));
    assert |r| == |pieces|;
    assert r[|r| - 1] == Strip(pieces[|pieces| - 1]);
    assert r[|r| - 1] == "";
    forall i | 0 <= i < |SupportedAgents|
      ensures ActiveTools(r)[i]
    {
      ActiveExtremes(r, SupportedAgents[i]);
    }
  }

  /** The piece after a trailing separator is empty. */
  lemma {:induction false} LastPieceEmpty(s: string)
    ensures var p := SplitOn(s + ",", ','); p[|p| - 1] == ""
    decreases |s|
  {
    if s == [] {
      assert SplitOn(",", ',') == [""] + SplitOn("", ',');
    } else {
      assert (s + ",")[1..] == s[1..] + ",";
      LastPieceEmpty(s[1..]);
    }
  }
}
