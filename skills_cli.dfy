/**
 * The SkillsLM shell's handling of the `npx skills` command line: the argument vectors
 * it builds, the ANSI escape stripping applied to the command's output, the scanners
 * that read installed and available skills out of that output, the update check, and
 * the Markdown-to-Mermaid flowchart extraction. The command's output is a parameter.
 */
module SkillsCli {
  import opened Wrappers
  import opened Text
  import opened Seqs

  // ---------------------------------------------------------------------------
  // strip_ansi

  const Esc: char := '\U{1B}'

  /** The byte after ESC in an ESC Fe sequence (section 5.3 of ECMA-48): `@`..`Z` or `\`..`_`. */
  predicate IsFe(c: char)
  {
    ('@' <= c <= 'Z') || ('\\' <= c <= '_')
  }

  /** CSI parameter bytes, intermediate bytes and final byte (section 5.4 of ECMA-48). */
  predicate IsParam(c: char)
  {
    '0' <= c <= '?'
  }

  predicate IsIntermediate(c: char)
  {
    ' ' <= c <= '/'
  }

  predicate IsFinal(c: char)
  {
    '@' <= c <= '~'
  }

  /** The end of the run of parameter bytes starting at `i`. */
  function ParamsEnd(s: string, i: nat): (j: nat)
    requires i <= |s|
    ensures i <= j <= |s|
    ensures forall k :: i <= k < j ==> IsParam(s[k])
    ensures j == |s| || !IsParam(s[j])
    decreases |s| - i
  {
    if i == |s| || !IsParam(s[i]) then i else ParamsEnd(s, i + 1)
  }

  function IntermediatesEnd(s: string, i: nat): (j: nat)
    requires i <= |s|
    ensures i <= j <= |s|
    ensures forall k :: i <= k < j ==> IsIntermediate(s[k])
    ensures j == |s| || !IsIntermediate(s[j])
    decreases |s| - i
  {
    if i == |s| || !IsIntermediate(s[i]) then i else IntermediatesEnd(s, i + 1)
  }

  /**
   * The length of the escape sequence the pattern matches at the start of `s`, 0 when it
   * matches none there. The three CSI byte classes are disjoint, so the greedy runs never
   * need to give anything back.
   */
  function EscapeLength(s: string): (n: nat)
    ensures n <= |s|
    ensures n > 0 ==> n >= 2 && s[0] == Esc
  {
    if |s| < 2 || s[0] != Esc then 0
    else if IsFe(s[1]) then 2
    else if s[1] == '[' then
      var j := IntermediatesEnd(s, ParamsEnd(s, 2));
      if j < |s| && IsFinal(s[j]) then j + 1 else 0
    else 0
  }

  /** `strip_ansi`: matched sequences deleted left to right without overlap; any other character kept. */
  function StripAnsi(s: string): string
    decreases |s|
  {
    if s == [] then []
    else
      var n := EscapeLength(s);
      if n > 0 then StripAnsi(s[n..]) else [s[0]] + StripAnsi(s[1..])
  }

  /** Text without ESC comes back unchanged. */
  lemma {:induction false} StripAnsiNoEscape(s: string)
    requires Esc !in s
    ensures StripAnsi(s) == s
    decreases |s|
  {
    if s != [] {
      assert Esc !in s[1..];
      StripAnsiNoEscape(s[1..]);
      assert s == [s[0]] + s[1..];
    }
  }

  /** Stripping only deletes: the result is a subsequence of the input. */
  lemma {:induction false} StripAnsiSubsequence(s: string)
    ensures IsSubsequence(StripAnsi(s), s)
    decreases |s|
  {
    if s != [] {
      var n := EscapeLength(s);
      if n > 0 {
        StripAnsiSubsequence(s[n..]);
        SubsequencePrepend(StripAnsi(s[n..]), s[..n], s[n..]);
        assert s[..n] + s[n..] == s;
      } else {
        StripAnsiSubsequence(s[1..]);
        assert ([s[0]] + StripAnsi(s[1..]))[1..] == StripAnsi(s[1..]);
      }
    }
  }

  /** One pass may leave a sequence behind: deleting an inner sequence can join an ESC to the byte after it. */
  lemma StripAnsiNotIdempotent()
    ensures var s := [Esc, Esc, '@', '@'];
      StripAnsi(s) == [Esc, '@'] && StripAnsi(StripAnsi(s)) == []
  {
    var s := [Esc, Esc, '@', '@'];
    assert EscapeLength(s) == 0;
    assert s[1..] == [Esc, '@', '@'];
    assert EscapeLength(s[1..]) == 2;
    assert s[1..][2..] == ['@'];
    assert EscapeLength(['@']) == 0;
    assert StripAnsi(['@']) == ['@'] + StripAnsi([]);
    assert StripAnsi(s[1..]) == ['@'];
    var t := [Esc, '@'];
    assert EscapeLength(t) == 2;
    assert t[2..] == [];
  }

  // ---------------------------------------------------------------------------
  // Argument vectors

  /** `run_command`: every command is `npx skills` followed by its arguments. */
  function Command(args: seq<string>): (cmd: seq<string>)
    ensures |cmd| == |args| + 2 && cmd[..2] == ["npx", "skills"] && cmd[2..] == args
  {
    ["npx", "skills"] + args
  }

  function ListArgs(globalScope: bool): seq<string>
  {
    ["list"] + (if globalScope then ["-g"] else [])
  }

  function RepoListArgs(repo: string): seq<string>
  {
    ["add", repo, "--list"]
  }

  /** `install_skill`: a skill name is passed only when truthy (given and non-empty). */
  function InstallArgs(repo: string, skillName: Option<string>, globalInstall: bool): seq<string>
  {
    ["add", repo]
    + (if skillName.Some? && skillName.value != "" then ["--skill", skillName.value] else [])
    + (if globalInstall then ["-g"] else [])
    + ["-y"]
  }

  function RemoveArgs(skillName: string, globalScope: bool): seq<string>
  {
    ["remove", skillName] + (if globalScope then ["-g"] else []) + ["-y"]
  }

  /** Reads an install vector back: the repository, the skill name if any, and the global flag. */
  function ParseInstall(args: seq<string>): Option<(string, Option<string>, bool)>
  {
    if |args| < 3 || args[0] != "add" || args[|args| - 1] != "-y" then None
    else
      var rest := args[2..|args| - 1];
      if rest == [] then Some((args[1], None, false))
      else if rest == ["-g"] then Some((args[1], None, true))
      else if |rest| == 2 && rest[0] == "--skill" then Some((args[1], Some(rest[1]), false))
      else if |rest| == 3 && rest[0] == "--skill" && rest[2] == "-g" then Some((args[1], Some(rest[1]), true))
      else None
  }

  function ParseRemove(args: seq<string>): Option<(string, bool)>
  {
    if |args| == 3 && args[0] == "remove" && args[2] == "-y" then Some((args[1], false))
    else if |args| == 4 && args[0] == "remove" && args[2] == "-g" && args[3] == "-y" then Some((args[1], true))
    else None
  }

  /**
   * The install vector carries exactly the repository, the skill name when truthy, and
   * the global flag, whatever the strings are; an empty name is dropped like no name.
   */
  lemma InstallArgsRoundTrip(repo: string, skillName: Option<string>, globalInstall: bool)
    ensures ParseInstall(InstallArgs(repo, skillName, globalInstall)) ==
      Some((repo, if skillName.Some? && skillName.value != "" then skillName else None, globalInstall))
    ensures InstallArgs(repo, skillName, globalInstall)[..2] == ["add", repo]
  {
    var args := InstallArgs(repo, skillName, globalInstall);
    var named := skillName.Some? && skillName.value != "";
    assert args[2..|args| - 1] == (if named then ["--skill", skillName.value] else []) + (if globalInstall then ["-g"] else []);
  }

  lemma RemoveArgsRoundTrip(skillName: string, globalScope: bool)
    ensures ParseRemove(RemoveArgs(skillName, globalScope)) == Some((skillName, globalScope))
  {
  }

  // ---------------------------------------------------------------------------
  // check_updates

  const UpToDate: string := "所有 Skills 已是最新"

  /**
   * `check_updates`: with no output the command's error text is returned and no update is
   * reported; otherwise updates exist unless the stripped output says all skills are up
   * to date, and the stripped output is returned with them.
   */
  function CheckUpdates(stdout: Option<string>, stderr: Option<string>): (r: (bool, Option<string>))
    ensures stdout.None? || stdout.value == "" ==> r == (false, stderr)
    ensures r.0 <==> stdout.Some? && stdout.value != "" && !Contains(StripAnsi(stdout.value), "All skills are up to date")
    ensures r.0 ==> r.1 == Some(StripAnsi(stdout.value))
  {
    if stdout.Some? && stdout.value != "" then
      var text := StripAnsi(stdout.value);
      if Contains(text, "All skills are up to date") then (false, Some(UpToDate)) else (true, Some(text))
    else (false, stderr)
  }

  // ---------------------------------------------------------------------------
  // list_skills

  datatype Skill = Skill(name: string, path: string, agents: string, scope: string)

  predicate IsNameChar(c: char)
  {
    ('a' <= c <= 'z') || ('A' <= c <= 'Z') || ('0' <= c <= '9') || c == '_' || c == '-' || c == '.'
  }

  /** `^[a-zA-Z0-9_\-\.]+$` on a string without line breaks. */
  predicate NameFormat(s: string)
  {
    s != [] && forall i :: 0 <= i < |s| ==> IsNameChar(s[i])
  }

  /** A stripped line `list_skills` passes over: blank, a section header, an npx prompt or an empty-list notice. */
  predicate SkippedLine(line: string)
  {
    line == []
    || Contains(line, "Global Skills") || Contains(line, "Project Skills")
    || StartsWith(line, "Need to install") || StartsWith(line, "Ok to proceed")
    || Contains(line, "No global skills found") || Contains(line, "No project skills found")
  }

  predicate LooksLikePath(path: string)
  {
    Contains(path, "/") || Contains(path, "\\") || StartsWith(path, "~")
  }

  function ScopeName(globalScope: bool): string
  {
    if globalScope then "global" else "project"
  }

  /** A first word in the name format followed by a path-like rest. */
  predicate NamePathLine(line: string)
  {
    |Words(line)| >= 2 && NameFormat(Words(line)[0]) && LooksLikePath(Join(Words(line)[1..], " "))
  }

  /** A stripped line that adds a skill. */
  predicate CreatesSkill(line: string)
  {
    !SkippedLine(line) && !StartsWith(line, "Agents:") && NamePathLine(line)
  }

  /** The skill a name-and-path line adds: the path is expanded when it starts with `~`. */
  function NewSkill(line: string, globalScope: bool, expand: string -> string): Skill
    requires NamePathLine(line)
  {
    var parts := Words(line);
    var path := Join(parts[1..], " ");
    Skill(parts[0], if StartsWith(path, "~") then expand(path) else path, "None", ScopeName(globalScope))
  }

  /** The agents an "Agents:" line gives the last skill. */
  function AgentsOf(line: string): string
  {
    Strip(Replace(line, "Agents:", ""))
  }

  /** How `list_skills` reads one stripped line, in the order its tests are made. */
  datatype LineKind = SkipLine | AgentsLine | SkillLine | OtherLine

  function KindOf(line: string): (k: LineKind)
    ensures k == SkillLine ==> NamePathLine(line)
  {
    if SkippedLine(line) then SkipLine
    else if StartsWith(line, "Agents:") then AgentsLine
    else if NamePathLine(line) then SkillLine
    else OtherLine
  }

  /** The effect of one output line on the skills found so far (`current_skill` is always the last of them). */
  function ListStep(skills: seq<Skill>, raw: string, globalScope: bool, expand: string -> string): seq<Skill>
  {
    var line := Strip(raw);
    match KindOf(line)
    case SkipLine => skills
    case AgentsLine =>
      if skills == [] then skills else skills[..|skills| - 1] + [skills[|skills| - 1].(agents := AgentsOf(line))]
    case SkillLine => skills + [NewSkill(line, globalScope, expand)]
    case OtherLine => skills
  }

  function ListedSkills(lines: seq<string>, globalScope: bool, expand: string -> string): seq<Skill>
  {
    if lines == [] then []
    else ListStep(ListedSkills(lines[..|lines| - 1], globalScope, expand), lines[|lines| - 1], globalScope, expand)
  }

  /** The number of lines that add a skill. */
  function CreatingLines(lines: seq<string>): nat
  {
    if lines == [] then 0
    else CreatingLines(lines[..|lines| - 1]) + (if CreatesSkill(Strip(lines[|lines| - 1])) then 1 else 0)
  }

  /**
   * One line: a skipped line changes nothing, an "Agents:" line changes only the agents
   * of the last skill (nothing before any skill), and a name-and-path line appends a
   * skill with agents "None" and the flag's scope.
   */
  lemma ListStepProps(skills: seq<Skill>, raw: string, globalScope: bool, expand: string -> string)
    ensures var line := Strip(raw);
      var after := ListStep(skills, raw, globalScope, expand);
      (SkippedLine(line) ==> after == skills)
      && (!SkippedLine(line) && StartsWith(line, "Agents:") ==>
            |after| == |skills|
            && (skills != [] ==>
                  after[..|skills| - 1] == skills[..|skills| - 1]
                  && after[|skills| - 1] == skills[|skills| - 1].(agents := AgentsOf(line))))
      && (CreatesSkill(line) ==>
            after[..|skills|] == skills && |after| == |skills| + 1
            && after[|skills|].name == Words(line)[0] && after[|skills|].agents == "None"
            && after[|skills|].scope == ScopeName(globalScope)
            && var path := Join(Words(line)[1..], " ");
               after[|skills|].path == if StartsWith(path, "~") then expand(path) else path)
  {
  }

  /**
   * A listed skill: a name in the name format, the flag's scope, and a path that looks like
   * one or is the expansion of a path starting with `~`.
   */
  ghost predicate Listed(skill: Skill, globalScope: bool, expand: string -> string)
  {
    NameFormat(skill.name) && skill.scope == ScopeName(globalScope)
    && (LooksLikePath(skill.path) || exists q :: StartsWith(q, "~") && skill.path == expand(q))
  }

  /** Exactly the name-and-path lines add skills, one each; every name has the name format and every scope comes from the flag. */
  lemma {:induction false} ListedSkillsProps(lines: seq<string>, globalScope: bool, expand: string -> string)
    ensures var r := ListedSkills(lines, globalScope, expand);
      |r| == CreatingLines(lines) && forall k :: 0 <= k < |r| ==> Listed(r[k], globalScope, expand)
  {
    if lines != [] {
      var init := lines[..|lines| - 1];
      ListedSkillsProps(init, globalScope, expand);
      ListStepListed(ListedSkills(init, globalScope, expand), lines[|lines| - 1], globalScope, expand);
    }
  }

  /** One line adds a skill exactly when it creates one, and keeps every skill listed. */
  lemma ListStepListed(skills: seq<Skill>, raw: string, globalScope: bool, expand: string -> string)
    requires forall k :: 0 <= k < |skills| ==> Listed(skills[k], globalScope, expand)
    ensures var after := ListStep(skills, raw, globalScope, expand);
      |after| == |skills| + (if CreatesSkill(Strip(raw)) then 1 else 0)
      && forall k :: 0 <= k < |after| ==> Listed(after[k], globalScope, expand)
  {
    var line := Strip(raw);
    var after := ListStep(skills, raw, globalScope, expand);
    var kind := KindOf(line);
    ListStepOf(skills, raw, globalScope, expand);
    assert kind == SkillLine <==> CreatesSkill(line);
    if kind == AgentsLine && skills != [] {
      var n := |skills|;
      forall k | 0 <= k < |after|
        ensures Listed(after[k], globalScope, expand)
      {
        if k < n - 1 {
          assert after[k] == skills[k];
        } else {
          assert after[k] == skills[n - 1].(agents := AgentsOf(line));
          assert Listed(skills[n - 1], globalScope, expand);
        }
      }
    } else if kind == SkillLine {
      var x := NewSkill(line, globalScope, expand);
      var path := Join(Words(line)[1..], " ");
      if StartsWith(path, "~") {
        assert StartsWith(path, "~") && x.path == expand(path);
      }
      assert Listed(x, globalScope, expand);
      forall k | 0 <= k < |after|
        ensures Listed(after[k], globalScope, expand)
      {
        if k < |skills| {
          assert after[k] == skills[k];
        }
      }
    }
  }

  /**
   * `list_skills` over the command's output: nothing and the error text when there is no
   * output, otherwise the skills `ListedSkills` reads from the stripped output's lines.
   */
  method ListSkills(stdout: Option<string>, stderr: Option<string>, globalScope: bool, expand: string -> string)
    returns (skills: seq<Skill>, err: Option<string>)
    ensures stdout.None? || stdout.value == "" ==> skills == [] && err == stderr
    ensures stdout.Some? && stdout.value != "" ==>
      err.None? && skills == ListedSkills(SplitLines(StripAnsi(stdout.value)), globalScope, expand)
  {
    if stdout.None? || stdout.value == "" {
      return [], stderr;
    }
    skills := ScanSkills(SplitLines(StripAnsi(stdout.value)), globalScope, expand);
    err := None;
  }

  /** The loop of `list_skills`, keeping `current_skill` beside the list. */
  method ScanSkills(lines: seq<string>, globalScope: bool, expand: string -> string) returns (skills: seq<Skill>)
    ensures skills == ListedSkills(lines, globalScope, expand)
  {
    skills := [];
    var current: Option<Skill> := None;
    for i := 0 to |lines|
      invariant skills == ListedSkills(lines[..i], globalScope, expand)
      invariant current.None? <==> skills == []
      invariant current.Some? ==> current.value == skills[|skills| - 1]
    {
      assert lines[..i + 1][..i] == lines[..i];
      skills, current := ScanLine(skills, current, lines[i], globalScope, expand);
    }
    assert lines[..|lines|] == lines;
  }

  /** `ListStep` by the kind of the line. */
  lemma ListStepOf(skills: seq<Skill>, raw: string, globalScope: bool, expand: string -> string)
    ensures var line := Strip(raw);
      ListStep(skills, raw, globalScope, expand)
      == match KindOf(line)
         case AgentsLine =>
           if skills == [] then skills else skills[..|skills| - 1] + [skills[|skills| - 1].(agents := AgentsOf(line))]
         case SkillLine => skills + [NewSkill(line, globalScope, expand)]
         case _ => skills
  {
  }

  /** One pass of the loop: `current` is the skill last appended, if any. */
  method ScanLine(skills: seq<Skill>, current: Option<Skill>, raw: string, globalScope: bool, expand: string -> string)
    returns (skills': seq<Skill>, current': Option<Skill>)
    requires current.None? <==> skills == []
    requires current.Some? ==> current.value == skills[|skills| - 1]
    ensures skills' == ListStep(skills, raw, globalScope, expand)
    ensures current'.None? <==> skills' == []
    ensures current'.Some? ==> current'.value == skills'[|skills'| - 1]
  {
    skills', current' := skills, current;
    var line := Strip(raw);
    var kind := KindOf(line);
    ListStepOf(skills, raw, globalScope, expand);
    if kind == SkipLine {
    } else if kind == AgentsLine {
      if current.Some? {
        // `current_skill` is the dict last appended, so the update shows in the list.
        current' := Some(current.value.(agents := AgentsOf(line)));
        skills' := skills[..|skills| - 1] + [current'.value];
      }
    } else if kind == SkillLine {
      current' := Some(NewSkill(line, globalScope, expand));
      skills' := skills + [current'.value];
    }
  }

  // ---------------------------------------------------------------------------
  // get_repo_skills

  datatype RepoSkill = RepoSkill(name: string, description: string, repo: string)

  /** The box-drawing bar the installer draws its list with. */
  const Bar: string := "\U{2502}"

  predicate StopLine(line: string)
  {
    Contains(line, "Installation Summary") || Contains(line, "Use --skill") || Contains(line, "Selected")
  }

  /** One listed line, bars removed and right-stripped: a shallow name starts a skill, a deep line extends the last description. */
  function RepoStep(skills: seq<RepoSkill>, clean: string, repo: string): seq<RepoSkill>
  {
    var leading := |clean| - |LStrip(clean)|;
    var content := Strip(clean);
    if leading <= 5 && NameFormat(content) then skills + [RepoSkill(content, "", repo)]
    else if leading >= 6 && skills != [] then
      skills[..|skills| - 1] + [skills[|skills| - 1].(description := skills[|skills| - 1].description + content + " ")]
    else skills
  }

  /**
   * The scan of the remaining lines, given whether "Available Skills" has been seen and
   * the skills so far: it ends at the first non-blank listed line carrying a stop marker.
   */
  function RepoScan(lines: seq<string>, inSection: bool, skills: seq<RepoSkill>, repo: string): seq<RepoSkill>
    decreases |lines|
  {
    if lines == [] then skills
    else
      var line := lines[0];
      if Contains(line, "Available Skills") then RepoScan(lines[1..], true, skills, repo)
      else if !inSection then RepoScan(lines[1..], false, skills, repo)
      else
        var clean := RStrip(Replace(line, Bar, ""));
        if Strip(clean) == [] then RepoScan(lines[1..], true, skills, repo)
        else if StopLine(line) then skills
        else RepoScan(lines[1..], true, RepoStep(skills, clean, repo), repo)
  }

  /** A skill read from `repo`: a name in the name format, and a description empty or ending in a space. */
  predicate RepoSkillOk(skill: RepoSkill, repo: string)
  {
    NameFormat(skill.name) && skill.repo == repo
    && (skill.description == [] || skill.description[|skill.description| - 1] == ' ')
  }

  predicate WellFormed(skills: seq<RepoSkill>, repo: string)
  {
    forall k :: 0 <= k < |skills| ==> RepoSkillOk(skills[k], repo)
  }

  lemma RepoStepWellFormed(skills: seq<RepoSkill>, clean: string, repo: string)
    requires WellFormed(skills, repo)
    ensures WellFormed(RepoStep(skills, clean, repo), repo)
    ensures |RepoStep(skills, clean, repo)| >= |skills|
  {
    var leading := |clean| - |LStrip(clean)|;
    var content := Strip(clean);
    var r := RepoStep(skills, clean, repo);
    if leading <= 5 && NameFormat(content) {
      assert r == skills + [RepoSkill(content, "", repo)];
      assert forall k :: 0 <= k < |skills| ==> r[k] == skills[k];
    } else if leading >= 6 && skills != [] {
      var n := |skills| - 1;
      var last := skills[n].(description := skills[n].description + content + " ");
      assert r == skills[..n] + [last];
      assert last.description[|last.description| - 1] == ' ';
      assert RepoSkillOk(last, repo);
      assert forall k :: 0 <= k < n ==> r[k] == skills[k];
    }
  }

  /** Every skill found has a name-format name and the repository, and a description that is empty or ends in a space. */
  lemma {:induction false} RepoScanWellFormed(lines: seq<string>, inSection: bool, skills: seq<RepoSkill>, repo: string)
    requires WellFormed(skills, repo)
    ensures WellFormed(RepoScan(lines, inSection, skills, repo), repo)
    ensures |RepoScan(lines, inSection, skills, repo)| >= |skills|
    decreases |lines|
  {
    if lines != [] {
      var line := lines[0];
      if Contains(line, "Available Skills") {
        RepoScanWellFormed(lines[1..], true, skills, repo);
      } else if !inSection {
        RepoScanWellFormed(lines[1..], false, skills, repo);
      } else {
        var clean := RStrip(Replace(line, Bar, ""));
        if Strip(clean) == [] {
          RepoScanWellFormed(lines[1..], true, skills, repo);
        } else if !StopLine(line) {
          RepoStepWellFormed(skills, clean, repo);
          RepoScanWellFormed(lines[1..], true, RepoStep(skills, clean, repo), repo);
        }
      }
    }
  }

  /** Lines before the first "Available Skills" line are ignored whatever they hold. */
  lemma {:induction false} RepoScanIgnoresPreamble(pre: seq<string>, rest: seq<string>, repo: string)
    requires forall k :: 0 <= k < |pre| ==> !Contains(pre[k], "Available Skills")
    ensures RepoScan(pre + rest, false, [], repo) == RepoScan(rest, false, [], repo)
    decreases |pre|
  {
    if pre != [] {
      assert (pre + rest)[0] == pre[0];
      assert (pre + rest)[1..] == pre[1..] + rest;
      RepoScanIgnoresPreamble(pre[1..], rest, repo);
    } else {
      assert pre + rest == rest;
    }
  }

  /** Nothing after a stop line in the section is read. */
  lemma RepoScanStops(line: string, rest: seq<string>, skills: seq<RepoSkill>, repo: string)
    requires !Contains(line, "Available Skills") && StopLine(line)
    requires Strip(RStrip(Replace(line, Bar, ""))) != []
    ensures RepoScan([line] + rest, true, skills, repo) == skills
  {
    assert ([line] + rest)[0] == line;
  }

  /** `get_repo_skills` over the command's output, the scan running from the first line. */
  method GetRepoSkills(stdout: Option<string>, stderr: Option<string>, repo: string)
    returns (skills: seq<RepoSkill>, err: Option<string>)
    ensures stdout.None? || stdout.value == "" ==> skills == [] && err == stderr
    ensures stdout.Some? && stdout.value != "" ==>
      err.None? && skills == RepoScan(SplitLines(StripAnsi(stdout.value)), false, [], repo)
  {
    if stdout.None? || stdout.value == "" {
      return [], stderr;
    }
    var lines := SplitLines(StripAnsi(stdout.value));
    skills := [];
    var inSection := false;
    var current: Option<string> := None;
    var i := 0;
    while i < |lines|
      invariant 0 <= i <= |lines|
      invariant RepoScan(lines[i..], inSection, skills, repo) == RepoScan(lines, false, [], repo)
      invariant current.None? <==> skills == []
    {
      var stop;
      stop, inSection, skills, current := RepoLine(lines[i..], inSection, skills, current, repo);
      if stop {
        break;
      }
      i := i + 1;
    }
    if i == |lines| {
      assert lines[i..] == [];
    }
    err := None;
  }

  /** `RepoScan` on its first line. */
  lemma RepoScanHead(lines: seq<string>, inSection: bool, skills: seq<RepoSkill>, repo: string)
    requires lines != []
    ensures var line := lines[0];
      var clean := RStrip(Replace(line, Bar, ""));
      RepoScan(lines, inSection, skills, repo)
      == if Contains(line, "Available Skills") then RepoScan(lines[1..], true, skills, repo)
         else if !inSection then RepoScan(lines[1..], false, skills, repo)
         else if Strip(clean) == [] then RepoScan(lines[1..], true, skills, repo)
         else if StopLine(line) then skills
         else RepoScan(lines[1..], true, RepoStep(skills, clean, repo), repo)
  {
  }

  /** One pass of the loop of `get_repo_skills` over the first of the remaining lines; `stop` is its `break`. */
  method RepoLine(lines: seq<string>, inSection: bool, skills: seq<RepoSkill>, current: Option<string>, repo: string)
    returns (stop: bool, inSection': bool, skills': seq<RepoSkill>, current': Option<string>)
    requires lines != []
    requires current.None? <==> skills == []
    ensures stop ==> skills' == skills && RepoScan(lines, inSection, skills, repo) == skills
    ensures !stop ==> RepoScan(lines[1..], inSection', skills', repo) == RepoScan(lines, inSection, skills, repo)
    ensures current'.None? <==> skills' == []
  {
    stop, inSection', skills', current' := false, inSection, skills, current;
    var line := lines[0];
    RepoScanHead(lines, inSection, skills, repo);
    if Contains(line, "Available Skills") {
      inSection' := true;
    } else if inSection {
      var clean := RStrip(Replace(line, Bar, ""));
      if Strip(clean) != [] {
        if StopLine(line) {
          stop := true;
          return;
        }
        skills', current' := RepoAdd(skills, current, clean, repo);
      }
    }
  }

  /** A listed line of the section: a new skill, or more description for the current one. */
  method RepoAdd(skills: seq<RepoSkill>, current: Option<string>, clean: string, repo: string)
    returns (skills': seq<RepoSkill>, current': Option<string>)
    requires current.None? <==> skills == []
    ensures skills' == RepoStep(skills, clean, repo)
    ensures current'.None? <==> skills' == []
  {
    skills', current' := skills, current;
    var leading := |clean| - |LStrip(clean)|;
    var content := Strip(clean);
    if leading <= 5 && NameFormat(content) {
      current' := Some(content);
      skills' := skills + [RepoSkill(content, "", repo)];
    } else if leading >= 6 && current.Some? {
      var last := skills[|skills| - 1];
      skills' := skills[..|skills| - 1] + [last.(description := last.description + content + " ")];
    }
  }

  // ---------------------------------------------------------------------------
  // extract_flowchart_from_markdown

  /** The length of the leading run of decimal digits. */
  function DigitsEnd(s: string, i: nat): (j: nat)
    requires i <= |s|
    ensures i <= j <= |s|
    ensures forall k :: i <= k < j ==> '0' <= s[k] <= '9'
    ensures j == |s| || !('0' <= s[j] <= '9')
    decreases |s| - i
  {
    if i == |s| || !('0' <= s[i] <= '9') then i else DigitsEnd(s, i + 1)
  }

  function SpacesEnd(s: string, i: nat): (j: nat)
    requires i <= |s|
    ensures i <= j <= |s|
    ensures forall k :: i <= k < j ==> IsSpace(s[k])
    ensures j == |s| || !IsSpace(s[j])
    decreases |s| - i
  {
    if i == |s| || !IsSpace(s[i]) then i else SpacesEnd(s, i + 1)
  }

  /**
   * `^\d+\.\s+(.+)` on a stripped line: digits, a dot, at least one space, and the
   * captured rest, which must not be empty.
   */
  function NumberedItem(line: string): (r: Option<string>)
    ensures r.Some? ==> r.value != [] && exists k :: 2 < k <= |line| && r.value == line[k..]
  {
    var d := DigitsEnd(line, 0);
    if d == 0 || d == |line| || line[d] != '.' then None
    else
      var e := SpacesEnd(line, d + 1);
      if e == d + 1 || e == |line| then None else Some(line[e..])
  }

  const StepHeadings: seq<string> := ["steps", "instructions", "how to use", "usage"]

  /** `^#+\s*(Steps|Instructions|How to Use|Usage)`, case-insensitive. */
  predicate IsStepsHeading(line: string)
  {
    var hashes := HashesEnd(line, 0);
    hashes > 0 && exists k :: 0 <= k < |StepHeadings| && StartsWith(Lower(line[SpacesEnd(line, hashes)..]), StepHeadings[k])
  }

  function HashesEnd(s: string, i: nat): (j: nat)
    requires i <= |s|
    ensures i <= j <= |s|
    ensures forall k :: i <= k < j ==> s[k] == '#'
    ensures j == |s| || s[j] != '#'
    decreases |s| - i
  {
    if i == |s| || s[i] != '#' then i else HashesEnd(s, i + 1)
  }

  /** The step a stripped line in the steps section contributes: a numbered item, else a `- ` or `* ` bullet. */
  function SectionItem(line: string): seq<string>
  {
    var numbered := NumberedItem(line);
    if numbered.Some? then [numbered.value]
    else if StartsWith(line, "- ") || StartsWith(line, "* ") then [line[2..]]
    else []
  }

  /**
   * Strategy one over the remaining lines: a steps heading opens (or keeps open) the
   * section, any other heading inside it ends the scan.
   */
  function SectionSteps(lines: seq<string>, inSteps: bool): seq<string>
    decreases |lines|
  {
    if lines == [] then []
    else
      var line := Strip(lines[0]);
      if IsStepsHeading(line) then SectionSteps(lines[1..], true)
      else if !inSteps then SectionSteps(lines[1..], false)
      else if StartsWith(line, "#") then []
      else SectionItem(line) + SectionSteps(lines[1..], true)
  }

  /** Strategy two: every numbered item of the document. */
  function NumberedSteps(lines: seq<string>): seq<string>
  {
    if lines == [] then []
    else
      var item := NumberedItem(Strip(lines[|lines| - 1]));
      NumberedSteps(lines[..|lines| - 1]) + (if item.Some? then [item.value] else [])
  }

  function FlowSteps(lines: seq<string>): seq<string>
  {
    var section := SectionSteps(lines, false);
    if section != [] then section else NumberedSteps(lines)
  }

  /** A step's text made safe for a Mermaid label: `"` becomes `'`, and `;`, `(` and `)` are dropped. */
  function Sanitize(s: string): (r: string)
    ensures |r| <= |s|
    ensures forall i :: 0 <= i < |r| ==> r[i] !in "\";()"
  {
    if s == [] then []
    else
      var c := s[0];
      (if c == ';' || c == '(' || c == ')' then [] else [if c == '"' then '\'' else c]) + Sanitize(s[1..])
  }

  /** The label: at most 50 sanitised characters, with "..." whenever the step itself is longer than 50. */
  function Label(step: string): (r: string)
    ensures |r| <= 53
    ensures |step| <= 50 ==> r == Sanitize(step)
    ensures |step| > 50 ==> |r| >= 3 && r[|r| - 3..] == "..."
    ensures forall i :: 0 <= i < |r| && (|step| <= 50 || i < |r| - 3) ==> r[i] !in "\";()"
  {
    Take(Sanitize(step), 50) + (if |step| > 50 then "..." else "")
  }

  /** The text for step `i`: its node, and from the second step on the edge from the one before. */
  function Block(i: nat, step: string): string
  {
    "    step" + NatToString(i) + "[\"" + NatToString(i + 1) + ". " + Label(step) + "\"]\n"
    + (if i > 0 then "    step" + NatToString(i - 1) + " --> step" + NatToString(i) + "\n" else "")
  }

  function Mermaid(steps: seq<string>): string
  {
    if steps == [] then "graph TD;\n"
    else Mermaid(steps[..|steps| - 1]) + Block(|steps| - 1, steps[|steps| - 1])
  }

  /** The chart starts with the header and holds every step's node and edge. */
  lemma MermaidProps(steps: seq<string>)
    ensures StartsWith(Mermaid(steps), "graph TD;\n")
    ensures forall i :: 0 <= i < |steps| ==> Contains(Mermaid(steps), Block(i, steps[i]))
  {
    MermaidHeader(steps);
    MermaidBlocks(steps);
  }

  lemma {:induction false} MermaidHeader(steps: seq<string>)
    ensures StartsWith(Mermaid(steps), "graph TD;\n")
  {
    if steps != [] {
      var init := steps[..|steps| - 1];
      MermaidHeader(init);
      var m := Mermaid(init);
      var b := Block(|init|, steps[|steps| - 1]);
      assert Mermaid(steps) == m + b;
      assert (m + b)[..10] == m[..10];
    }
  }

  lemma MermaidBlocks(steps: seq<string>)
    ensures forall i :: 0 <= i < |steps| ==> Contains(Mermaid(steps), Block(i, steps[i]))
  {
    forall i | 0 <= i < |steps|
      ensures Contains(Mermaid(steps), Block(i, steps[i]))
    {
      MermaidBlock(steps, i);
    }
  }

  lemma {:induction false} MermaidBlock(steps: seq<string>, i: nat)
    requires i < |steps|
    ensures Contains(Mermaid(steps), Block(i, steps[i]))
  {
    var init := steps[..|steps| - 1];
    var m := Mermaid(init);
    var b := Block(|init|, steps[|steps| - 1]);
    assert Mermaid(steps) == m + b;
    if i == |init| {
      ContainsSelf(b);
      ContainsConcat(m, b, b);
    } else {
      MermaidBlock(init, i);
      assert init[i] == steps[i];
      ContainsConcat(m, b, Block(i, steps[i]));
    }
  }

  /** Lines before the first steps heading contribute no steps to the section. */
  lemma {:induction false} SectionIgnoresPreamble(pre: seq<string>, rest: seq<string>)
    requires forall k :: 0 <= k < |pre| ==> !IsStepsHeading(Strip(pre[k]))
    ensures SectionSteps(pre + rest, false) == SectionSteps(rest, false)
    decreases |pre|
  {
    if pre != [] {
      assert (pre + rest)[0] == pre[0];
      assert (pre + rest)[1..] == pre[1..] + rest;
      SectionIgnoresPreamble(pre[1..], rest);
    } else {
      assert pre + rest == rest;
    }
  }

  /** Every fallback step is the non-empty text of a numbered item of the document, in document order. */
  lemma {:induction false} NumberedStepsProps(lines: seq<string>)
    ensures forall s :: s in NumberedSteps(lines) ==> s != [] && exists k :: 0 <= k < |lines| && NumberedItem(Strip(lines[k])) == Some(s)
    ensures |NumberedSteps(lines)| <= |lines|
  {
    if lines != [] {
      var init := lines[..|lines| - 1];
      NumberedStepsProps(init);
      forall s | s in NumberedSteps(lines)
        ensures s != [] && exists k :: 0 <= k < |lines| && NumberedItem(Strip(lines[k])) == Some(s)
      {
        if s in NumberedSteps(init) {
          var k :| 0 <= k < |init| && NumberedItem(Strip(init[k])) == Some(s);
          assert lines[k] == init[k];
        } else {
          assert NumberedItem(Strip(lines[|lines| - 1])) == Some(s);
        }
      }
    }
  }

  /** Strategy one's loop: the steps of the steps section. */
  method SectionStepsOf(lines: seq<string>) returns (steps: seq<string>)
    ensures steps == SectionSteps(lines, false)
  {
    steps := [];
    var inSteps := false;
    var i := 0;
    while i < |lines|
      invariant 0 <= i <= |lines|
      invariant steps + SectionSteps(lines[i..], inSteps) == SectionSteps(lines, false)
    {
      assert lines[i..][0] == lines[i] && lines[i..][1..] == lines[i + 1..];
      var stripped := Strip(lines[i]);
      if IsStepsHeading(stripped) {
        inSteps := true;
      } else if inSteps {
        if StartsWith(stripped, "#") {
          assert steps + [] == steps;
          break;
        }
        steps := steps + SectionItem(stripped);
      }
      i := i + 1;
    }
    if i == |lines| {
      assert lines[i..] == [];
    }
  }

  /** Strategy two's loop: every numbered item. */
  method NumberedStepsOf(lines: seq<string>) returns (steps: seq<string>)
    ensures steps == NumberedSteps(lines)
  {
    steps := [];
    for j := 0 to |lines|
      invariant steps == NumberedSteps(lines[..j])
    {
      assert lines[..j + 1][..j] == lines[..j];
      var numbered := NumberedItem(Strip(lines[j]));
      if numbered.Some? {
        steps := steps + [numbered.value];
      }
    }
    assert lines[..|lines|] == lines;
  }

  /** The Mermaid text, built step by step. */
  method MermaidOf(steps: seq<string>) returns (mermaid: string)
    ensures mermaid == Mermaid(steps)
  {
    mermaid := "graph TD;\n";
    for k := 0 to |steps|
      invariant mermaid == Mermaid(steps[..k])
    {
      assert steps[..k + 1][..k] == steps[..k];
      mermaid := mermaid + Block(k, steps[k]);
    }
    assert steps[..|steps|] == steps;
  }

  /**
   * `extract_flowchart_from_markdown`: no chart when neither strategy finds a step,
   * otherwise the chart of the steps found.
   */
  method ExtractFlowchart(content: string) returns (r: Option<string>)
    ensures r.None? <==> FlowSteps(SplitOn(content, '\n')) == []
    ensures r.Some? ==> r.value == Mermaid(FlowSteps(SplitOn(content, '\n')))
  {
    var lines := SplitOn(content, '\n');
    var steps := SectionStepsOf(lines);
    if steps == [] {
      steps := NumberedStepsOf(lines);
    }
    if steps == [] {
      return None;
    }
    var mermaid := MermaidOf(steps);
    r := Some(mermaid);
  }
}
