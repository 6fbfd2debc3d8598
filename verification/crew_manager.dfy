/**
 * The deterministic parts of the CrewAI investigation (src/agents/crew_manager.py):
 * the markdown prompt parser of `PromptLoader`, its built-in defaults, the
 * context handed to the agents, the keyword extraction of the
 * recommendation, and the fallback when the crew fails.
 *
 * The crew itself (three LLM agents run in sequence) is opaque: its final
 * text, or the error it raised, is an input.
 */
module CrewManager {
  import opened Wrappers
  import opened Strings

  const Verdicts: set<string> := {"BLOCK", "MANUAL_REVIEW", "APPROVE"}

  /** "MANUAL_REVIEW" contains "REVIEW", so the source's first review test is subsumed by its second. */
  lemma ManualReviewMentionsReview(s: string)
    ensures Contains(s, "MANUAL_REVIEW") ==> Contains(s, "REVIEW")
  {
    if Contains(s, "MANUAL_REVIEW") {
      ContainsIffOccurs("MANUAL_REVIEW", "REVIEW");
      assert OccursAt("MANUAL_REVIEW", "REVIEW", 7);
      ContainsTransitive(s, "MANUAL_REVIEW", "REVIEW");
    }
  }

  /**
   * `_extract_recommendation`: keywords looked for in the upper-cased text,
   * BLOCK or REJECT first, then REVIEW, then APPROVE or ALLOW; anything
   * unclear is sent to manual review.
   */
  function ExtractRecommendation(result: string): (r: string)
    ensures r in Verdicts
    ensures r == "BLOCK" <==> Contains(ToUpper(result), "BLOCK") || Contains(ToUpper(result), "REJECT")
    ensures r == "APPROVE" <==>
              && !Contains(ToUpper(result), "BLOCK") && !Contains(ToUpper(result), "REJECT")
              && !Contains(ToUpper(result), "REVIEW")
              && (Contains(ToUpper(result), "APPROVE") || Contains(ToUpper(result), "ALLOW"))
  {
    var upper := ToUpper(result);
    ManualReviewMentionsReview(upper);
    if Contains(upper, "BLOCK") || Contains(upper, "REJECT") then "BLOCK"
    else if Contains(upper, "MANUAL_REVIEW") || Contains(upper, "REVIEW") then "MANUAL_REVIEW"
    else if Contains(upper, "APPROVE") || Contains(upper, "ALLOW") then "APPROVE"
    else "MANUAL_REVIEW"
  }

  /** The extraction ignores letter case. */
  lemma ExtractIgnoresCase(result: string)
    ensures ExtractRecommendation(ToUpper(result)) == ExtractRecommendation(result)
  {
    ToUpperIdempotent(result);
  }

  /** Manual review is chosen exactly when nothing says block and either review is mentioned or nothing approves. */
  lemma ExtractManualReview(result: string)
    ensures var u := ToUpper(result);
            ExtractRecommendation(result) == "MANUAL_REVIEW" <==>
              && !Contains(u, "BLOCK") && !Contains(u, "REJECT")
              && (Contains(u, "REVIEW") || (!Contains(u, "APPROVE") && !Contains(u, "ALLOW")))
  {
  }

  /** The agent prompt: the three fields an `Agent` is built from. */
  datatype Prompt = Prompt(role: string, goal: string, backstory: string)

  /** `_get_default_prompt`: the three built-in agents, and a generic prompt named after any other. */
  function DefaultPrompt(agentName: string): (p: Prompt)
    ensures agentName !in {"pattern_detector", "risk_quantifier", "decision_authority"} ==>
              p == Prompt(agentName + " Agent", "Analyze fraud data", "Fraud detection specialist")
  {
    if agentName == "pattern_detector" then
      Prompt("Senior Fraud Pattern Detection Specialist",
             "Analyze transaction data to identify known fraud patterns, velocity attacks, card testing, and behavioral anomalies",
             "Expert in recognizing fraud patterns with 15+ years of experience in velocity fraud, card testing, account takeover, and geographic anomalies.")
    else if agentName == "risk_quantifier" then
      Prompt("Fraud Risk Quantification Expert",
             "Calculate precise fraud probability scores based on ML predictions, pattern matches, and contextual factors",
             "Data scientist specializing in fraud risk scoring with 10+ years experience combining multiple fraud signals into unified risk scores.")
    else if agentName == "decision_authority" then
      Prompt("Senior Fraud Decision Authority",
             "Make final fraud determination based on all available evidence. Recommend ALLOW, BLOCK, or MANUAL_REVIEW",
             "Final decision maker with 20+ years of fraud prevention experience, balancing false positives vs fraud losses.")
    else Prompt(agentName + " Agent", "Analyze fraud data", "Fraud detection specialist")
  }

  /** A line opening a section. */
  predicate IsHeader(line: string) {
    StartsWith(line, "## ")
  }

  /** The section name a header line opens: the rest of the line, stripped and lower-cased. */
  function HeaderName(line: string): string
    requires IsHeader(line)
  {
    ToLower(Strip(line[3..]))
  }

  /** The section name of a header written as `## name`. */
  function SectionKey(name: string): string {
    ToLower(Strip(name))
  }

  /**
   * Saving the section being read: its lines joined and stripped. No
   * section is open while the name is empty (Python's `None` and `''` are
   * both false).
   */
  function Save(sections: map<string, string>, current: string, content: seq<string>): map<string, string> {
    if current != "" then sections[current := Strip(Join(content, '\n'))] else sections
  }

  /** The loop of `load_prompt` over the remaining lines, with the sections so far, the open section and its lines. */
  function ParseLines(lines: seq<string>, sections: map<string, string>, current: string, content: seq<string>): map<string, string>
    decreases |lines|
  {
    if |lines| == 0 then Save(sections, current, content)
    else if IsHeader(lines[0]) then ParseLines(lines[1..], Save(sections, current, content), HeaderName(lines[0]), [])
    else if current != "" then ParseLines(lines[1..], sections, current, content + [lines[0]])
    else ParseLines(lines[1..], sections, current, content)
  }

  /** The section map of a prompt file's content. */
  function ParseSections(content: string): map<string, string> {
    ParseLines(Split(content, '\n'), map[], "", [])
  }

  predicate NoHeaders(lines: seq<string>) {
    forall i :: 0 <= i < |lines| ==> !IsHeader(lines[i])
  }

  /**
   * Lines that open no section go to the open section, or nowhere when none
   * is open (the lines before the first header are discarded).
   */
  lemma {:induction false} ParseBody(body: seq<string>, rest: seq<string>, sections: map<string, string>, current: string, content: seq<string>)
    requires NoHeaders(body)
    ensures ParseLines(body + rest, sections, current, content)
            == ParseLines(rest, sections, current, if current != "" then content + body else content)
    decreases |body|
  {
    if |body| > 0 {
      var lines := body + rest;
      assert lines[0] == body[0] && !IsHeader(lines[0]);
      assert lines[1..] == body[1..] + rest;
      if current != "" {
        var content' := content + [body[0]];
        assert ParseLines(lines, sections, current, content) == ParseLines(lines[1..], sections, current, content');
        ParseBody(body[1..], rest, sections, current, content');
        assert content' + body[1..] == content + body;
      } else {
        assert ParseLines(lines, sections, current, content) == ParseLines(lines[1..], sections, current, content);
        ParseBody(body[1..], rest, sections, current, content);
      }
    } else {
      assert body + rest == rest && content + body == content;
    }
  }

  /** The lines of a prompt file made of a header and a body per section, in order. */
  function RenderSections(secs: seq<(string, seq<string>)>): seq<string> {
    if |secs| == 0 then []
    else ["## " + secs[0].0] + secs[0].1 + RenderSections(secs[1..])
  }

  /** The sections in order, each later one with the same name replacing the earlier one. */
  function SaveAll(sections: map<string, string>, secs: seq<(string, seq<string>)>): map<string, string>
    decreases |secs|
  {
    if |secs| == 0 then sections
    else SaveAll(Save(sections, SectionKey(secs[0].0), secs[0].1), secs[1..])
  }

  predicate WellFormedSections(secs: seq<(string, seq<string>)>) {
    forall k :: 0 <= k < |secs| ==> NoHeaders(secs[k].1)
  }

  predicate SingleLines(lines: seq<string>) {
    forall k :: 0 <= k < |lines| ==> '\n' !in lines[k]
  }

  /** No name or body line holds a line break. */
  predicate SingleLineSections(secs: seq<(string, seq<string>)>) {
    forall k :: 0 <= k < |secs| ==> '\n' !in secs[k].0 && SingleLines(secs[k].1)
  }

  lemma {:induction false} RenderedSingleLines(secs: seq<(string, seq<string>)>)
    requires SingleLineSections(secs)
    ensures SingleLines(RenderSections(secs))
    ensures |secs| >= 1 ==> |RenderSections(secs)| >= 1
    decreases |secs|
  {
    if |secs| > 0 {
      RenderedSingleLines(secs[1..]);
      var header := "## " + secs[0].0;
      assert '\n' !in header by {
        assert forall k :: 3 <= k < |header| ==> header[k] == secs[0].0[k - 3];
      }
      var lines := [header] + secs[0].1 + RenderSections(secs[1..]);
      forall k | 0 <= k < |lines|
        ensures '\n' !in lines[k]
      {
        if k == 0 {
        } else if k < 1 + |secs[0].1| {
          assert lines[k] == secs[0].1[k - 1];
        } else {
          assert lines[k] == RenderSections(secs[1..])[k - 1 - |secs[0].1|];
        }
      }
    }
  }

  lemma {:induction false} ParseRendered(secs: seq<(string, seq<string>)>, sections: map<string, string>, current: string, content: seq<string>)
    requires WellFormedSections(secs)
    ensures ParseLines(RenderSections(secs), sections, current, content) == SaveAll(Save(sections, current, content), secs)
    decreases |secs|
  {
    if |secs| > 0 {
      var (name, body) := secs[0];
      var header := "## " + name;
      assert IsHeader(header) && header[3..] == name;
      var lines := [header] + body + RenderSections(secs[1..]);
      assert lines[1..] == body + RenderSections(secs[1..]);
      var key := SectionKey(name);
      ParseBody(body, RenderSections(secs[1..]), Save(sections, current, content), key, []);
      if key != "" {
        assert [] + body == body;
      }
      ParseRendered(secs[1..], Save(sections, current, content), key, if key != "" then body else []);
      if key == "" {
        assert Save(Save(sections, current, content), key, []) == Save(sections, current, content);
      }
    }
  }

  /**
   * Parsing a rendered prompt gives each section's body, joined and
   * stripped, the last section of a name winning and an empty name saving
   * nothing.
   */
  lemma ParseSectionsOfRendered(secs: seq<(string, seq<string>)>)
    requires WellFormedSections(secs) && SingleLineSections(secs) && |secs| >= 1
    ensures ParseSections(Join(RenderSections(secs), '\n')) == SaveAll(map[], secs)
  {
    RenderedSingleLines(secs);
    SplitJoin(RenderSections(secs), '\n');
    ParseRendered(secs, map[], "", []);
  }

  /** A second section with the same name replaces the first. */
  lemma RepeatedHeaderLastWins(name: string, first: seq<string>, second: seq<string>)
    requires NoHeaders(first) && NoHeaders(second) && SectionKey(name) != ""
    ensures ParseLines(RenderSections([(name, first), (name, second)]), map[], "", [])
            == map[SectionKey(name) := Strip(Join(second, '\n'))]
  {
    ParseRendered([(name, first), (name, second)], map[], "", []);
    assert Save(map[], "", []) == map[];
    SaveSameNameTwice(name, first, second);
  }

  lemma SaveSameNameTwice(name: string, first: seq<string>, second: seq<string>)
    requires SectionKey(name) != ""
    ensures SaveAll(map[], [(name, first), (name, second)]) == map[SectionKey(name) := Strip(Join(second, '\n'))]
  {
    var secs := [(name, first), (name, second)];
    var key := SectionKey(name);
    var m1 := Save(map[], key, first);
    var m2 := Save(m1, key, second);
    assert secs[1..] == [(name, second)] && secs[1..][1..] == [];
    assert SaveAll(map[], secs) == SaveAll(m1, secs[1..]);
    assert SaveAll(m1, secs[1..]) == SaveAll(m2, []) == m2;
  }

  /** Every section name found is the non-empty name of some header line. */
  lemma {:induction false} ParsedKeysAreHeaders(lines: seq<string>, sections: map<string, string>, current: string, content: seq<string>)
    ensures forall k :: k in ParseLines(lines, sections, current, content) ==>
              k in sections || (k == current && k != "") ||
              (k != "" && exists i :: 0 <= i < |lines| && IsHeader(lines[i]) && HeaderName(lines[i]) == k)
    decreases |lines|
  {
    if |lines| > 0 {
      var content' := if IsHeader(lines[0]) then [] else if current != "" then content + [lines[0]] else content;
      var sections' := if IsHeader(lines[0]) then Save(sections, current, content) else sections;
      var current' := if IsHeader(lines[0]) then HeaderName(lines[0]) else current;
      ParsedKeysAreHeaders(lines[1..], sections', current', content');
      forall k | k in ParseLines(lines, sections, current, content)
        ensures k in sections || (k == current && k != "") ||
                (k != "" && exists i :: 0 <= i < |lines| && IsHeader(lines[i]) && HeaderName(lines[i]) == k)
      {
        if k !in sections && k != current {
          if k in sections' {
            assert false;
          } else if k == current' {
            assert IsHeader(lines[0]) && HeaderName(lines[0]) == k;
          } else {
            var i :| 0 <= i < |lines[1..]| && IsHeader(lines[1..][i]) && HeaderName(lines[1..][i]) == k;
            assert lines[i + 1] == lines[1..][i];
          }
        }
      }
    }
  }

  /** A dictionary lookup with `''` as the default. */
  function SectionOr(sections: map<string, string>, key: string): string {
    if key in sections then sections[key] else ""
  }

  /** What reading the prompt file gives: no file, an error while reading, or its content. */
  datatype PromptFile = Missing | Unreadable | Content(text: string)

  /**
   * `load_prompt`: the role, goal and backstory sections of the file, `''`
   * for any that is absent; the built-in default when the file is missing
   * or cannot be read.
   */
  function LoadPrompt(agentName: string, file: PromptFile): (p: Prompt)
    ensures !file.Content? ==> p == DefaultPrompt(agentName)
    ensures file.Content? ==>
              var sections := ParseSections(file.text);
              && (p.role == "" || ("role" in sections && p.role == sections["role"]))
              && (p.goal == "" || ("goal" in sections && p.goal == sections["goal"]))
              && (p.backstory == "" || ("backstory" in sections && p.backstory == sections["backstory"]))
              && ("role" in sections ==> p.role == sections["role"])
              && ("goal" in sections ==> p.goal == sections["goal"])
              && ("backstory" in sections ==> p.backstory == sections["backstory"])
  {
    match file
    case Content(text) =>
      var sections := ParseSections(text);
      Prompt(SectionOr(sections, "role"), SectionOr(sections, "goal"), SectionOr(sections, "backstory"))
    case _ => DefaultPrompt(agentName)
  }

  /** A file with a role, a goal and a backstory section yields exactly their stripped bodies. */
  lemma LoadThreeSections(agentName: string, role: seq<string>, goal: seq<string>, backstory: seq<string>)
    requires NoHeaders(role) && NoHeaders(goal) && NoHeaders(backstory)
    requires SingleLines(role) && SingleLines(goal) && SingleLines(backstory)
    ensures var text := Join(RenderSections([("Role", role), ("Goal", goal), ("Backstory", backstory)]), '\n');
            LoadPrompt(agentName, Content(text))
            == Prompt(Strip(Join(role, '\n')), Strip(Join(goal, '\n')), Strip(Join(backstory, '\n')))
  {
    var secs := [("Role", role), ("Goal", goal), ("Backstory", backstory)];
    assert SingleLineSections(secs) && WellFormedSections(secs);
    ParseSectionsOfRendered(secs);
    SaveThreeSections(role, goal, backstory);
  }

  lemma StandardSectionKeys()
    ensures SectionKey("Role") == "role" && SectionKey("Goal") == "goal" && SectionKey("Backstory") == "backstory"
  {
    RoleKey();
    GoalKey();
    BackstoryKey();
  }

  lemma RoleKey()
    ensures SectionKey("Role") == "role"
  {
    StripNoop("Role");
    var l := ToLower("Role");
    assert l[0] == 'r' && l[1] == 'o' && l[2] == 'l' && l[3] == 'e';
    assert l == "role";
  }

  lemma GoalKey()
    ensures SectionKey("Goal") == "goal"
  {
    StripNoop("Goal");
    var l := ToLower("Goal");
    assert l[0] == 'g' && l[1] == 'o' && l[2] == 'a' && l[3] == 'l';
    assert l == "goal";
  }

  lemma BackstoryKey()
    ensures SectionKey("Backstory") == "backstory"
  {
    StripNoop("Backstory");
    var l := ToLower("Backstory");
    assert l[0] == 'b' && l[1] == 'a' && l[2] == 'c' && l[3] == 'k' && l[4] == 's';
    assert l[5] == 't' && l[6] == 'o' && l[7] == 'r' && l[8] == 'y';
    assert l == "backstory";
  }

  lemma SaveAllCons(sections: map<string, string>, name: string, body: seq<string>, rest: seq<(string, seq<string>)>)
    ensures SaveAll(sections, [(name, body)] + rest) == SaveAll(Save(sections, SectionKey(name), body), rest)
  {
    assert ([(name, body)] + rest)[1..] == rest;
  }

  lemma SaveThreeSections(role: seq<string>, goal: seq<string>, backstory: seq<string>)
    ensures var m := SaveAll(map[], [("Role", role), ("Goal", goal), ("Backstory", backstory)]);
            && "role" in m && m["role"] == Strip(Join(role, '\n'))
            && "goal" in m && m["goal"] == Strip(Join(goal, '\n'))
            && "backstory" in m && m["backstory"] == Strip(Join(backstory, '\n'))
  {
    StandardSectionKeys();
    var m0 := Save(map[], "role", role);
    var m1 := Save(m0, "goal", goal);
    var m2 := Save(m1, "backstory", backstory);
    SaveAllCons(map[], "Role", role, [("Goal", goal), ("Backstory", backstory)]);
    SaveAllCons(m0, "Goal", goal, [("Backstory", backstory)]);
    SaveAllCons(m1, "Backstory", backstory, []);
    assert [("Role", role), ("Goal", goal), ("Backstory", backstory)] == [("Role", role)] + [("Goal", goal), ("Backstory", backstory)];
    assert [("Goal", goal), ("Backstory", backstory)] == [("Goal", goal)] + [("Backstory", backstory)];
    assert [("Backstory", backstory)] == [("Backstory", backstory)] + [];
  }

  /** The velocity check as handed to the crew. */
  datatype VelocityCheck = VelocityCheck(isFraud: bool, reason: string)

  /** A similar case from the knowledge base. */
  datatype SimilarCase = SimilarCase(fraudType: string, similarityScore: real, description: string)

  /** One piece of the context appended to the pattern task. */
  datatype ContextPart =
    | VelocityAlert(reason: string)
    | RedisHeading
    | RedisItem(text: string)
    | CasesHeading
    | CaseItem(similar: SimilarCase)

  function VelocityParts(v: Option<VelocityCheck>): (parts: seq<ContextPart>)
    ensures |parts| <= 1
    ensures |parts| == 1 <==> v.Some? && v.value.isFraud
    ensures |parts| == 1 ==> parts[0] == VelocityAlert(v.value.reason)
  {
    if v.Some? && v.value.isFraud then [VelocityAlert(v.value.reason)] else []
  }

  function RedisParts(notes: Option<seq<string>>): (parts: seq<ContextPart>)
    ensures notes.None? || |notes.value| == 0 ==> parts == []
    ensures notes.Some? && |notes.value| > 0 ==>
              |parts| == |notes.value| + 1 && parts[0] == RedisHeading
              && forall k :: 0 <= k < |notes.value| ==> parts[k + 1] == RedisItem(notes.value[k])
  {
    match notes
    case None => []
    case Some(ns) =>
      if |ns| == 0 then []
      else [RedisHeading] + seq(|ns|, k requires 0 <= k < |ns| => RedisItem(ns[k]))
  }

  /** The similar cases, only the first three. */
  function CaseParts(cases: Option<seq<SimilarCase>>): (parts: seq<ContextPart>)
    ensures cases.None? || |cases.value| == 0 ==> parts == []
    ensures cases.Some? && |cases.value| > 0 ==>
              && |parts| == 1 + (if |cases.value| < 3 then |cases.value| else 3)
              && parts[0] == CasesHeading
              && forall k :: 1 <= k < |parts| ==> parts[k] == CaseItem(cases.value[k - 1])
  {
    match cases
    case None => []
    case Some(cs) =>
      if |cs| == 0 then []
      else
        var top := if |cs| <= 3 then cs else cs[..3];
        [CasesHeading] + seq(|top|, k requires 0 <= k < |top| => CaseItem(top[k]))
  }

  /** The context string's pieces: velocity alert, Redis memory, similar cases, in that order. */
  function BuildContext(v: Option<VelocityCheck>, notes: Option<seq<string>>, cases: Option<seq<SimilarCase>>): (parts: seq<ContextPart>)
    ensures |parts| == |VelocityParts(v)| + |RedisParts(notes)| + |CaseParts(cases)|
  {
    VelocityParts(v) + RedisParts(notes) + CaseParts(cases)
  }

  predicate IsCaseItem(p: ContextPart) {
    p.CaseItem?
  }

  /** However many similar cases come in, the context shows at most three. */
  lemma ContextShowsAtMostThreeCases(v: Option<VelocityCheck>, notes: Option<seq<string>>, cases: Option<seq<SimilarCase>>)
    ensures var parts := BuildContext(v, notes, cases);
            forall k :: 0 <= k < |parts| && IsCaseItem(parts[k]) ==>
              |VelocityParts(v)| + |RedisParts(notes)| < k <= |VelocityParts(v)| + |RedisParts(notes)| + 3
  {
    var parts := BuildContext(v, notes, cases);
    var a := |VelocityParts(v)|;
    var b := a + |RedisParts(notes)|;
    forall k | 0 <= k < |parts| && IsCaseItem(parts[k])
      ensures b < k <= b + 3
    {
      if k >= b {
        assert parts[k] == CaseParts(cases)[k - b];
      }
    }
  }

  /** What `investigate` returns: the recommendation, the analysis text and the error, if any. */
  datatype CrewReport = CrewReport(recommendation: string, analysis: string, error: Option<string>)

  /**
   * `investigate` given the crew's outcome: the extracted recommendation of
   * its final text, or manual review with the error when the crew raised.
   */
  function Investigate(kickoff: Result<string, string>): (r: CrewReport)
    ensures r.recommendation in Verdicts
    ensures kickoff.Failure? ==>
              r.recommendation == "MANUAL_REVIEW" && r.error == Some(kickoff.error)
              && r.analysis == "Investigation failed: " + kickoff.error
    ensures kickoff.Success? ==>
              r.recommendation == ExtractRecommendation(kickoff.value) && r.analysis == kickoff.value && r.error.None?
  {
    match kickoff
    case Success(text) => CrewReport(ExtractRecommendation(text), text, None)
    case Failure(e) => CrewReport("MANUAL_REVIEW", "Investigation failed: " + e, Some(e))
  }
}
