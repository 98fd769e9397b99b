/**
 * The generation prompt: one fixed template in which the niche (segment), the
 * output language and the target region are substituted. The template is kept
 * as a sequence of literal texts and holes, the way a template literal is
 * built, so that what the prompt says about each parameter can be proved once
 * over the rendering.
 */
module Prompt {
  import opened Strings

  datatype Param = Segment | Language | Region

  datatype Part = Text(text: string) | Hole(param: Param)

  datatype Args = Args(segment: string, language: string, region: string)

  function Value(a: Args, p: Param): string
  {
    match p
    case Segment => a.segment
    case Language => a.language
    case Region => a.region
  }

  function PartText(part: Part, a: Args): string
  {
    match part
    case Text(t) => t
    case Hole(p) => Value(a, p)
  }

  /** Literal texts as they are, holes replaced by their argument, in order. */
  function Render(parts: seq<Part>, a: Args): string
  {
    if parts == [] then "" else PartText(parts[0], a) + Render(parts[1..], a)
  }

  /**
   * The template literal of the request's contents, line by line; a line with
   * a substitution is split around its hole. It is kept in four consecutive
   * stretches: the role and task, the compliance protocols, the first output
   * requirements and the remaining ones with the closing instruction.
   */
  const Template: seq<Part> := Header + Protocols + Research + Deliverables

  const Header: seq<Part> :=
    [ Text("\n"),
      Text("      ROLE: Advanced Marketing Strategist & Ad Compliance Expert.\n"),
      Text("      \n"),
      Text("      TASK: Create a \"Lead Fisher\" strategy (capture Emails/WhatsApp) for the niche: \""), Hole(Segment), Text("\".\n"),
      Text("      \n") ]

  const Protocols: seq<Part> :=
    [ Text("      CRITICAL COMPLIANCE PROTOCOLS (MUST FOLLOW):\n"),
      Text("      1. IDIOMA (LANGUAGE): Output strictly in "), Hole(Language), Text(".\n"),
      Text("      2. SEGMENTATION: \n"),
      Text("         - Focus on region: "), Hole(Region), Text(".\n"),
      Text("         - Use INTERESTS and BEHAVIORS relevant to this region.\n"),
      Text("         - DO NOT target based on sensitive personal attributes (health, race, specific financial status, religion, sexual orientation).\n"),
      Text("      3. SAFETY & CONTENT POLICIES (Meta/Google/TikTok):\n"),
      Text("         - NO EXAGGERATED PROMISES: Avoid \"100% guaranteed\", \"Cura milagrosa\", \"Lucro f\U{E1}cil/r\U{E1}pido\", \"Fique rico\". Use neutral, verifiable language.\n"),
      Text("         - NO DIRECT ADVICE: Avoid medical, legal, or financial advice. Use educational tone.\n"),
      Text("         - NO TRADEMARKS: Do not use copyrighted brand names (e.g., instead of \"Netflix\", use \"Streaming Apps\").\n"),
      Text("         - NO SENSITIVE THEMES: Avoid politics, violence, adult content, or discrimination.\n"),
      Text("      \n") ]

  const Research: seq<Part> :=
    [ Text("      OUTPUT REQUIREMENTS:\n"),
      Text("      1. Competitor Analysis: Keywords to search in Ads Lib (in "), Hole(Language), Text(").\n"),
      Text("      2. Lead Magnet: A specific, high-value \"Bait\" (PDF, Aula, Template) to exchange for contact info, culturally relevant to "), Hole(Region), Text(".\n") ]

  const Deliverables: seq<Part> :=
    [ Text("      3. Creative Prompts: \n"),
      Text("         - Detailed prompts for AI Video/Image generation that are SAFE and VISUALLY STUNNING.\n"),
      Text("         - Thumbnail text that is catchy but compliant (in "), Hole(Language), Text(").\n"),
      Text("      4. Ad Copy: Persuasive text that adheres to the safety rules above (in "), Hole(Language), Text(").\n"),
      Text("      5. Automation: Questions to qualify the lead (in "), Hole(Language), Text(").\n"),
      Text("\n"),
      Text("      Return ONLY valid JSON matching the schema.\n"),
      Text("      ") ]

  /** The request's contents for one niche, language and region. */
  function BuildPrompt(segment: string, language: string, region: string): string
  {
    Render(Template, Args(segment, language, region))
  }

  // ---------------------------------------------------------------------------
  // Rendering, in general

  lemma {:induction false} RenderAppend(p: seq<Part>, q: seq<Part>, a: Args)
    ensures Render(p + q, a) == Render(p, a) + Render(q, a)
  {
    if p != [] {
      assert (p + q)[0] == p[0] && (p + q)[1..] == p[1..] + q;
      RenderAppend(p[1..], q, a);
      calc {
        Render(p + q, a);
        PartText(p[0], a) + Render(p[1..] + q, a);
        PartText(p[0], a) + (Render(p[1..], a) + Render(q, a));
        Render(p, a) + Render(q, a);
      }
    } else {
      assert p + q == q;
    }
  }

  predicate StartsWith(s: string, t: string)
  {
    |t| <= |s| && s[..|t|] == t
  }

  predicate EndsWith(s: string, t: string)
  {
    |t| <= |s| && s[|s| - |t|..] == t
  }

  /** Text found in the middle of a string is found in the whole. */
  lemma InfixWithin(t: string, u: string, m: string, w: string)
    requires IsInfix(t, m)
    ensures IsInfix(t, u + m + w)
  {
    var k :| OccursAt(t, m, k);
    var s := u + m + w;
    assert s[|u| + k..|u| + k + |t|] == m[k..k + |t|];
    assert OccursAt(t, s, |u| + k);
  }

  /** A line split around its hole renders as the argument between the two texts. */
  lemma RenderLine(before: string, p: Param, after: string, a: Args)
    ensures Render([Text(before), Hole(p), Text(after)], a) == before + Value(a, p) + after
  {
    var line := [Text(before), Hole(p), Text(after)];
    assert line[1..] == [Hole(p), Text(after)] && line[1..][1..] == [Text(after)];
    assert line[1..][1..][1..] == [];
    calc {
      Render(line, a);
      before + Render(line[1..], a);
      before + (Value(a, p) + Render(line[1..][1..], a));
      before + (Value(a, p) + (after + ""));
    }
  }

  /** A string with `left` at its end and `right` at the start of the rest of the line. */
  lemma AroundValue(before: string, v: string, after: string, left: string, right: string)
    requires EndsWith(before, left) && StartsWith(after, right)
    ensures IsInfix(left + v + right, before + v + after)
  {
    var x := left + v + right;
    var u, w := before[..|before| - |left|], after[|right|..];
    assert before == u + left && after == right + w;
    assert before + v + after == u + x + w;
    assert OccursAt(x, x, 0);
    InfixWithin(x, u, x, w);
  }

  /** A sequence is its part before `i - 1`, the three parts around `i` and the rest. */
  lemma SplitAround(parts: seq<Part>, i: int)
    requires 1 <= i < |parts| - 1
    ensures parts == parts[..i - 1] + [parts[i - 1], parts[i], parts[i + 1]] + parts[i + 2..]
  {
    assert parts[i - 1..i + 2] == [parts[i - 1], parts[i], parts[i + 1]];
    assert parts == parts[..i - 1] + parts[i - 1..i + 2] + parts[i + 2..];
  }

  /**
   * A hole between a text ending in `left` and a text starting with `right`
   * renders as its argument with `left` before it and `right` after it.
   */
  lemma HoleBetween(parts: seq<Part>, i: int, a: Args, before: string, after: string, left: string, right: string)
    requires 1 <= i < |parts| - 1
    requires parts[i - 1] == Text(before) && parts[i].Hole? && parts[i + 1] == Text(after)
    requires EndsWith(before, left) && StartsWith(after, right)
    ensures IsInfix(left + Value(a, parts[i].param) + right, Render(parts, a))
  {
    var p := parts[i].param;
    var line := [Text(before), Hole(p), Text(after)];
    var pre, post := parts[..i - 1], parts[i + 2..];
    SplitAround(parts, i);
    RenderAppend(pre + line, post, a);
    RenderAppend(pre, line, a);
    RenderLine(before, p, after, a);
    AroundValue(before, Value(a, p), after, left, right);
    InfixWithin(left + Value(a, p) + right, Render(pre, a), before + Value(a, p) + after, Render(post, a));
  }

  /** Text found in one of four strings is found in their concatenation. */
  lemma InOneOfFour(t: string, s1: string, s2: string, s3: string, s4: string)
    requires IsInfix(t, s1) || IsInfix(t, s2) || IsInfix(t, s3) || IsInfix(t, s4)
    ensures IsInfix(t, s1 + s2 + s3 + s4)
  {
    if IsInfix(t, s1) {
      InfixWithin(t, [], s1, s2 + s3 + s4);
      assert [] + s1 + (s2 + s3 + s4) == s1 + s2 + s3 + s4;
    } else if IsInfix(t, s2) {
      InfixWithin(t, s1, s2, s3 + s4);
      assert s1 + s2 + (s3 + s4) == s1 + s2 + s3 + s4;
    } else if IsInfix(t, s3) {
      InfixWithin(t, s1 + s2, s3, s4);
    } else {
      InfixWithin(t, s1 + s2 + s3, s4, []);
      assert s1 + s2 + s3 + s4 + [] == s1 + s2 + s3 + s4;
    }
  }

  /** Text found in the rendering of one of four consecutive stretches is found in the whole. */
  lemma InStretches(t: string, p1: seq<Part>, p2: seq<Part>, p3: seq<Part>, p4: seq<Part>, a: Args)
    requires || IsInfix(t, Render(p1, a)) || IsInfix(t, Render(p2, a))
             || IsInfix(t, Render(p3, a)) || IsInfix(t, Render(p4, a))
    ensures IsInfix(t, Render(p1 + p2 + p3 + p4, a))
  {
    RenderAppend(p1 + p2 + p3, p4, a);
    RenderAppend(p1 + p2, p3, a);
    RenderAppend(p1, p2, a);
    InOneOfFour(t, Render(p1, a), Render(p2, a), Render(p3, a), Render(p4, a));
  }

  // ---------------------------------------------------------------------------
  // What each stretch of the template says

  lemma HeaderQuotesSegment(a: Args)
    ensures IsInfix("for the niche: \"" + a.segment + "\".", Render(Header, a))
  {
    HoleBetween(Header, 4, a,
      "      TASK: Create a \"Lead Fisher\" strategy (capture Emails/WhatsApp) for the niche: \"", "\".\n",
      "for the niche: \"", "\".");
  }

  lemma ProtocolsStateLanguage(a: Args)
    ensures IsInfix("Output strictly in " + a.language + ".\n", Render(Protocols, a))
  {
    HoleBetween(Protocols, 2, a,
      "      1. IDIOMA (LANGUAGE): Output strictly in ", ".\n",
      "Output strictly in ", ".\n");
  }

  lemma ProtocolsStateRegion(a: Args)
    ensures IsInfix("Focus on region: " + a.region + ".\n", Render(Protocols, a))
  {
    HoleBetween(Protocols, 6, a,
      "         - Focus on region: ", ".\n",
      "Focus on region: ", ".\n");
  }

  lemma ResearchStatesLanguage(a: Args)
    ensures IsInfix("Keywords to search in Ads Lib (in " + a.language + ").", Render(Research, a))
  {
    HoleBetween(Research, 2, a,
      "      1. Competitor Analysis: Keywords to search in Ads Lib (in ", ").\n",
      "Keywords to search in Ads Lib (in ", ").");
  }

  lemma ResearchStatesRegion(a: Args)
    ensures IsInfix("culturally relevant to " + a.region + ".\n", Render(Research, a))
  {
    HoleBetween(Research, 5, a,
      "      2. Lead Magnet: A specific, high-value \"Bait\" (PDF, Aula, Template) to exchange for contact info, culturally relevant to ", ".\n",
      "culturally relevant to ", ".\n");
  }

  lemma ThumbnailStatesLanguage(a: Args)
    ensures IsInfix("catchy but compliant (in " + a.language + ").", Render(Deliverables, a))
  {
    HoleBetween(Deliverables, 3, a,
      "         - Thumbnail text that is catchy but compliant (in ", ").\n",
      "catchy but compliant (in ", ").");
  }

  lemma AdCopyStatesLanguage(a: Args)
    ensures IsInfix("the safety rules above (in " + a.language + ").", Render(Deliverables, a))
  {
    HoleBetween(Deliverables, 6, a,
      "      4. Ad Copy: Persuasive text that adheres to the safety rules above (in ", ").\n",
      "the safety rules above (in ", ").");
  }

  lemma AutomationStatesLanguage(a: Args)
    ensures IsInfix("qualify the lead (in " + a.language + ").", Render(Deliverables, a))
  {
    HoleBetween(Deliverables, 9, a,
      "      5. Automation: Questions to qualify the lead (in ", ").\n",
      "qualify the lead (in ", ").");
  }

  // ---------------------------------------------------------------------------
  // What the prompt says about each parameter

  /** The niche appears verbatim, in double quotes, right after "for the niche: ". */
  lemma PromptQuotesSegment(segment: string, language: string, region: string)
    ensures IsInfix("for the niche: \"" + segment + "\".", BuildPrompt(segment, language, region))
  {
    var a := Args(segment, language, region);
    HeaderQuotesSegment(a);
    InStretches("for the niche: \"" + segment + "\".", Header, Protocols, Research, Deliverables, a);
  }

  /** The language is the output-language rule. */
  lemma PromptStatesLanguageRule(segment: string, language: string, region: string)
    ensures IsInfix("Output strictly in " + language + ".\n", BuildPrompt(segment, language, region))
  {
    var a := Args(segment, language, region);
    ProtocolsStateLanguage(a);
    InStretches("Output strictly in " + language + ".\n", Header, Protocols, Research, Deliverables, a);
  }

  /** The competitor-analysis requirement asks for keywords in the language. */
  lemma PromptLanguageForKeywords(segment: string, language: string, region: string)
    ensures IsInfix("Keywords to search in Ads Lib (in " + language + ").", BuildPrompt(segment, language, region))
  {
    var a := Args(segment, language, region);
    ResearchStatesLanguage(a);
    InStretches("Keywords to search in Ads Lib (in " + language + ").", Header, Protocols, Research, Deliverables, a);
  }

  /** The creative-prompts requirement asks for thumbnail text in the language. */
  lemma PromptLanguageForThumbnail(segment: string, language: string, region: string)
    ensures IsInfix("catchy but compliant (in " + language + ").", BuildPrompt(segment, language, region))
  {
    var a := Args(segment, language, region);
    ThumbnailStatesLanguage(a);
    InStretches("catchy but compliant (in " + language + ").", Header, Protocols, Research, Deliverables, a);
  }

  /** The ad-copy requirement asks for text in the language. */
  lemma PromptLanguageForAdCopy(segment: string, language: string, region: string)
    ensures IsInfix("the safety rules above (in " + language + ").", BuildPrompt(segment, language, region))
  {
    var a := Args(segment, language, region);
    AdCopyStatesLanguage(a);
    InStretches("the safety rules above (in " + language + ").", Header, Protocols, Research, Deliverables, a);
  }

  /** The automation requirement asks for qualification questions in the language. */
  lemma PromptLanguageForAutomation(segment: string, language: string, region: string)
    ensures IsInfix("qualify the lead (in " + language + ").", BuildPrompt(segment, language, region))
  {
    var a := Args(segment, language, region);
    AutomationStatesLanguage(a);
    InStretches("qualify the lead (in " + language + ").", Header, Protocols, Research, Deliverables, a);
  }

  /** The region is the segmentation focus. */
  lemma PromptStatesRegionFocus(segment: string, language: string, region: string)
    ensures IsInfix("Focus on region: " + region + ".\n", BuildPrompt(segment, language, region))
  {
    var a := Args(segment, language, region);
    ProtocolsStateRegion(a);
    InStretches("Focus on region: " + region + ".\n", Header, Protocols, Research, Deliverables, a);
  }

  /** The region is the lead magnet's cultural target. */
  lemma PromptRegionForLeadMagnet(segment: string, language: string, region: string)
    ensures IsInfix("culturally relevant to " + region + ".\n", BuildPrompt(segment, language, region))
  {
    var a := Args(segment, language, region);
    ResearchStatesRegion(a);
    InStretches("culturally relevant to " + region + ".\n", Header, Protocols, Research, Deliverables, a);
  }
}
