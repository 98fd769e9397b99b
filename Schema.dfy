/**
 * The response schema sent with every generation request: a tree of object,
 * array and string nodes in which each object lists the properties it
 * requires. A small JSON value type and a conformance relation tie the schema
 * to the plan records of module Types.
 */
module Schema {
  import opened Wrappers
  import opened Types

  datatype Schema =
    | Str(description: Option<string>)
    | Arr(items: Schema, description: Option<string>)
    | Obj(properties: seq<Property>, required: seq<string>)

  datatype Property = Property(name: string, schema: Schema)

  /** The declared property names of an object node, in order. */
  function Names(props: seq<Property>): (r: seq<string>)
    ensures |r| == |props|
    ensures forall i :: 0 <= i < |props| ==> r[i] == props[i].name
  {
    if props == [] then [] else [props[0].name] + Names(props[1..])
  }

  /** Every name an object requires is one it declares, at every level of the tree. */
  predicate RequiredDeclared(s: Schema)
    decreases s
  {
    match s
    case Str(_) => true
    case Arr(item, _) => RequiredDeclared(item)
    case Obj(props, req) =>
      && (forall n :: n in req ==> n in Names(props))
      && (forall i :: 0 <= i < |props| ==> RequiredDeclared(props[i].schema))
  }

  /** Every property an object declares is also required, at every level of the tree. */
  predicate DeclaredRequired(s: Schema)
    decreases s
  {
    match s
    case Str(_) => true
    case Arr(item, _) => DeclaredRequired(item)
    case Obj(props, req) =>
      && (forall n :: n in Names(props) ==> n in req)
      && (forall i :: 0 <= i < |props| ==> DeclaredRequired(props[i].schema))
  }

  function Text(description: string): Schema
  {
    Str(Some(description))
  }

  function TextList(description: string): Schema
  {
    Arr(Str(None), Some(description))
  }

  const CompetitorAnalysisSchema: Schema := Obj(
    [ Property("searchKeywords", TextList("5 keywords to search in Meta Ads Library")),
      Property("bigCompetitors", TextList("Names of 3-5 potential big competitors (generic descriptions if specific brands are risky)")),
      Property("visualStyle", Text("Description of common visual patterns")),
      Property("commentTriggers", TextList("Phrases in comments indicating intent")) ],
    ["searchKeywords", "bigCompetitors", "visualStyle", "commentTriggers"])

  const AudienceStrategySchema: Schema := Obj(
    [ Property("interests", TextList("Targeting interests (Broad/Contextual)")),
      Property("behaviors", TextList("Targeting behaviors")),
      Property("lookalikeSource", Text("Source for Lookalike audience")),
      Property("excludedKeywords", TextList("Keywords to exclude")) ],
    ["interests", "behaviors", "lookalikeSource", "excludedKeywords"])

  const LeadMagnetSchema: Schema := Obj(
    [ Property("title", Text("Name of the free resource/bait to capture emails/phones")),
      Property("format", Text("Format (e.g., PDF, Video Class, Template, Coupon)")),
      Property("description", Text("What is inside the magnet")),
      Property("whyItWorks", Text("Psychological reason why the user will give their contact info for this")) ],
    ["title", "format", "description", "whyItWorks"])

  const CreativePromptsSchema: Schema := Obj(
    [ Property("videoPrompt", Text("Safe, high-quality prompt for AI Video generators (Veo, Sora, Runway).")),
      Property("imagePrompt", Text("Safe, high-quality prompt for AI Image generators (Midjourney, Dall-E).")),
      Property("thumbnailText", Text("Short, punchy text overlay for the video/image thumbnail (Compliant text).")) ],
    ["videoPrompt", "imagePrompt", "thumbnailText"])

  const AdCopySchema: Schema := Obj(
    [ Property("headline", Text("Ad headline (Compliant)")),
      Property("body", Text("Ad primary text (Compliant, no exaggerated claims)")),
      Property("cta", Text("Call to Action")) ],
    ["headline", "body", "cta"])

  const AgentFlowSchema: Schema := Obj(
    [ Property("platform", Text("Recommended platform")),
      Property("trigger", Text("Trigger action")),
      Property("qualificationQuestions", TextList("Qualification questions")),
      Property("rejectionMessage", Text("Rejection message")),
      Property("successMessage", Text("Success message")) ],
    ["platform", "trigger", "qualificationQuestions", "rejectionMessage", "successMessage"])

  /** The schema every generation request carries. */
  const MarketingPlanSchema: Schema := Obj(
    [ Property("segment", Text("The user provided segment name")),
      Property("competitorAnalysis", CompetitorAnalysisSchema),
      Property("audienceStrategy", AudienceStrategySchema),
      Property("leadMagnet", LeadMagnetSchema),
      Property("creativePrompts", CreativePromptsSchema),
      Property("adCopy", AdCopySchema),
      Property("agentFlow", AgentFlowSchema) ],
    ["segment", "competitorAnalysis", "audienceStrategy", "leadMagnet", "creativePrompts", "adCopy", "agentFlow"])

  /** A string node, or an array of string nodes: no object below it. */
  predicate IsLeaf(s: Schema)
  {
    s.Str? || (s.Arr? && s.items.Str?)
  }

  /** An object whose properties are all leaves and whose required list is its name list. */
  lemma {:induction false} FlatObjectRequiredExactly(s: Schema)
    requires s.Obj? && Names(s.properties) == s.required
    requires forall i :: 0 <= i < |s.properties| ==> IsLeaf(s.properties[i].schema)
    ensures RequiredDeclared(s) && DeclaredRequired(s)
  {
    forall i | 0 <= i < |s.properties|
      ensures RequiredDeclared(s.properties[i].schema) && DeclaredRequired(s.properties[i].schema)
    {
      var c := s.properties[i].schema;
      if c.Arr? {
        assert RequiredDeclared(c.items) && DeclaredRequired(c.items);
      }
    }
  }

  /**
   * In every object of the plan schema, the top level with its seven fields
   * and the six nested sections, the required names are exactly the declared ones.
   */
  lemma MarketingPlanSchemaRequiredExactly()
    ensures RequiredDeclared(MarketingPlanSchema) && DeclaredRequired(MarketingPlanSchema)
    ensures |MarketingPlanSchema.required| == 7
  {
    CompetitorAnalysisRequiredExactly();
    AudienceStrategyRequiredExactly();
    LeadMagnetRequiredExactly();
    CreativePromptsRequiredExactly();
    AdCopyRequiredExactly();
    AgentFlowRequiredExactly();
    PlanShapeRequiredExactly(Text("The user provided segment name"), CompetitorAnalysisSchema, AudienceStrategySchema,
      LeadMagnetSchema, CreativePromptsSchema, AdCopySchema, AgentFlowSchema);
    assert MarketingPlanSchema == PlanShape(Text("The user provided segment name"), CompetitorAnalysisSchema,
      AudienceStrategySchema, LeadMagnetSchema, CreativePromptsSchema, AdCopySchema, AgentFlowSchema);
  }

  /** The plan schema's top level, over any section schemas. */
  function PlanShape(segment: Schema, competitorAnalysis: Schema, audienceStrategy: Schema,
                     leadMagnet: Schema, creativePrompts: Schema, adCopy: Schema, agentFlow: Schema): Schema
  {
    Obj([ Property("segment", segment), Property("competitorAnalysis", competitorAnalysis),
          Property("audienceStrategy", audienceStrategy), Property("leadMagnet", leadMagnet),
          Property("creativePrompts", creativePrompts), Property("adCopy", adCopy), Property("agentFlow", agentFlow) ],
        ["segment", "competitorAnalysis", "audienceStrategy", "leadMagnet", "creativePrompts", "adCopy", "agentFlow"])
  }

  /** The plan's top level requires exactly its seven fields, over sections that do the same. */
  lemma PlanShapeRequiredExactly(segment: Schema, competitorAnalysis: Schema, audienceStrategy: Schema,
                                 leadMagnet: Schema, creativePrompts: Schema, adCopy: Schema, agentFlow: Schema)
    requires segment.Str?
    requires RequiredDeclared(competitorAnalysis) && DeclaredRequired(competitorAnalysis)
    requires RequiredDeclared(audienceStrategy) && DeclaredRequired(audienceStrategy)
    requires RequiredDeclared(leadMagnet) && DeclaredRequired(leadMagnet)
    requires RequiredDeclared(creativePrompts) && DeclaredRequired(creativePrompts)
    requires RequiredDeclared(adCopy) && DeclaredRequired(adCopy)
    requires RequiredDeclared(agentFlow) && DeclaredRequired(agentFlow)
    ensures var s := PlanShape(segment, competitorAnalysis, audienceStrategy, leadMagnet, creativePrompts, adCopy, agentFlow);
      RequiredDeclared(s) && DeclaredRequired(s)
  {
    var s := PlanShape(segment, competitorAnalysis, audienceStrategy, leadMagnet, creativePrompts, adCopy, agentFlow);
    assert Names(s.properties) == s.required;
    ObjectRequiredExactly(s.properties, s.required);
  }

  /** An object requiring exactly its names, over children that do the same, does the same. */
  lemma ObjectRequiredExactly(props: seq<Property>, req: seq<string>)
    requires Names(props) == req
    requires forall i :: 0 <= i < |props| ==> RequiredDeclared(props[i].schema) && DeclaredRequired(props[i].schema)
    ensures RequiredDeclared(Obj(props, req)) && DeclaredRequired(Obj(props, req))
  {
  }

  /** Each nested section requires exactly the properties it declares. */
  lemma CompetitorAnalysisRequiredExactly()
    ensures RequiredDeclared(CompetitorAnalysisSchema) && DeclaredRequired(CompetitorAnalysisSchema)
  {
    assert Names(CompetitorAnalysisSchema.properties) == CompetitorAnalysisSchema.required;
    FlatObjectRequiredExactly(CompetitorAnalysisSchema);
  }

  lemma AudienceStrategyRequiredExactly()
    ensures RequiredDeclared(AudienceStrategySchema) && DeclaredRequired(AudienceStrategySchema)
  {
    assert Names(AudienceStrategySchema.properties) == AudienceStrategySchema.required;
    FlatObjectRequiredExactly(AudienceStrategySchema);
  }

  lemma LeadMagnetRequiredExactly()
    ensures RequiredDeclared(LeadMagnetSchema) && DeclaredRequired(LeadMagnetSchema)
  {
    assert Names(LeadMagnetSchema.properties) == LeadMagnetSchema.required;
    FlatObjectRequiredExactly(LeadMagnetSchema);
  }

  lemma CreativePromptsRequiredExactly()
    ensures RequiredDeclared(CreativePromptsSchema) && DeclaredRequired(CreativePromptsSchema)
  {
    assert Names(CreativePromptsSchema.properties) == CreativePromptsSchema.required;
    FlatObjectRequiredExactly(CreativePromptsSchema);
  }

  lemma AdCopyRequiredExactly()
    ensures RequiredDeclared(AdCopySchema) && DeclaredRequired(AdCopySchema)
  {
    assert Names(AdCopySchema.properties) == AdCopySchema.required;
    FlatObjectRequiredExactly(AdCopySchema);
  }

  lemma AgentFlowRequiredExactly()
    ensures RequiredDeclared(AgentFlowSchema) && DeclaredRequired(AgentFlowSchema)
  {
    assert Names(AgentFlowSchema.properties) == AgentFlowSchema.required;
    FlatObjectRequiredExactly(AgentFlowSchema);
  }

  // ---------------------------------------------------------------------------
  // JSON values and what it means for one to satisfy the schema

  datatype Json =
    | JString(text: string)
    | JArray(elements: seq<Json>)
    | JObject(fields: seq<Field>)

  datatype Field = Field(key: string, value: Json)

  function Keys(fields: seq<Field>): (r: seq<string>)
    ensures |r| == |fields|
    ensures forall k :: 0 <= k < |fields| ==> r[k] == fields[k].key
  {
    if fields == [] then [] else [fields[0].key] + Keys(fields[1..])
  }

  /**
   * `j` has the kind `s` asks for; an object carries every required key, and
   * each of its fields named by a declared property satisfies that property.
   */
  predicate Conforms(j: Json, s: Schema)
    decreases s
  {
    match s
    case Str(_) => j.JString?
    case Arr(item, _) =>
      j.JArray? && forall k :: 0 <= k < |j.elements| ==> Conforms(j.elements[k], item)
    case Obj(props, req) =>
      && j.JObject?
      && (forall n :: n in req ==> n in Keys(j.fields))
      && (forall k, i :: 0 <= k < |j.fields| && 0 <= i < |props| && j.fields[k].key == props[i].name
            ==> Conforms(j.fields[k].value, props[i].schema))
  }

  function TextListJson(xs: seq<string>): (r: Json)
    ensures r.JArray? && |r.elements| == |xs|
    ensures forall k :: 0 <= k < |xs| ==> r.elements[k] == JString(xs[k])
  {
    if xs == [] then JArray([]) else JArray([JString(xs[0])] + TextListJson(xs[1..]).elements)
  }

  function CompetitorAnalysisJson(c: CompetitorAnalysis): Json
  {
    JObject([ Field("searchKeywords", TextListJson(c.searchKeywords)),
              Field("bigCompetitors", TextListJson(c.bigCompetitors)),
              Field("visualStyle", JString(c.visualStyle)),
              Field("commentTriggers", TextListJson(c.commentTriggers)) ])
  }

  function AudienceStrategyJson(a: AudienceStrategy): Json
  {
    JObject([ Field("interests", TextListJson(a.interests)),
              Field("behaviors", TextListJson(a.behaviors)),
              Field("lookalikeSource", JString(a.lookalikeSource)),
              Field("excludedKeywords", TextListJson(a.excludedKeywords)) ])
  }

  function LeadMagnetJson(m: LeadMagnet): Json
  {
    JObject([ Field("title", JString(m.title)),
              Field("format", JString(m.format)),
              Field("description", JString(m.description)),
              Field("whyItWorks", JString(m.whyItWorks)) ])
  }

  function CreativePromptsJson(c: CreativePrompts): Json
  {
    JObject([ Field("videoPrompt", JString(c.videoPrompt)),
              Field("imagePrompt", JString(c.imagePrompt)),
              Field("thumbnailText", JString(c.thumbnailText)) ])
  }

  function AdCopyJson(a: AdCopy): Json
  {
    JObject([ Field("headline", JString(a.headline)),
              Field("body", JString(a.body)),
              Field("cta", JString(a.cta)) ])
  }

  function AgentFlowJson(f: AgentFlow): Json
  {
    JObject([ Field("platform", JString(f.platform)),
              Field("trigger", JString(f.trigger)),
              Field("qualificationQuestions", TextListJson(f.qualificationQuestions)),
              Field("rejectionMessage", JString(f.rejectionMessage)),
              Field("successMessage", JString(f.successMessage)) ])
  }

  /** The JSON object a plan is read from. */
  function PlanJson(p: MarketingPlan): Json
  {
    JObject([ Field("segment", JString(p.segment)),
              Field("competitorAnalysis", CompetitorAnalysisJson(p.competitorAnalysis)),
              Field("audienceStrategy", AudienceStrategyJson(p.audienceStrategy)),
              Field("leadMagnet", LeadMagnetJson(p.leadMagnet)),
              Field("creativePrompts", CreativePromptsJson(p.creativePrompts)),
              Field("adCopy", AdCopyJson(p.adCopy)),
              Field("agentFlow", AgentFlowJson(p.agentFlow)) ])
  }

  /** A list of strings satisfies a list-of-text node. */
  lemma TextListConforms(xs: seq<string>, d: Option<string>, e: Option<string>)
    ensures Conforms(TextListJson(xs), Arr(Str(e), d))
  {
  }

  /** No two properties of an object share a name. */
  predicate DistinctNames(props: seq<Property>)
  {
    forall a, b :: 0 <= a < b < |props| ==> props[a].name != props[b].name
  }

  /** Names of pairwise different lengths are pairwise different. */
  lemma DistinctByLength(props: seq<Property>, lengths: seq<int>)
    requires |lengths| == |props|
    requires forall a :: 0 <= a < |props| ==> |props[a].name| == lengths[a]
    requires forall a, b :: 0 <= a < b < |lengths| ==> lengths[a] != lengths[b]
    ensures DistinctNames(props)
  {
  }

  /**
   * An object whose fields carry the declared names in declaration order, each
   * with a conforming value, satisfies the object node.
   */
  lemma {:induction false} AlignedObjectConforms(fields: seq<Field>, props: seq<Property>, req: seq<string>)
    requires Keys(fields) == Names(props) && DistinctNames(props)
    requires forall n :: n in req ==> n in Names(props)
    requires forall k :: 0 <= k < |fields| ==> Conforms(fields[k].value, props[k].schema)
    ensures Conforms(JObject(fields), Obj(props, req))
  {
    forall k, i | 0 <= k < |fields| && 0 <= i < |props| && fields[k].key == props[i].name
      ensures Conforms(fields[k].value, props[i].schema)
    {
      assert Keys(fields)[k] == Names(props)[k];
    }
  }

  /**
   * The plan records and the schema agree: every plan, written as JSON,
   * satisfies the schema the request sends, at every nesting level.
   */
  lemma PlanConformsToSchema(p: MarketingPlan)
    ensures Conforms(PlanJson(p), MarketingPlanSchema)
  {
    CompetitorAnalysisConforms(p.competitorAnalysis);
    AudienceStrategyConforms(p.audienceStrategy);
    LeadMagnetConforms(p.leadMagnet);
    CreativePromptsConforms(p.creativePrompts);
    AdCopyConforms(p.adCopy);
    AgentFlowConforms(p.agentFlow);
    PlanShapeConforms(p, Text("The user provided segment name"), CompetitorAnalysisSchema, AudienceStrategySchema,
      LeadMagnetSchema, CreativePromptsSchema, AdCopySchema, AgentFlowSchema);
  }

  /** A plan satisfies the seven-field top level whenever each section satisfies its own schema. */
  lemma PlanShapeConforms(p: MarketingPlan, segment: Schema, competitorAnalysis: Schema, audienceStrategy: Schema,
                          leadMagnet: Schema, creativePrompts: Schema, adCopy: Schema, agentFlow: Schema)
    requires segment.Str?
    requires Conforms(CompetitorAnalysisJson(p.competitorAnalysis), competitorAnalysis)
    requires Conforms(AudienceStrategyJson(p.audienceStrategy), audienceStrategy)
    requires Conforms(LeadMagnetJson(p.leadMagnet), leadMagnet)
    requires Conforms(CreativePromptsJson(p.creativePrompts), creativePrompts)
    requires Conforms(AdCopyJson(p.adCopy), adCopy)
    requires Conforms(AgentFlowJson(p.agentFlow), agentFlow)
    ensures Conforms(PlanJson(p), PlanShape(segment, competitorAnalysis, audienceStrategy, leadMagnet, creativePrompts, adCopy, agentFlow))
  {
    var s := PlanShape(segment, competitorAnalysis, audienceStrategy, leadMagnet, creativePrompts, adCopy, agentFlow);
    var fields := PlanJson(p).fields;
    PlanShapeNamesDistinct(segment, competitorAnalysis, audienceStrategy, leadMagnet, creativePrompts, adCopy, agentFlow);
    PlanJsonKeys(p);
    PlanShapeFieldsConform(p, segment, competitorAnalysis, audienceStrategy, leadMagnet, creativePrompts, adCopy, agentFlow);
    AlignedObjectConforms(fields, s.properties, s.required);
  }

  /** The top level declares seven distinct names and requires exactly those. */
  lemma PlanShapeNamesDistinct(segment: Schema, competitorAnalysis: Schema, audienceStrategy: Schema,
                               leadMagnet: Schema, creativePrompts: Schema, adCopy: Schema, agentFlow: Schema)
    ensures var s := PlanShape(segment, competitorAnalysis, audienceStrategy, leadMagnet, creativePrompts, adCopy, agentFlow);
      Names(s.properties) == s.required && DistinctNames(s.properties)
  {
    var s := PlanShape(segment, competitorAnalysis, audienceStrategy, leadMagnet, creativePrompts, adCopy, agentFlow);
    DistinctByLength(s.properties, [7, 18, 16, 10, 15, 6, 9]);
  }

  /** A plan's JSON carries the seven top-level keys in schema order. */
  lemma PlanJsonKeys(p: MarketingPlan)
    ensures Keys(PlanJson(p).fields) ==
      ["segment", "competitorAnalysis", "audienceStrategy", "leadMagnet", "creativePrompts", "adCopy", "agentFlow"]
  {
  }

  lemma PlanShapeFieldsConform(p: MarketingPlan, segment: Schema, competitorAnalysis: Schema, audienceStrategy: Schema,
                               leadMagnet: Schema, creativePrompts: Schema, adCopy: Schema, agentFlow: Schema)
    requires segment.Str?
    requires Conforms(CompetitorAnalysisJson(p.competitorAnalysis), competitorAnalysis)
    requires Conforms(AudienceStrategyJson(p.audienceStrategy), audienceStrategy)
    requires Conforms(LeadMagnetJson(p.leadMagnet), leadMagnet)
    requires Conforms(CreativePromptsJson(p.creativePrompts), creativePrompts)
    requires Conforms(AdCopyJson(p.adCopy), adCopy)
    requires Conforms(AgentFlowJson(p.agentFlow), agentFlow)
    ensures var s := PlanShape(segment, competitorAnalysis, audienceStrategy, leadMagnet, creativePrompts, adCopy, agentFlow);
      forall k :: 0 <= k < |PlanJson(p).fields| ==> Conforms(PlanJson(p).fields[k].value, s.properties[k].schema)
  {
  }

  lemma CompetitorAnalysisConforms(c: CompetitorAnalysis)
    ensures Conforms(CompetitorAnalysisJson(c), CompetitorAnalysisSchema)
  {
    CompetitorAnalysisShapeConforms(c, "5 keywords to search in Meta Ads Library", "Names of 3-5 potential big competitors (generic descriptions if specific brands are risky)", "Description of common visual patterns", "Phrases in comments indicating intent");
  }

  lemma CompetitorAnalysisShapeConforms(c: CompetitorAnalysis, d0: string, d1: string, d2: string, d3: string)
    ensures Conforms(CompetitorAnalysisJson(c), Obj(
      [ Property("searchKeywords", TextList(d0)),
        Property("bigCompetitors", TextList(d1)),
        Property("visualStyle", Text(d2)),
        Property("commentTriggers", TextList(d3)) ],
      ["searchKeywords", "bigCompetitors", "visualStyle", "commentTriggers"]))
  {
    assert Keys(CompetitorAnalysisJson(c).fields) == ["searchKeywords", "bigCompetitors", "visualStyle", "commentTriggers"];
    TextListConforms(c.searchKeywords, Some(d0), None);
    TextListConforms(c.bigCompetitors, Some(d1), None);
    TextListConforms(c.commentTriggers, Some(d3), None);
  }

  lemma AudienceStrategyConforms(a: AudienceStrategy)
    ensures Conforms(AudienceStrategyJson(a), AudienceStrategySchema)
  {
    AudienceStrategyShapeConforms(a, "Targeting interests (Broad/Contextual)", "Targeting behaviors", "Source for Lookalike audience", "Keywords to exclude");
  }

  lemma AudienceStrategyShapeConforms(a: AudienceStrategy, d0: string, d1: string, d2: string, d3: string)
    ensures Conforms(AudienceStrategyJson(a), Obj(
      [ Property("interests", TextList(d0)),
        Property("behaviors", TextList(d1)),
        Property("lookalikeSource", Text(d2)),
        Property("excludedKeywords", TextList(d3)) ],
      ["interests", "behaviors", "lookalikeSource", "excludedKeywords"]))
  {
    assert Keys(AudienceStrategyJson(a).fields) == ["interests", "behaviors", "lookalikeSource", "excludedKeywords"];
    TextListConforms(a.interests, Some(d0), None);
    TextListConforms(a.behaviors, Some(d1), None);
    TextListConforms(a.excludedKeywords, Some(d3), None);
  }

  lemma LeadMagnetConforms(m: LeadMagnet)
    ensures Conforms(LeadMagnetJson(m), LeadMagnetSchema)
  {
    LeadMagnetShapeConforms(m, "Name of the free resource/bait to capture emails/phones", "Format (e.g., PDF, Video Class, Template, Coupon)", "What is inside the magnet", "Psychological reason why the user will give their contact info for this");
  }

  lemma LeadMagnetShapeConforms(m: LeadMagnet, d0: string, d1: string, d2: string, d3: string)
    ensures Conforms(LeadMagnetJson(m), Obj(
      [ Property("title", Text(d0)),
        Property("format", Text(d1)),
        Property("description", Text(d2)),
        Property("whyItWorks", Text(d3)) ],
      ["title", "format", "description", "whyItWorks"]))
  {
    assert Keys(LeadMagnetJson(m).fields) == ["title", "format", "description", "whyItWorks"];
  }

  lemma CreativePromptsConforms(c: CreativePrompts)
    ensures Conforms(CreativePromptsJson(c), CreativePromptsSchema)
  {
    CreativePromptsShapeConforms(c, "Safe, high-quality prompt for AI Video generators (Veo, Sora, Runway).", "Safe, high-quality prompt for AI Image generators (Midjourney, Dall-E).", "Short, punchy text overlay for the video/image thumbnail (Compliant text).");
  }

  lemma CreativePromptsShapeConforms(c: CreativePrompts, d0: string, d1: string, d2: string)
    ensures Conforms(CreativePromptsJson(c), Obj(
      [ Property("videoPrompt", Text(d0)),
        Property("imagePrompt", Text(d1)),
        Property("thumbnailText", Text(d2)) ],
      ["videoPrompt", "imagePrompt", "thumbnailText"]))
  {
    assert Keys(CreativePromptsJson(c).fields) == ["videoPrompt", "imagePrompt", "thumbnailText"];
  }

  lemma AdCopyConforms(a: AdCopy)
    ensures Conforms(AdCopyJson(a), AdCopySchema)
  {
    AdCopyShapeConforms(a, "Ad headline (Compliant)", "Ad primary text (Compliant, no exaggerated claims)", "Call to Action");
  }

  lemma AdCopyShapeConforms(a: AdCopy, d0: string, d1: string, d2: string)
    ensures Conforms(AdCopyJson(a), Obj(
      [ Property("headline", Text(d0)),
        Property("body", Text(d1)),
        Property("cta", Text(d2)) ],
      ["headline", "body", "cta"]))
  {
    assert Keys(AdCopyJson(a).fields) == ["headline", "body", "cta"];
  }

  lemma AgentFlowConforms(f: AgentFlow)
    ensures Conforms(AgentFlowJson(f), AgentFlowSchema)
  {
    AgentFlowShapeConforms(f, "Recommended platform", "Trigger action", "Qualification questions", "Rejection message", "Success message");
  }

  lemma AgentFlowShapeConforms(f: AgentFlow, d0: string, d1: string, d2: string, d3: string, d4: string)
    ensures Conforms(AgentFlowJson(f), Obj(
      [ Property("platform", Text(d0)),
        Property("trigger", Text(d1)),
        Property("qualificationQuestions", TextList(d2)),
        Property("rejectionMessage", Text(d3)),
        Property("successMessage", Text(d4)) ],
      ["platform", "trigger", "qualificationQuestions", "rejectionMessage", "successMessage"]))
  {
    assert Keys(AgentFlowJson(f).fields) == ["platform", "trigger", "qualificationQuestions", "rejectionMessage", "successMessage"];
    TextListConforms(f.qualificationQuestions, Some(d2), None);
  }

  /**
   * Fields the application's interface declarations carry but the schema never
   * asks for: a top-level strategy text and implementation guide.
   */
  lemma SchemaOmitsInterfaceOnlyFields()
    ensures "platformStrategy" !in Names(MarketingPlanSchema.properties)
    ensures "implementationGuide" !in Names(MarketingPlanSchema.properties)
  {
    assert Names(MarketingPlanSchema.properties) == MarketingPlanSchema.required;
  }

  /**
   * The schema's ad copy is one headline, body and call to action, not a list
   * of variations, and its lead magnet has no list of creation tools.
   */
  lemma SchemaOmitsInterfaceOnlySectionFields()
    ensures "variations" !in Names(AdCopySchema.properties)
    ensures "creationTools" !in Names(LeadMagnetSchema.properties)
  {
    assert Names(AdCopySchema.properties) == AdCopySchema.required;
    assert Names(LeadMagnetSchema.properties) == LeadMagnetSchema.required;
  }
}
