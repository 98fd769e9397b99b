/**
 * The marketing plan in the shape the response schema asks the generator for,
 * and the four screens of the application.
 */
module Types {

  datatype CompetitorAnalysis = CompetitorAnalysis(
    searchKeywords: seq<string>,
    bigCompetitors: seq<string>,
    visualStyle: string,
    commentTriggers: seq<string>)

  datatype AudienceStrategy = AudienceStrategy(
    interests: seq<string>,
    behaviors: seq<string>,
    lookalikeSource: string,
    excludedKeywords: seq<string>)

  datatype LeadMagnet = LeadMagnet(
    title: string,
    format: string,
    description: string,
    whyItWorks: string)

  datatype CreativePrompts = CreativePrompts(
    videoPrompt: string,
    imagePrompt: string,
    thumbnailText: string)

  /** One headline, one body and one call to action, as the schema and the page have it. */
  datatype AdCopy = AdCopy(
    headline: string,
    body: string,
    cta: string)

  datatype AgentFlow = AgentFlow(
    platform: string,
    trigger: string,
    qualificationQuestions: seq<string>,
    rejectionMessage: string,
    successMessage: string)

  datatype MarketingPlan = MarketingPlan(
    segment: string,
    competitorAnalysis: CompetitorAnalysis,
    audienceStrategy: AudienceStrategy,
    leadMagnet: LeadMagnet,
    creativePrompts: CreativePrompts,
    adCopy: AdCopy,
    agentFlow: AgentFlow)

  datatype AppState = IDLE | LOADING | SUCCESS | ERROR
}
