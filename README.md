# LeadFisher, modelled in Dafny

LeadFisher is a single-page application. A user types a business niche and
picks a language and a region. The application then asks Google's Gemini model
for a "lead capture" marketing plan: competitor research, audience targeting,
a lead magnet, creative prompts, ad copy and a qualification chatbot flow.
Each successful generation costs one credit. The balance is kept in the
browser's local storage under `lf_credits`. A first visit is granted one free
credit, and a Stripe payment redirect (`?payment_success=true`) adds five.

This project models the application component's state handling and the
generation service:

- `Strings` covers JavaScript's `String.prototype.includes` as a decidable
  substring test, proved equal to "occurs at some index". It also covers
  `String.prototype.trim` over ECMAScript's whitespace and line-terminator
  set.
- `Types` holds the plan records, in the shape the response schema asks for,
  and the four screen states.
- `Schema` is the response schema as a tree, with every description string.
  It defines when a JSON value satisfies a schema, writes each plan record
  as JSON, and proves that every plan satisfies the schema.
- `Prompt` is the prompt template. It is a list of text lines and three
  holes (niche, language, region), kept in four consecutive stretches, and
  the lemmas say what the rendered prompt contains.
- `GeminiService` covers the request, the empty-response guard, parsing,
  and the rethrow. The SDK call and `JSON.parse` are function parameters.
- `AppComponent` has the failure-message classifier and the component state
  as a value with one function per handler, plus lemmas about runs of
  events. It also has the class `App`, whose handlers update their fields in
  place and are proved to reach the state the functions give. `App.Submit`
  takes the generation as a function of niche, language and region;
  `App.SubmitToGemini` supplies the Gemini service for it.

Where the sources disagree, the model follows the code:

- The plan records follow the schema sent with the request, not the
  interface declarations in `raiz/types.ts`. Those declarations also carry
  fields the schema never requests (`platformStrategy`, `implementationGuide`,
  `creationTools`, the ad-copy `variations`). The two `SchemaOmits…` lemmas
  record this.
- The submit handler passes the radius as a fourth argument
  (`raiz/App.tsx:109`). `generateMarketingPlan` declares three parameters, so
  the radius never reaches the request. The model's generation takes only
  niche, language and region.
- The initial message `"Falha ao gerar o plano."` (`raiz/App.tsx:120`) is
  always overwritten by one of the three branches, so it is never shown.
  `ErrorMessage` has only the three messages, chosen by `Classify`.
- A thrown error is passed back unchanged (`raiz/services/geminiService.ts:117-120`).
  So the "No response from AI" error reaches the classifier like any other
  and gets the generic message.

## Model

| member | source | states |
|---|---|---|
| Strings.Contains | raiz/App.tsx:122-124 | `includes` is decided exactly: the result is true iff the needle occurs at some index of the text |
| Strings.Trim | raiz/App.tsx:98 | the definition of `trim`; TrimStartSpec, TrimEndSpec and TrimKeepsCore state what it keeps and drops |
| Strings.IsBlank | raiz/App.tsx:98 | the definition of `!segment.trim()`; BlankIffAllWhitespace states when it holds |
| Strings.TrimStartSpec | raiz/App.tsx:98 | dropping leading whitespace leaves a suffix of the input, everything removed is whitespace, and what is left does not start with whitespace |
| Strings.TrimEndSpec | raiz/App.tsx:98 | dropping trailing whitespace leaves a prefix of the input, everything removed is whitespace, and what is left does not end with whitespace |
| Strings.TrimKeepsCore | raiz/App.tsx:98 | the trimmed niche occurs inside the typed niche, and its ends are not whitespace |
| Strings.BlankIffAllWhitespace | raiz/App.tsx:98 | `!segment.trim()` holds exactly when every character of the niche is whitespace, including the empty niche |
| Schema.MarketingPlanSchema | raiz/services/geminiService.ts:7-72 | the response schema, property by property with every description; MarketingPlanSchemaRequiredExactly, PlanConformsToSchema and the SchemaOmits lemmas state its properties |
| Schema.FlatObjectRequiredExactly | raiz/services/geminiService.ts:11-19 | an object of string and string-array properties whose required list is its name list requires exactly what it declares |
| Schema.MarketingPlanSchemaRequiredExactly | raiz/services/geminiService.ts:7-72 | in the plan schema and in each of its six sections, every required name is declared and every declared name is required; the top level requires seven |
| Schema.PlanShapeRequiredExactly | raiz/services/geminiService.ts:8-71 | a top level of seven named sections requires exactly its seven names, whenever each section does the same for its own properties |
| Schema.ObjectRequiredExactly | raiz/services/geminiService.ts:7-72 | an object whose required list is its name list, over children that require exactly what they declare, does the same |
| Schema.CompetitorAnalysisRequiredExactly | raiz/services/geminiService.ts:11-20 | the competitor-analysis section requires exactly the four properties it declares |
| Schema.AudienceStrategyRequiredExactly | raiz/services/geminiService.ts:21-30 | the audience-strategy section requires exactly the four properties it declares |
| Schema.LeadMagnetRequiredExactly | raiz/services/geminiService.ts:31-40 | the lead-magnet section requires exactly the four properties it declares |
| Schema.CreativePromptsRequiredExactly | raiz/services/geminiService.ts:41-49 | the creative-prompts section requires exactly the three properties it declares |
| Schema.AdCopyRequiredExactly | raiz/services/geminiService.ts:50-58 | the ad-copy section requires exactly the three properties it declares |
| Schema.AgentFlowRequiredExactly | raiz/services/geminiService.ts:59-69 | the agent-flow section requires exactly the five properties it declares |
| Schema.AlignedObjectConforms | raiz/services/geminiService.ts:7-72 | an object whose keys are the required names, in order and distinct, with each value satisfying its property's schema, satisfies the object schema |
| Schema.PlanConformsToSchema | raiz/services/geminiService.ts:7-72 | every plan, written as JSON, satisfies the response schema at every nesting level |
| Schema.PlanShapeConforms | raiz/services/geminiService.ts:8-71 | a plan's JSON satisfies the seven-section top level whenever each of its sections satisfies that section's schema |
| Schema.PlanShapeNamesDistinct | raiz/services/geminiService.ts:9-71 | the seven top-level names are distinct and are exactly the required list |
| Schema.PlanJsonKeys | raiz/services/geminiService.ts:9-71 | a plan's JSON carries the seven top-level keys in the schema's order |
| Schema.PlanShapeFieldsConform | raiz/services/geminiService.ts:10-69 | each top-level field of a plan's JSON satisfies the schema of the property at the same position |
| Schema.CompetitorAnalysisConforms | raiz/services/geminiService.ts:11-20 | every competitor analysis satisfies its section schema |
| Schema.AudienceStrategyConforms | raiz/services/geminiService.ts:21-30 | every audience strategy satisfies its section schema |
| Schema.LeadMagnetConforms | raiz/services/geminiService.ts:31-40 | every lead magnet satisfies its section schema |
| Schema.CreativePromptsConforms | raiz/services/geminiService.ts:41-49 | every set of creative prompts satisfies its section schema |
| Schema.AdCopyConforms | raiz/services/geminiService.ts:50-58 | every ad copy satisfies its section schema |
| Schema.AgentFlowConforms | raiz/services/geminiService.ts:59-69 | every agent flow satisfies its section schema |
| Schema.SchemaOmitsInterfaceOnlyFields | raiz/services/geminiService.ts:9-71 | the schema never asks for a platform strategy or an implementation guide |
| Schema.SchemaOmitsInterfaceOnlySectionFields | raiz/services/geminiService.ts:31-58 | the schema's lead magnet has no creation tools, and its ad copy has no variations list |
| Prompt.Template | raiz/services/geminiService.ts:78-105 | the prompt's template literal, line by line, with its eight substitutions as holes |
| Prompt.BuildPrompt | raiz/services/geminiService.ts:78-105 | the template rendered for one niche, language and region; the eight Prompt lemmas below state what it contains |
| Prompt.PromptQuotesSegment | raiz/services/geminiService.ts:81 | the niche appears verbatim, in double quotes, after "for the niche: " |
| Prompt.PromptStatesLanguageRule | raiz/services/geminiService.ts:84 | the prompt orders output strictly in the chosen language |
| Prompt.PromptLanguageForKeywords | raiz/services/geminiService.ts:96 | the Ads Library keywords are asked for in the chosen language |
| Prompt.PromptLanguageForThumbnail | raiz/services/geminiService.ts:100 | the thumbnail text is asked for in the chosen language |
| Prompt.PromptLanguageForAdCopy | raiz/services/geminiService.ts:101 | the ad copy is asked for in the chosen language |
| Prompt.PromptLanguageForAutomation | raiz/services/geminiService.ts:102 | the qualification questions are asked for in the chosen language |
| Prompt.PromptStatesRegionFocus | raiz/services/geminiService.ts:86 | the prompt names the region as the segmentation focus |
| Prompt.PromptRegionForLeadMagnet | raiz/services/geminiService.ts:97 | the lead magnet is asked to be culturally relevant to the region |
| Prompt.RenderAppend | raiz/services/geminiService.ts:79-105 | rendering a template made of two stretches is rendering each and joining them |
| GeminiService.BuildRequest | raiz/services/geminiService.ts:76-110 | the request names model gemini-2.5-flash, asks for application/json under the plan schema, and carries the prompt built from niche, language and region |
| GeminiService.GenerateMarketingPlan | raiz/services/geminiService.ts:74-121 | the definition of `generateMarketingPlan`; GenerationOutcomes, EmptyResponseIsNotParsed and TextIsParsedAsIs state its outcomes |
| GeminiService.ReadResponse | raiz/services/geminiService.ts:113-116 | the empty-text guard and the parse; EmptyResponseIsNotParsed and TextIsParsedAsIs state both branches |
| GeminiService.EmptyResponseIsNotParsed | raiz/services/geminiService.ts:113-114 | an absent or empty response text fails with "No response from AI", and the parser is never consulted |
| GeminiService.TextIsParsedAsIs | raiz/services/geminiService.ts:113-116 | a non-empty response text yields exactly what parsing it yields, success or error |
| GeminiService.GenerationOutcomes | raiz/services/geminiService.ts:74-121 | a plan is always the parse of a non-empty response; an error is the backend's error, the empty-response error or the parser's error, with its message unchanged |
| AppComponent.ErrorMessage | raiz/App.tsx:118-131 | the message shown for an error text; ErrorMessageCases states which one under which condition |
| AppComponent.Classify | raiz/App.tsx:122-128 | an authentication error iff the error text contains "403", "API key" or "invalid"; a quota error iff none of those but "429"; an unexpected error otherwise |
| AppComponent.ErrorMessageCases | raiz/App.tsx:118-131 | the message shown is the authentication message, the quota message or the generic message under exactly those three conditions, and the three messages differ |
| AppComponent.Launch | raiz/App.tsx:39-50 | the first render's state: the form defaults, zero credits, IDLE, no plan, no error |
| AppComponent.Initialized | raiz/App.tsx:53-78 | the mount effect's state; InitializedCredits and InitializedConsistent state what it gives |
| AppComponent.Checked | raiz/App.tsx:97-107 | the submit handler's checks; SubmittedEffects states their outcome |
| AppComponent.Completed | raiz/App.tsx:108-131 | the submit handler after the awaited call; SubmittedEffects states both branches |
| AppComponent.Submitted | raiz/App.tsx:96-133 | a whole submit; SubmittedEffects, StepConsistent and StepCounts state its effects |
| AppComponent.Step | raiz/App.tsx:96-318 | one event on the current screen; StepConsistent, StepCounts and FormOnlyWhenIdle state its effects |
| AppComponent.InitializedCredits | raiz/App.tsx:53-78 | a first visit starts with one credit and stores it; a stored balance is loaded as is; a payment adds exactly five to the loaded balance, stores it and closes the premium modal |
| AppComponent.InitializedConsistent | raiz/App.tsx:53-78 | from an empty or non-negative store, loading leaves the displayed and stored balances equal and non-negative |
| AppComponent.SubmittedEffects | raiz/App.tsx:96-133 | a blank niche changes nothing; no credits opens only the premium modal; otherwise LOADING with the error cleared, one backend call, then the plan with one credit taken and stored, or the classified message with balance and plan untouched; the sign of the balance is kept |
| AppComponent.StepConsistent | raiz/App.tsx:96-139 | every handler keeps the displayed and stored balances equal and non-negative |
| AppComponent.RunConsistent | raiz/App.tsx:96-139 | any sequence of events keeps the displayed and stored balances equal and non-negative |
| AppComponent.StepCounts | raiz/App.tsx:96-139 | one event calls the backend once exactly when it is a submit from the idle screen's form that passes the checks, and costs one credit exactly when that call succeeds |
| AppComponent.FormOnlyWhenIdle | raiz/App.tsx:240-318 | while loading, or showing a result or an error, the form's edits and submit cannot happen: they change nothing and call nothing |
| AppComponent.CreditsAccounting | raiz/App.tsx:98-116 | over any run, the balance drops by exactly the number of delivered plans; from a non-negative balance, no run delivers more plans than there were credits |
| AppComponent.DepletedMakesNoCalls | raiz/App.tsx:101-104 | with no credits, no sequence of events calls the backend, changes the balance or delivers a plan |
| AppComponent.FirstVisitBuysOnePlan | raiz/App.tsx:53-139 | on a first visit, one free plan for "Pizzaria" leaves zero credits; after a reset and the niche typed again, the second submit opens the premium modal on the idle form, with no plan and without a second backend call |
| AppComponent.App.constructor | raiz/App.tsx:39-50 | the first render: the form defaults, zero credits, IDLE, no plan, no error |
| AppComponent.App.Initialize | raiz/App.tsx:53-78 | loads or seeds the balance, credits five on a payment, and ends in the state `Initialized` gives |
| AppComponent.App.SetSegment | raiz/App.tsx:39 | only the niche changes; on the idle screen this is the form's edit event |
| AppComponent.App.SetLanguage | raiz/App.tsx:40 | only the language changes; on the idle screen this is the form's edit event |
| AppComponent.App.SetRegion | raiz/App.tsx:41 | only the region changes; on the idle screen this is the form's edit event |
| AppComponent.App.SetRadius | raiz/App.tsx:42 | only the radius changes; on the idle screen this is the form's edit event |
| AppComponent.App.SetShowPremiumModal | raiz/App.tsx:46 | only the premium modal's visibility changes |
| AppComponent.App.BeginSubmit | raiz/App.tsx:97-107 | proceeds iff the niche is not blank and credits are positive, and leaves the state the checks give (see SubmittedEffects) |
| AppComponent.App.CompleteSubmit | raiz/App.tsx:108-132 | a plan is kept, SUCCESS shown, and one credit deducted and stored; a failure shows the classified message and ERROR, with the balance untouched |
| AppComponent.App.Submit | raiz/App.tsx:96-133 | ends in the state `Submitted` gives for the generation's result on the niche, language and region (so SubmittedEffects, StepConsistent and CreditsAccounting hold of it); the generation is called only when the checks pass |
| AppComponent.App.SubmitToGemini | raiz/App.tsx:109 | the submit handler with the Gemini service as its generation: the radius is not passed on |
| AppComponent.App.Reset | raiz/App.tsx:135-139 | back to IDLE with no plan and an empty niche; credits, store and last error are untouched |

## Left out

- Rendering (the JSX below `raiz/App.tsx:146`), apart from which events each screen offers. The logo's reset (`raiz/App.tsx:215`) and the result and error screens' reset buttons (339, 356) are the modelled `Reset` event. The premium modal's buttons (157, 224) are the modelled `SetPremiumModal` event.
- The copy buttons and the Ads Library link (`openAdsLib`): they open or copy text and change no state.
- The geolocation lookup (`raiz/App.tsx:80-94`): the browser's position is not modelled. Its only effect is to set the region to a "GPS: lat, lon" text, and `EditRegion` / `App.SetRegion` cover that as an arbitrary string.
- The SDK client, the API key and the network call: the backend is a function parameter from the request to a response text or a thrown message.
- The request's `temperature: 0.7`: a real number that only steers sampling, so it is not part of the modelled request.
- `JSON.parse(text) as MarketingPlan`: parsing is a parameter that may fail with a message. The cast is unchecked in the source, so nothing proves that a parsed value has the plan's shape.
- `parseInt` of a stored value that is not a number (NaN): the store is modelled as an optional integer.
- An error without a `message` property (`err.message?` is undefined): the error is modelled as its message string.
- `console.error`, `alert`, and `window.history.replaceState`, which clears the payment flag from the URL: output and navigation with no effect on the modelled state.
- AppComponent.App.Submit: the handler is atomic. The state between `setAppState(LOADING)` and the awaited response, and a reset or a second submit arriving while it is pending, are not modelled. React's batching of state updates and the stale `credits` captured by the closure are not modelled either.
- AppComponent.App.SetSegment, SetLanguage, SetRegion, SetRadius and Submit: the class's handlers can be called on any screen. The page offers them only on the idle form; that restriction is in `Step` (see FormOnlyWhenIdle), not in the methods' preconditions.
- AppComponent.App.Initialize: runs once per page load. A React strict-mode double run of the effect is not modelled.
- The integer width of `credits`: JavaScript numbers are modelled as unbounded integers.
