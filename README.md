# Instagram Story generator: planning and layout, in Dafny

This project models the planning-and-layout pipeline of a Canva app that turns
a short prompt into an Instagram Story page. A story plan holds a style mode
(minimal, bold or premium), a template id, a palette and four copy strings.
The code builds plans in two independent places:

- The editor's local planner (`fakePlanner`). The editor normalises this plan:
  each copy field is trimmed and clamped with an ellipsis. It then looks up
  the plan's template in a fixed registry of three, and turns each template
  element into exactly one page element, in template order.
- The server route `/plan-story`. It asks a language model and falls back to
  a deterministic draft plan. It answers with that plan validated against the
  plan schema but not normalised, so its copy may be longer than the
  editor's limits.

The editor normalises and lays out its local plan only. Nothing in the code
passes the server's plan to the editor.

Modules, one per source file, plus three helpers:

| module | file | models |
|---|---|---|
| `StoryTemplates` | story_templates.dfy | storyTemplates.ts: plan types, `TEMPLATES`, `getTemplate`, `clampText`, `normalizePlan` |
| `App` | app.dfy | app.tsx: `DEFAULT_PALETTES`, `fakePlanner`, the element loop of `onGenerate` |
| `PlanStory` | plan_story.dfy | server/plan-story.ts: prompt cleaning, the draft, the model-or-draft choice |
| `PlanSchema` | plan_schema.dfy | planSchema.ts: `StyleModeSchema`, `StoryPlanSchema` as a validator over JSON values |
| `CanvaShapes` | canva_shapes.dfy | canvaShapes.ts: `rectShape` |
| `JsText` | js_text.dfy | JavaScript `trim`/`trimStart`/`trimEnd`, `toUpperCase`, number-to-text |
| `Json` | json.dfy | JSON values, property lookup on a destructured body, truthiness, `String(v)` |
| `Wrappers` | wrappers.dfy | `Option` and `Result` |

Choices made:

- The element loop is a method, `App.BuildElements`. Its loop invariant says
  which prefix of the page is done. Each element comes from the
  specification function `App.RenderSpec`, whose contract states the
  per-kind mapping.
- The route handler is a method, `PlanStory.HandlePlanStory`. The model call
  is a parameter: a total function from (cleaned prompt, mode, brand, cta)
  to parsed JSON or a failure. The handler therefore covers every possible
  behaviour of the model.
- Coordinates are `real` values, so the template literal 926.2 is exact.
  No arithmetic is done on them.

Facts about the code that the model keeps:

- The code does no coordinate scaling. Every coordinate, size and font size
  of a template passes through to the page element unchanged. Only `bg` is
  set to the fixed 1080×1920 story canvas (`App.RenderSpec`). No step fails
  for missing page dimensions.
- The server draft does not trim the brand or cta. Any truthy value is
  converted to text as sent, and the draft footer is "@" and the brand's
  text, with no " • This week". The editor's `fakePlanner` does trim both
  and adds " • This week". Each module models its own file.
- The server draft is built outside the inner try/catch. Converting the cta
  or brand to text throws a TypeError when the value is an object with its
  own `toString` property, or an array holding one at any depth. The route
  then answers 500 even though the style mode is valid
  (`PlanStory.HandlePlanStory`).

## Model

| member | source | states |
|---|---|---|
| `JsText.TrimStart` | src/intents/design_editor/storyTemplates.ts:87 | the result is a suffix of the input, everything dropped is whitespace, and it does not start with whitespace |
| `JsText.TrimEnd` | src/intents/design_editor/storyTemplates.ts:89 | the result is a prefix of the input, everything dropped is whitespace, and it does not end with whitespace |
| `JsText.Trim` | src/intents/design_editor/storyTemplates.ts:87 | the result is the input with whitespace removed from its two ends only: it sits in the input at some offset, everything before and after it is whitespace, and it has no whitespace at either end; it is empty exactly when the input is all whitespace |
| `JsText.TrimOfTrimmed` | src/intents/design_editor/storyTemplates.ts:87 | trimming a string with no whitespace at either end returns it unchanged |
| `JsText.ToUpper` | src/intents/design_editor/app.tsx:38 | same length; no lower-case ASCII letter remains; every other character is kept; each lower-case letter becomes its capital |
| `JsText.NatToString` | src/intents/design_editor/canvaShapes.ts:24 | the text is non-empty and all digits; it starts with '0' only for zero |
| `JsText.NatToStringRoundTrip` | src/intents/design_editor/canvaShapes.ts:24 | reading the digits back gives the number |
| `JsText.NumberToString` | src/intents/design_editor/canvaShapes.ts:24 | non-empty text of digits, '.' and '-', with a leading '-' exactly for negatives |
| `Json.Get` | src/intents/design_editor/server/plan-story.ts:10 | a destructured property is present exactly when the body is an object with that key, and then it is that key's value |
| `Json.ToJsString` | src/intents/design_editor/server/plan-story.ts:33-34 | converting a JSON value to text throws a TypeError exactly when `StringifyThrows`: an object with its own `toString`, or an array holding one at any depth. Otherwise a string is itself and an object is "[object Object]" |
| `Json.ToJsStringSingleton` | src/intents/design_editor/server/plan-story.ts:33-34 | a one-element array converts like its element, or to "" when the element is null |
| `Json.JoinResults` | src/intents/design_editor/server/plan-story.ts:33-34 | `Array.prototype.join` over converted elements: it fails exactly when some element's conversion fails, with that failure; otherwise it is the texts joined with the separator |
| `Json.JoinResultsFirstFailure` | src/intents/design_editor/server/plan-story.ts:33-34 | a failed join reports the first element whose conversion failed: every element before it converted |
| `Json.Truthy` | src/intents/design_editor/server/plan-story.ts:33-34 | a value is truthy exactly when it is present and is not null, false, 0 or the empty string |
| `StoryTemplates.FindTemplate` | src/intents/design_editor/storyTemplates.ts:80 | finds nothing exactly when no entry has the id; otherwise finds the first entry with that id |
| `StoryTemplates.GetTemplate` | src/intents/design_editor/storyTemplates.ts:79-83 | returns a registry template with the requested id; fails, with "Unknown template_id: " and the id, exactly when no registry entry has that id |
| `StoryTemplates.RegistryIdsResolve` | src/intents/design_editor/storyTemplates.ts:34-76 | t_min_01, t_bold_01 and t_prem_01 resolve to the minimal, bold and premium templates |
| `StoryTemplates.TemplateIdsDistinct` | src/intents/design_editor/storyTemplates.ts:34-76 | no two templates share an id |
| `StoryTemplates.EveryTemplateStartsWithBg` | src/intents/design_editor/storyTemplates.ts:34-76 | every template's first element is the background |
| `StoryTemplates.OneTemplatePerMode` | src/intents/design_editor/storyTemplates.ts:34-76 | each style mode has exactly one template |
| `StoryTemplates.ClampText` | src/intents/design_editor/storyTemplates.ts:86-90 | the result has at most `max` characters and no whitespace at either end. It is the trimmed input when that fits. Otherwise it is a prefix of the first `max - 1` characters that drops only trailing whitespace, followed by one "…". A trimmed input that fits is returned unchanged |
| `StoryTemplates.EllipsizedShape` | src/intents/design_editor/storyTemplates.ts:89 | the long-input branch cuts a trimmed string to a whitespace-free-ended prefix plus "…" |
| `StoryTemplates.ClampTextFillsLimit` | src/intents/design_editor/storyTemplates.ts:89 | when the character before the cut is not whitespace, the result is exactly the first `max - 1` characters and "…", `max` characters in all |
| `StoryTemplates.ClampTextIdempotent` | src/intents/design_editor/storyTemplates.ts:86-90 | clamping twice equals clamping once |
| `StoryTemplates.NormalizePlan` | src/intents/design_editor/storyTemplates.ts:93-103 | style mode, template id and palette are unchanged. Headline, subhead, cta and footer are trimmed and within 28, 90, 10 and 30 characters. A field whose trimmed text fits becomes that trimmed text. A field whose trimmed text is too long becomes its `clampText` cut: a prefix of the first `max - 1` characters that drops only trailing whitespace, and "…". A plan already in that form is returned unchanged |
| `StoryTemplates.NormalizePlanIdempotent` | src/intents/design_editor/storyTemplates.ts:93-103 | normalising twice equals normalising once |
| `CanvaShapes.RectPath` | src/intents/design_editor/canvaShapes.ts:24 | the path starts with M, ends with Z, and uses only M/H/V/Z, spaces and number text, never a Q command |
| `CanvaShapes.RectShape` | src/intents/design_editor/canvaShapes.ts:13-35 | type "shape". Top, left, width and height equal the arguments. There is exactly one path, filled with the argument colour, and it is the rectangle path of that size. The viewBox is at the origin with the same width and height |
| `CanvaShapes.RectPathOfNaturals` | src/intents/design_editor/canvaShapes.ts:24 | for whole-number sizes the path is "M 0 0 H w V h H 0 Z" with the sizes in plain decimal |
| `PlanSchema.ParseStyleMode` | src/intents/design_editor/planSchema.ts:6 | accepts exactly "minimal", "bold" and "premium", and the accepted mode is spelled as the input |
| `PlanSchema.ParseString` | src/intents/design_editor/planSchema.ts:11 | accepts exactly the present string values and returns that string |
| `PlanSchema.ParsePalette` | src/intents/design_editor/planSchema.ts:12-16 | accepts exactly objects with string `bg`, `text` and `accent` (no colour-format check), and reads each colour from the input |
| `PlanSchema.ParseCopy` | src/intents/design_editor/planSchema.ts:17-22 | accepts exactly objects with string `headline`, `subhead`, `cta` and `footer` (no length limits), and reads each from the input |
| `PlanSchema.ParseStoryPlan` | src/intents/design_editor/planSchema.ts:9-23 | accepts exactly the plan-shaped objects (enum style mode, any string template id, shaped palette and copy) and every field of the result comes from the input |
| `PlanSchema.ParseEncodeRoundTrip` | src/intents/design_editor/planSchema.ts:9-23 | validating the JSON form of any plan succeeds and returns that plan |
| `PlanSchema.RejectsBadStyleMode` | src/intents/design_editor/planSchema.ts:10 | a missing or unknown style mode is rejected whatever the other fields hold |
| `App.DefaultPalette` | src/intents/design_editor/app.tsx:18-22 | every default colour is a `#RRGGBB` hex colour, and each palette's background differs from its text and accent colours |
| `App.PlannerTemplateId` | src/intents/design_editor/app.tsx:30-31 | the chosen id resolves in the registry to the template of the same mode |
| `App.TrimmedOr` | src/intents/design_editor/app.tsx:27-28 | the trimmed string when present and not blank, else the fallback |
| `App.DefaultHeadlineUpper` | src/intents/design_editor/app.tsx:28 | the default prompt upper-cased is "NEW PRODUCT DROP" |
| `App.FakePlanner` | src/intents/design_editor/app.tsx:26-44 | style mode is the mode and palette its default. The template id resolves to the mode's template. Headline is the upper-cased trimmed prompt, or "NEW PRODUCT DROP" for a blank one. Subhead is fixed. Cta is the trimmed cta or "Shop now". Footer is "@", the trimmed brand or "yourbrand", and " • This week" |
| `App.RenderSpec` | src/intents/design_editor/app.tsx:68-152 | bg becomes a well-formed rectangle at (0,0) of size 1080×1920 in the background colour. Every other kind keeps its top, left and width. The accent bar keeps its height, takes the accent colour and uses radius-or-0. The cta pill is a well-formed accent rectangle of the same height, without its radius. Text kinds keep the font size and carry their own copy field: cta text in black, the others in the text colour |
| `App.BuildElements` | src/intents/design_editor/app.tsx:65-153 | one page element per template element, in template order, each the rendering of its spec |
| `App.OnGenerate` | src/intents/design_editor/app.tsx:57-153 | nothing is built when the design cannot add a page. Otherwise the page is the mode's registry template rendered element by element from the normalised local plan, and it starts with a full-canvas background in the mode's default background colour |
| `PlanStory.CleanPrompt` | src/intents/design_editor/server/plan-story.ts:12-13 | never empty: the trimmed prompt when it is a non-blank string, else "New product drop" |
| `PlanStory.DraftTemplateId` | src/intents/design_editor/server/plan-story.ts:22-23 | the draft's template id is the editor planner's and resolves to the template of the same mode |
| `PlanStory.DraftPalette` | src/intents/design_editor/server/plan-story.ts:24-29 | the draft palette equals the editor's default palette for the mode |
| `PlanStory.TextOr` | src/intents/design_editor/server/plan-story.ts:33-34 | the cta-or-fallback text of the draft: the fallback when `v` is falsy, the text of `v` when it is truthy, a non-empty string kept as sent; it fails exactly when `v` is present and its conversion throws |
| `PlanStory.DraftOf` | src/intents/design_editor/server/plan-story.ts:20-36 | the draft object for given cta and footer texts: the mode's template and default palette, upper-cased prompt, fixed subhead, and it passes the plan schema unchanged |
| `PlanStory.DraftPlan` | src/intents/design_editor/server/plan-story.ts:20-36 | building the draft fails, with the TypeError, exactly when the cta or brand cannot be converted to text. Otherwise mode and palette are as above. Headline is the cleaned prompt upper-cased. Cta is the cta's text or "Shop now" (`TextOr`). Footer is "@" and the brand's text or "yourbrand". The draft passes the plan schema unchanged |
| `PlanStory.HandlePlanStory` | src/intents/design_editor/server/plan-story.ts:8-53 | the answer is the 500 error exactly when the style mode is missing or invalid, or the draft cannot be built because the cta or brand cannot be converted to text. Otherwise the source is "llm" exactly when the model call succeeded and its reply validates, and then the plan is the validated reply. Otherwise the plan is the draft, so a model failure alone never yields an error |

## Left out

- The React form, `useIntl`, `useFeatureSupport` and the JSX (app.tsx:46-56 and 161-211): user interface. The feature check appears only as the `canAddPage` parameter of `App.OnGenerate`.
- The `addPage` call and its page title (app.tsx:155-158): an asynchronous host call. The model stops at the built element sequence.
- Express routing, JSON body parsing and `res.json`/`res.status`, and server/index.ts: transport. The handler's outcome is the `Response` datatype instead.
- server/llmPlanner.ts is not part of this model. It is an OpenAI network client with prompt text and `JSON.parse`. It is replaced by the `Planner` parameter, which may return any JSON or fail.
- PlanSchema.ParseStoryPlan: reports only the first failing field, with a short message. zod collects every issue into an error object, and its message text is not modelled. The 500 response carries that short message.
- JsText.ToUpper: only the ASCII letters a to z are upper-cased. Full Unicode case mapping is not modelled, including mappings that change the length, such as ß to SS.
- JsText.NumberToString: exact for numbers whose decimal expansion ends within 20 fractional digits. It does not model the exponent notation JavaScript uses at or above 1e21 or below 1e-6. It does not model binary floating-point rounding. Every width and height passed to `rectShape` is a whole number.
- StoryTemplates.ClampText: requires `max >= 1`. The source only calls it with 28, 90, 10 and 30. For `max = 0`, JavaScript's `slice(0, -1)` would count from the end, and that case is not modelled. The `input ?? ""` guard is not modelled because model strings are never null.
- String lengths count Unicode scalar values. JavaScript counts UTF-16 code units, so a character outside the Basic Multilingual Plane counts as 2 there and 1 here.
- `console.log` calls, and the asynchronous and exception mechanics of the two try/catch blocks. A thrown exception is a `Failure` value: a schema error, a failed model call, or the TypeError of a failed conversion to text.
- Json.ToJsString: the TypeError's message is a single fixed text. JavaScript engines word it differently for a direct `toString()` call and for an implicit conversion, and the 500 body carries that wording.
- Json.Truthy: a JSON number is an exact real, not an IEEE double. A literal such as 1e-400, which `JSON.parse` rounds to 0 and so is falsy, is truthy here, and `NumberToString` prints its exact value rather than "0".
