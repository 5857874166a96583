/**
 * The `/plan-story` route (src/intents/design_editor/server/plan-story.ts):
 * clean the prompt, validate the style mode, build a draft plan, and answer
 * with the model's plan when it arrives and validates, else with the draft.
 */
module PlanStory {
  import opened Wrappers
  import opened JsText
  import opened Json
  import opened StoryTemplates
  import opened PlanSchema
  import App

  /** Where the answered plan came from. */
  datatype Source = Llm | Draft

  /** The route's answer: `{ source, plan }`, or the status-500 error body. */
  datatype Response = Planned(source: Source, plan: StoryPlan) | Failed(status: nat, error: string)

  /**
   * The model call, supplied by the caller: given the cleaned prompt, the
   * validated mode, and the raw brand and cta, it returns parsed JSON or fails.
   */
  type Planner = (string, StyleMode, Option<Json>, Option<Json>) -> Result<Json, string>

  /** The prompt used when the request has none. */
  const DEFAULT_PROMPT: string := "New product drop"

  /** `cleanPrompt`: the trimmed prompt when it is a string with something in it, else the default prompt. */
  function CleanPrompt(prompt: Option<Json>): (r: string)
    ensures r != ""
    ensures prompt.Some? && prompt.value.JString? && Trim(prompt.value.s) != "" ==> r == Trim(prompt.value.s)
    ensures !(prompt.Some? && prompt.value.JString?) || Trim(prompt.value.s) == "" ==> r == DEFAULT_PROMPT
  {
    var trimmed := if prompt.Some? && prompt.value.JString? then Trim(prompt.value.s) else "";
    if trimmed == "" then DEFAULT_PROMPT else trimmed
  }

  /** The draft's template: premium, bold, and minimal for anything else; the same choice as the editor's planner. */
  function DraftTemplateId(mode: StyleMode): (id: string)
    ensures id == App.PlannerTemplateId(mode)
    ensures GetTemplate(id).Success? && GetTemplate(id).value.mode == mode
  {
    if mode == Premium then "t_prem_01" else if mode == Bold then "t_bold_01" else "t_min_01"
  }

  /** The draft's palette, written out per mode; it is the editor's default palette. */
  function DraftPalette(mode: StyleMode): (p: Palette)
    ensures p == App.DefaultPalette(mode)
  {
    if mode == Minimal then Palette("#0B0F1A", "#FFFFFF", "#22C55E")
    else if mode == Bold then Palette("#0B0F1A", "#FFFFFF", "#7C3AED")
    else Palette("#0A0A0A", "#F5F5F5", "#C8A04D")
  }

  /**
   * Building the draft throws: the cta or the brand is a value whose
   * conversion to text throws (an object with its own `toString`, or an array
   * holding one). Such a value is always truthy, so it is always converted.
   */
  predicate DraftThrows(brand: Option<Json>, cta: Option<Json>) {
    (cta.Some? && StringifyThrows(cta.value)) || (brand.Some? && StringifyThrows(brand.value))
  }

  /**
   * The `draft` plan: the mode's template and default palette, the cleaned
   * prompt upper-cased as headline, the fixed subhead, the cta's text or
   * "Shop now" (`TextOr`: a non-empty string cta is kept as sent, untrimmed),
   * and "@" followed by the brand's text or "yourbrand". Its construction
   * fails with the conversion's TypeError exactly when `DraftThrows`;
   * otherwise the draft passes the plan schema unchanged.
   */
  function DraftPlan(mode: StyleMode, cleanPrompt: string, brand: Option<Json>, cta: Option<Json>)
    : (r: Result<StoryPlan, string>)
    ensures r.Failure? <==> DraftThrows(brand, cta)
    ensures r.Failure? ==> r.error == TO_PRIMITIVE_ERROR
    ensures r.Success? ==>
      && r.value.styleMode == mode && r.value.palette == App.DefaultPalette(mode)
      && GetTemplate(r.value.templateId).Success? && GetTemplate(r.value.templateId).value.mode == mode
      && r.value.copy.headline == ToUpper(cleanPrompt)
      && r.value.copy.subhead == App.DEFAULT_SUBHEAD
      && r.value.copy.cta == TextOr(cta, "Shop now").value
      && r.value.copy.footer == "@" + TextOr(brand, "yourbrand").value
      && ParseStoryPlan(EncodePlan(r.value)) == Success(r.value)
  {
    var ctaText :- TextOr(cta, "Shop now");
    var brandText :- TextOr(brand, "yourbrand");
    Success(DraftOf(mode, cleanPrompt, ctaText, "@" + brandText))
  }

  /** The draft object once its cta and footer texts are known; it passes the plan schema unchanged. */
  function DraftOf(mode: StyleMode, cleanPrompt: string, ctaText: string, footer: string): (p: StoryPlan)
    ensures p.styleMode == mode && p.palette == App.DefaultPalette(mode)
    ensures GetTemplate(p.templateId).Success? && GetTemplate(p.templateId).value.mode == mode
    ensures p.copy == Copy(ToUpper(cleanPrompt), App.DEFAULT_SUBHEAD, ctaText, footer)
    ensures ParseStoryPlan(EncodePlan(p)) == Success(p)
  {
    var p := StoryPlan(
      mode, DraftTemplateId(mode), DraftPalette(mode),
      Copy(ToUpper(cleanPrompt), "Limited stock. Set a reminder and don\U{2019}t miss it.", ctaText, footer));
    ParseEncodeRoundTrip(p);
    p
  }

  /**
   * `(v || fallback).toString()`: the text of `v` when it is truthy, else
   * `fallback`; a non-empty string is kept as it is. It throws exactly when
   * the text of `v` is asked for and cannot be made.
   */
  function TextOr(v: Option<Json>, fallback: string): (r: Result<string, string>)
    ensures r.Failure? <==> v.Some? && StringifyThrows(v.value)
    ensures r.Failure? ==> r.error == TO_PRIMITIVE_ERROR
    ensures Truthy(v) ==> r == ToJsString(v.value)
    ensures !Truthy(v) ==> r == Success(fallback)
    ensures v.Some? && v.value.JString? && v.value.s != "" ==> r == Success(v.value.s)
  {
    if Truthy(v) then ToJsString(v.value) else Success(fallback)
  }

  /**
   * The route handler. An unknown or missing style mode fails with status 500
   * before the model is asked, and so does a cta or brand whose conversion to
   * text throws while the draft is built. Otherwise the answer is always a
   * plan: the model's, validated, when the call succeeds and its reply passes
   * the schema, and the draft in every other case.
   */
  method HandlePlanStory(body: Json, llm: Planner) returns (resp: Response)
    ensures resp.Failed? <==>
      || ParseStyleMode(Get(body, "style_mode"), "style_mode").Failure?
      || DraftThrows(Get(body, "brand"), Get(body, "cta"))
    ensures resp.Failed? ==> resp.status == 500
    ensures resp.Planned? ==>
      var mode := ParseStyleMode(Get(body, "style_mode"), "style_mode").value;
      var cleanPrompt := CleanPrompt(Get(body, "prompt"));
      var reply := llm(cleanPrompt, mode, Get(body, "brand"), Get(body, "cta"));
      var draft := DraftPlan(mode, cleanPrompt, Get(body, "brand"), Get(body, "cta"));
      && draft.Success?
      && (resp.source == Llm <==> reply.Success? && ParseStoryPlan(reply.value).Success?)
      && (resp.source == Llm ==> resp.plan == ParseStoryPlan(reply.value).value)
      && (resp.source == Draft ==> resp.plan == draft.value)
  {
    var prompt, styleMode, brand, cta := Get(body, "prompt"), Get(body, "style_mode"), Get(body, "brand"), Get(body, "cta");
    var cleanPrompt := CleanPrompt(prompt);

    var parsedMode := ParseStyleMode(styleMode, "style_mode");
    if parsedMode.Failure? {
      return Failed(500, parsedMode.error.message);
    }
    var mode := parsedMode.value;
    var draft := DraftPlan(mode, cleanPrompt, brand, cta);
    if draft.Failure? {
      return Failed(500, draft.error);
    }

    var finalPlan: StoryPlan;
    var source := Draft;
    var reply := llm(cleanPrompt, mode, brand, cta);
    if reply.Success? && ParseStoryPlan(reply.value).Success? {
      finalPlan := ParseStoryPlan(reply.value).value;
      source := Llm;
    } else {
      finalPlan := ParseStoryPlan(EncodePlan(draft.value)).value;
      source := Draft;
    }
    resp := Planned(source, finalPlan);
  }

}
