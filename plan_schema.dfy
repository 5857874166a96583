/**
 * The runtime schema of a story plan (src/intents/design_editor/planSchema.ts):
 * an enum check on the style mode and string checks on every other field.
 */
module PlanSchema {
  import opened Wrappers
  import opened Json
  import opened StoryTemplates

  /** A rejected value: the path of the first failing field and why it failed. */
  datatype SchemaError = SchemaError(path: string, message: string)

  /** The wire spelling of a style mode. */
  function ModeName(m: StyleMode): string {
    match m
    case Minimal => "minimal"
    case Bold => "bold"
    case Premium => "premium"
  }

  /** `StyleModeSchema.parse`: accepts exactly the strings "minimal", "bold" and "premium". */
  function ParseStyleMode(v: Option<Json>, path: string): (r: Result<StyleMode, SchemaError>)
    ensures r.Success? <==> v == Some(JString("minimal")) || v == Some(JString("bold")) || v == Some(JString("premium"))
    ensures r.Success? ==> v == Some(JString(ModeName(r.value)))
  {
    match v
    case Some(JString(s)) =>
      if s == "minimal" then Success(Minimal)
      else if s == "bold" then Success(Bold)
      else if s == "premium" then Success(Premium)
      else Failure(SchemaError(path, "Invalid enum value"))
    case Some(_) => Failure(SchemaError(path, "Expected string"))
    case None => Failure(SchemaError(path, "Required"))
  }

  /** `z.string()`: accepts any string, and nothing else. */
  function ParseString(v: Option<Json>, path: string): (r: Result<string, SchemaError>)
    ensures r.Success? <==> v.Some? && v.value.JString?
    ensures r.Success? ==> v == Some(JString(r.value))
  {
    match v
    case Some(JString(s)) => Success(s)
    case Some(_) => Failure(SchemaError(path, "Expected string"))
    case None => Failure(SchemaError(path, "Required"))
  }

  /** The value is an object whose property `key` is a string. */
  predicate HasString(v: Json, key: string) {
    v.JObject? && key in v.fields && v.fields[key].JString?
  }

  predicate IsPaletteShaped(v: Option<Json>) {
    v.Some? && HasString(v.value, "bg") && HasString(v.value, "text") && HasString(v.value, "accent")
  }

  predicate IsCopyShaped(v: Option<Json>) {
    && v.Some? && HasString(v.value, "headline") && HasString(v.value, "subhead")
    && HasString(v.value, "cta") && HasString(v.value, "footer")
  }

  /** The palette object: string `bg`, `text` and `accent`, with no colour-format check. */
  function ParsePalette(v: Option<Json>): (r: Result<Palette, SchemaError>)
    ensures r.Success? <==> IsPaletteShaped(v)
    ensures r.Success? ==>
      && Get(v.value, "bg") == Some(JString(r.value.bg))
      && Get(v.value, "text") == Some(JString(r.value.text))
      && Get(v.value, "accent") == Some(JString(r.value.accent))
  {
    if v.None? then Failure(SchemaError("palette", "Required"))
    else if !v.value.JObject? then Failure(SchemaError("palette", "Expected object"))
    else
      var bg :- ParseString(Get(v.value, "bg"), "palette.bg");
      var text :- ParseString(Get(v.value, "text"), "palette.text");
      var accent :- ParseString(Get(v.value, "accent"), "palette.accent");
      Success(Palette(bg, text, accent))
  }

  /** The copy object: four string fields, with no length limits. */
  function ParseCopy(v: Option<Json>): (r: Result<Copy, SchemaError>)
    ensures r.Success? <==> IsCopyShaped(v)
    ensures r.Success? ==>
      && Get(v.value, "headline") == Some(JString(r.value.headline))
      && Get(v.value, "subhead") == Some(JString(r.value.subhead))
      && Get(v.value, "cta") == Some(JString(r.value.cta))
      && Get(v.value, "footer") == Some(JString(r.value.footer))
  {
    if v.None? then Failure(SchemaError("copy", "Required"))
    else if !v.value.JObject? then Failure(SchemaError("copy", "Expected object"))
    else
      var headline :- ParseString(Get(v.value, "headline"), "copy.headline");
      var subhead :- ParseString(Get(v.value, "subhead"), "copy.subhead");
      var cta :- ParseString(Get(v.value, "cta"), "copy.cta");
      var footer :- ParseString(Get(v.value, "footer"), "copy.footer");
      Success(Copy(headline, subhead, cta, footer))
  }

  /** The shape `StoryPlanSchema` demands, stated field by field. */
  predicate IsPlanShaped(v: Json) {
    && v.JObject?
    && Get(v, "style_mode") in {Some(JString("minimal")), Some(JString("bold")), Some(JString("premium"))}
    && HasString(v, "template_id")
    && IsPaletteShaped(Get(v, "palette"))
    && IsCopyShaped(Get(v, "copy"))
  }

  /**
   * `StoryPlanSchema.parse`: accepts exactly the plan-shaped objects and reads
   * every field of the plan from the value; `template_id` may be any string.
   * Properties other than these are ignored.
   */
  function ParseStoryPlan(v: Json): (r: Result<StoryPlan, SchemaError>)
    ensures r.Success? <==> IsPlanShaped(v)
    ensures r.Success? ==>
      && Get(v, "style_mode") == Some(JString(ModeName(r.value.styleMode)))
      && Get(v, "template_id") == Some(JString(r.value.templateId))
      && ParsePalette(Get(v, "palette")) == Success(r.value.palette)
      && ParseCopy(Get(v, "copy")) == Success(r.value.copy)
  {
    if !v.JObject? then Failure(SchemaError("", "Expected object"))
    else
      var mode :- ParseStyleMode(Get(v, "style_mode"), "style_mode");
      var templateId :- ParseString(Get(v, "template_id"), "template_id");
      var palette :- ParsePalette(Get(v, "palette"));
      var copy :- ParseCopy(Get(v, "copy"));
      Success(StoryPlan(mode, templateId, palette, copy))
  }

  /** The JSON form of a plan, with the property names of the wire format. */
  function EncodePlan(p: StoryPlan): (v: Json)
    ensures v.JObject?
  {
    JObject(map[
      "style_mode" := JString(ModeName(p.styleMode)),
      "template_id" := JString(p.templateId),
      "palette" := JObject(map["bg" := JString(p.palette.bg), "text" := JString(p.palette.text),
                               "accent" := JString(p.palette.accent)]),
      "copy" := JObject(map["headline" := JString(p.copy.headline), "subhead" := JString(p.copy.subhead),
                            "cta" := JString(p.copy.cta), "footer" := JString(p.copy.footer)])
    ])
  }

  /** Every plan passes the schema unchanged: validation undoes encoding. */
  lemma {:induction false} ParseEncodeRoundTrip(p: StoryPlan)
    ensures ParseStoryPlan(EncodePlan(p)) == Success(p)
  {
    var v := EncodePlan(p);
    assert Get(v, "style_mode") == Some(JString(ModeName(p.styleMode)));
    var pv := Get(v, "palette").value;
    assert Get(pv, "bg") == Some(JString(p.palette.bg));
    assert Get(pv, "text") == Some(JString(p.palette.text));
    assert Get(pv, "accent") == Some(JString(p.palette.accent));
    var cv := Get(v, "copy").value;
    assert Get(cv, "headline") == Some(JString(p.copy.headline));
    assert Get(cv, "subhead") == Some(JString(p.copy.subhead));
    assert Get(cv, "cta") == Some(JString(p.copy.cta));
    assert Get(cv, "footer") == Some(JString(p.copy.footer));
    match p.styleMode
    case Minimal =>
    case Bold =>
    case Premium =>
  }

  /** A value with an absent or unknown `style_mode` is rejected, whatever its other fields hold. */
  lemma RejectsBadStyleMode(v: Json)
    requires Get(v, "style_mode") !in {Some(JString("minimal")), Some(JString("bold")), Some(JString("premium"))}
    ensures ParseStoryPlan(v).Failure?
  {
  }
}
