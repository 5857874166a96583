/**
 * The design-editor side (src/intents/design_editor/app.tsx): the default
 * palettes, the local fallback planner, and the generate action that turns
 * each element of the chosen template into one page element.
 */
module App {
  import opened Wrappers
  import opened JsText
  import opened StoryTemplates
  import opened CanvaShapes

  predicate IsHexDigit(c: char) { '0' <= c <= '9' || 'A' <= c <= 'F' }

  /** A colour written `#RRGGBB` with upper-case hexadecimal digits. */
  predicate IsHexColor(c: string) {
    |c| == 7 && c[0] == '#' && forall i :: 1 <= i < 7 ==> IsHexDigit(c[i])
  }

  /**
   * `DEFAULT_PALETTES`: background, text and accent colour per style mode.
   * Every colour is a `#RRGGBB` hex colour, and the background differs from
   * both the text and the accent colour.
   */
  function DefaultPalette(mode: StyleMode): (p: Palette)
    ensures IsHexColor(p.bg) && IsHexColor(p.text) && IsHexColor(p.accent)
    ensures p.bg != p.text && p.bg != p.accent
  {
    match mode
    case Minimal => Palette("#0B0F1A", "#FFFFFF", "#22C55E")
    case Bold => Palette("#0B0F1A", "#FFFFFF", "#7C3AED")
    case Premium => Palette("#0A0A0A", "#F5F5F5", "#C8A04D")
  }

  /** The subhead every locally planned story carries. */
  const DEFAULT_SUBHEAD: string := "Limited stock. Set a reminder and don\U{2019}t miss it."

  /** The planner's choice of template: minimal, bold, and premium for anything else. */
  function PlannerTemplateId(mode: StyleMode): (id: string)
    ensures GetTemplate(id).Success? && GetTemplate(id).value.mode == mode
  {
    RegistryIdsResolve();
    match mode
    case Minimal => "t_min_01"
    case Bold => "t_bold_01"
    case Premium => "t_prem_01"
  }

  /** `s?.trim() || fallback`: the trimmed string when it is present and not blank. */
  function TrimmedOr(s: Option<string>, fallback: string): (r: string)
    ensures s.Some? && Trim(s.value) != "" ==> r == Trim(s.value)
    ensures s.None? || Trim(s.value) == "" ==> r == fallback
  {
    if s.Some? && Trim(s.value) != "" then Trim(s.value) else fallback
  }

  /** The default phrase, upper-cased, is the default headline. */
  lemma DefaultHeadlineUpper()
    ensures ToUpper("New product drop") == "NEW PRODUCT DROP"
  {
    var s := "New product drop";
    assert forall i :: 0 <= i < |s| ==> ToUpper(s)[i] == UpperChar(s[i]);
    assert forall i :: 0 <= i < |s| ==> UpperChar(s[i]) == "NEW PRODUCT DROP"[i];
  }

  /**
   * `fakePlanner`: a plan built from the form alone. Its template is the
   * registry's template for the mode, its palette the mode's default, its
   * headline the upper-cased trimmed prompt ("NEW PRODUCT DROP" for a blank
   * prompt), its cta the trimmed cta or "Shop now", and its footer the
   * trimmed brand or "yourbrand" as a handle for this week.
   */
  function FakePlanner(prompt: string, mode: StyleMode, brand: Option<string>, cta: Option<string>): (r: StoryPlan)
    ensures r.styleMode == mode && r.palette == DefaultPalette(mode)
    ensures GetTemplate(r.templateId).Success? && GetTemplate(r.templateId).value.mode == mode
    ensures Trim(prompt) == "" ==> r.copy.headline == "NEW PRODUCT DROP"
    ensures Trim(prompt) != "" ==> r.copy.headline == ToUpper(Trim(prompt))
    ensures r.copy.subhead == DEFAULT_SUBHEAD
    ensures r.copy.cta == TrimmedOr(cta, "Shop now")
    ensures r.copy.footer == "@" + TrimmedOr(brand, "yourbrand") + " \U{2022} This week"
  {
    DefaultHeadlineUpper();
    var b := TrimmedOr(brand, "yourbrand");
    var clean := TrimmedOr(Some(prompt), "New product drop");
    StoryPlan(mode, PlannerTemplateId(mode), DefaultPalette(mode),
              Copy(ToUpper(clean), DEFAULT_SUBHEAD, TrimmedOr(cta, "Shop now"), "@" + b + " \U{2022} This week"))
  }

  /**
   * A page element: a rectangle built by `rectShape`, the accent bar's
   * rounded rectangle, or a text box.
   */
  datatype RenderElement =
    | ShapeElement(shape: Shape)
    | RectangleElement(top: real, left: real, width: real, height: real, cornerRadius: real, fill: string)
    | TextElement(children: seq<string>, top: real, left: real, width: real, fontSize: real, color: string)

  function Top(e: RenderElement): real {
    match e
    case ShapeElement(s) => s.top
    case RectangleElement(top, _, _, _, _, _) => top
    case TextElement(_, top, _, _, _, _) => top
  }

  function Left(e: RenderElement): real {
    match e
    case ShapeElement(s) => s.left
    case RectangleElement(_, left, _, _, _, _) => left
    case TextElement(_, _, left, _, _, _) => left
  }

  function Width(e: RenderElement): real {
    match e
    case ShapeElement(s) => s.width
    case RectangleElement(_, _, width, _, _, _) => width
    case TextElement(_, _, _, width, _, _) => width
  }

  predicate IsTextSpec(spec: ElementSpec) {
    spec.Headline? || spec.Subhead? || spec.CtaText? || spec.Footer?
  }

  /**
   * The page element for one template element. The background fills the
   * whole story canvas in the background colour; every other element keeps
   * its template position and size unchanged. Bars and pills take the accent
   * colour (the pill loses its radius), text boxes carry their copy field in
   * the text colour, except the cta text, which is black.
   */
  function RenderSpec(spec: ElementSpec, plan: StoryPlan): (e: RenderElement)
    ensures spec.Bg? ==>
      && e.ShapeElement? && IsWellFormedRect(e.shape)
      && e.shape.top == 0.0 && e.shape.left == 0.0
      && e.shape.width == STORY_W && e.shape.height == STORY_H
      && e.shape.paths[0].fill.color == plan.palette.bg
    ensures !spec.Bg? ==> Top(e) == spec.top && Left(e) == spec.left && Width(e) == spec.width
    ensures spec.AccentBar? ==>
      && e.RectangleElement? && e.height == spec.height && e.fill == plan.palette.accent
      && e.cornerRadius == (if spec.radius.Some? then spec.radius.value else 0.0)
    ensures spec.CtaPill? ==>
      && e.ShapeElement? && IsWellFormedRect(e.shape)
      && e.shape.height == spec.height && e.shape.paths[0].fill.color == plan.palette.accent
    ensures IsTextSpec(spec) <==> e.TextElement?
    ensures IsTextSpec(spec) ==> e.fontSize == spec.fontSize
    ensures spec.Headline? ==> e.children == [plan.copy.headline] && e.color == plan.palette.text
    ensures spec.Subhead? ==> e.children == [plan.copy.subhead] && e.color == plan.palette.text
    ensures spec.CtaText? ==> e.children == [plan.copy.cta] && e.color == "#000000"
    ensures spec.Footer? ==> e.children == [plan.copy.footer] && e.color == plan.palette.text
  {
    match spec
    case Bg => ShapeElement(RectShape(RectArgs(0.0, 0.0, STORY_W, STORY_H, plan.palette.bg)))
    case AccentBar(top, left, width, height, radius) =>
      RectangleElement(top, left, width, height, if radius.Some? then radius.value else 0.0, plan.palette.accent)
    case Headline(top, left, width, fontSize) =>
      TextElement([plan.copy.headline], top, left, width, fontSize, plan.palette.text)
    case Subhead(top, left, width, fontSize) =>
      TextElement([plan.copy.subhead], top, left, width, fontSize, plan.palette.text)
    case CtaPill(top, left, width, height, _) =>
      ShapeElement(RectShape(RectArgs(top, left, width, height, plan.palette.accent)))
    case CtaText(top, left, width, fontSize) =>
      TextElement([plan.copy.cta], top, left, width, fontSize, "#000000")
    case Footer(top, left, width, fontSize) =>
      TextElement([plan.copy.footer], top, left, width, fontSize, plan.palette.text)
  }

  /**
   * The loop of the generate action: one page element per template element,
   * pushed in template order.
   */
  method BuildElements(template: StoryTemplate, plan: StoryPlan) returns (elements: seq<RenderElement>)
    ensures |elements| == |template.elements|
    ensures forall i :: 0 <= i < |elements| ==> elements[i] == RenderSpec(template.elements[i], plan)
  {
    elements := [];
    for k := 0 to |template.elements|
      invariant |elements| == k
      invariant forall i :: 0 <= i < k ==> elements[i] == RenderSpec(template.elements[i], plan)
    {
      elements := elements + [RenderSpec(template.elements[k], plan)];
    }
  }

  /**
   * The generate action up to the page insertion: nothing when the design
   * cannot take a new page; otherwise the local plan is normalised, its
   * template looked up (which cannot fail) and rendered element by element.
   */
  method OnGenerate(canAddPage: bool, prompt: string, styleMode: StyleMode, brand: string, cta: string)
    returns (page: Option<seq<RenderElement>>)
    ensures page.Some? <==> canAddPage
    ensures canAddPage ==>
      var plan := NormalizePlan(FakePlanner(prompt, styleMode, Some(brand), Some(cta)));
      exists t :: t in TEMPLATES && t.mode == styleMode && |page.value| == |t.elements|
        && forall i :: 0 <= i < |t.elements| ==> page.value[i] == RenderSpec(t.elements[i], plan)
    ensures canAddPage ==>
      && |page.value| > 0 && page.value[0].ShapeElement? && IsWellFormedRect(page.value[0].shape)
      && page.value[0].shape.width == STORY_W && page.value[0].shape.height == STORY_H
      && page.value[0].shape.paths[0].fill.color == DefaultPalette(styleMode).bg
  {
    if !canAddPage {
      return None;
    }
    var plan := NormalizePlan(FakePlanner(prompt, styleMode, Some(brand), Some(cta)));
    var template := GetTemplate(plan.templateId).value;
    assert template in TEMPLATES && template.mode == styleMode;
    EveryTemplateStartsWithBg();
    var elements := BuildElements(template, plan);
    assert elements[0] == RenderSpec(Bg, plan);
    assert plan.palette == DefaultPalette(styleMode);
    page := Some(elements);
  }
}
