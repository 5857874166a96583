/**
 * The story plan, the template registry and copy normalisation
 * (src/intents/design_editor/storyTemplates.ts).
 */
module StoryTemplates {
  import opened Wrappers
  import opened JsText

  /** The three style modes; each selects a default palette and one template. */
  datatype StyleMode = Minimal | Bold | Premium

  datatype Palette = Palette(bg: string, text: string, accent: string)

  datatype Copy = Copy(headline: string, subhead: string, cta: string, footer: string)

  /** What the planner fills in after reading the user's prompt. */
  datatype StoryPlan = StoryPlan(styleMode: StyleMode, templateId: string, palette: Palette, copy: Copy)

  /** The story canvas, 1080 by 1920. */
  const STORY_W: real := 1080.0
  const STORY_H: real := 1920.0

  /**
   * One element of a template, in template coordinates. The accent bar's
   * radius is optional; the CTA pill's is required.
   */
  datatype ElementSpec =
    | Bg
    | AccentBar(top: real, left: real, width: real, height: real, radius: Option<real>)
    | Headline(top: real, left: real, width: real, fontSize: real)
    | Subhead(top: real, left: real, width: real, fontSize: real)
    | CtaPill(top: real, left: real, width: real, height: real, pillRadius: real)
    | CtaText(top: real, left: real, width: real, fontSize: real)
    | Footer(top: real, left: real, width: real, fontSize: real)

  datatype StoryTemplate = StoryTemplate(id: string, mode: StyleMode, name: string, elements: seq<ElementSpec>)

  /** The fixed catalogue: one template per style mode, each starting with its background. */
  const TEMPLATES: seq<StoryTemplate> := [
    StoryTemplate("t_min_01", Minimal, "Minimal \U{2014} Top-left stack", [
      Bg,
      Headline(307.0, 77.0, 926.2, 85.0),
      Subhead(622.7, 61.0, 958.0, 41.0),
      CtaPill(940.9, 340.5, 399.0, 123.0, 43.0),
      CtaText(969.0, 352.0, 376.0, 56.0),
      Footer(1170.0, 330.4, 420.3, 31.0)
    ]),
    StoryTemplate("t_bold_01", Bold, "Bold \U{2014} Accent bar headline", [
      Bg,
      AccentBar(200.0, 70.0, 940.0, 220.0, Some(36.0)),
      Headline(240.0, 110.0, 860.0, 108.0),
      Subhead(470.0, 110.0, 860.0, 48.0),
      CtaPill(640.0, 110.0, 320.0, 96.0, 48.0),
      CtaText(668.0, 110.0, 320.0, 38.0),
      Footer(1760.0, 110.0, 860.0, 34.0)
    ]),
    StoryTemplate("t_prem_01", Premium, "Premium \U{2014} Centered with accent line", [
      Bg,
      AccentBar(520.0, 240.0, 600.0, 8.0, Some(4.0)),
      Headline(340.0, 140.0, 800.0, 78.0),
      Subhead(560.0, 160.0, 760.0, 40.0),
      CtaPill(760.0, 380.0, 320.0, 84.0, 42.0),
      CtaText(784.0, 380.0, 320.0, 34.0),
      Footer(1760.0, 140.0, 800.0, 30.0)
    ])
  ]

  /** `ts.find(x => x.id === id)`: the first template with that id, if any. */
  function FindTemplate(ts: seq<StoryTemplate>, id: string): (r: Option<StoryTemplate>)
    ensures r.None? <==> forall i :: 0 <= i < |ts| ==> ts[i].id != id
    ensures r.Some? ==> exists k :: 0 <= k < |ts| && ts[k] == r.value && ts[k].id == id
                                   && forall j :: 0 <= j < k ==> ts[j].id != id
  {
    if ts == [] then None
    else if ts[0].id == id then Some(ts[0])
    else
      var rest := FindTemplate(ts[1..], id);
      assert forall i :: 1 <= i < |ts| ==> ts[i] == ts[1..][i - 1];
      if rest.Some? then
        var k :| 0 <= k < |ts[1..]| && ts[1..][k] == rest.value && ts[1..][k].id == id
                 && forall j :: 0 <= j < k ==> ts[1..][j].id != id;
        assert ts[k + 1] == rest.value && forall j :: 0 <= j < k + 1 ==> ts[j].id != id;
        rest
      else rest
  }

  /** `getTemplate`: the registry entry with the given id, or the "Unknown template_id" error. */
  function GetTemplate(id: string): (r: Result<StoryTemplate, string>)
    ensures r.Success? ==> r.value in TEMPLATES && r.value.id == id
    ensures r.Failure? <==> forall t :: t in TEMPLATES ==> t.id != id
    ensures r.Failure? ==> r.error == "Unknown template_id: " + id
  {
    match FindTemplate(TEMPLATES, id)
    case Some(t) => Success(t)
    case None => Failure("Unknown template_id: " + id)
  }

  /** The three registry ids resolve, each to the template of its own mode. */
  lemma {:induction false} RegistryIdsResolve()
    ensures GetTemplate("t_min_01") == Success(TEMPLATES[0]) && TEMPLATES[0].mode == Minimal
    ensures GetTemplate("t_bold_01") == Success(TEMPLATES[1]) && TEMPLATES[1].mode == Bold
    ensures GetTemplate("t_prem_01") == Success(TEMPLATES[2]) && TEMPLATES[2].mode == Premium
  {
    assert TEMPLATES[1..][1..] == [TEMPLATES[2]];
    assert FindTemplate(TEMPLATES, "t_min_01") == Some(TEMPLATES[0]);
    assert FindTemplate(TEMPLATES, "t_bold_01") == FindTemplate(TEMPLATES[1..], "t_bold_01") == Some(TEMPLATES[1]);
    assert FindTemplate(TEMPLATES, "t_prem_01") == FindTemplate(TEMPLATES[1..], "t_prem_01")
        == FindTemplate(TEMPLATES[1..][1..], "t_prem_01") == Some(TEMPLATES[2]);
  }

  /** No two registry entries share an id. */
  lemma TemplateIdsDistinct()
    ensures forall i, j :: 0 <= i < j < |TEMPLATES| ==> TEMPLATES[i].id != TEMPLATES[j].id
  {
  }

  /** Every template is drawn on top of its background: its first element is `Bg`. */
  lemma EveryTemplateStartsWithBg()
    ensures forall t :: t in TEMPLATES ==> |t.elements| > 0 && t.elements[0] == Bg
  {
  }

  /** Each style mode has exactly one template in the registry. */
  lemma {:induction false} OneTemplatePerMode(m: StyleMode)
    ensures exists i :: 0 <= i < |TEMPLATES| && TEMPLATES[i].mode == m
                        && forall j :: 0 <= j < |TEMPLATES| && TEMPLATES[j].mode == m ==> j == i
  {
    var modes := [TEMPLATES[0].mode, TEMPLATES[1].mode, TEMPLATES[2].mode];
    assert |TEMPLATES| == 3 && modes == [Minimal, Bold, Premium];
    var i := match m case Minimal => 0 case Bold => 1 case Premium => 2;
    assert modes[i] == m;
    assert forall j :: 0 <= j < 3 && modes[j] == m ==> j == i;
  }

  /** Maximum lengths of the four copy fields. */
  const HEADLINE_MAX: nat := 28
  const SUBHEAD_MAX: nat := 90
  const CTA_MAX: nat := 10
  const FOOTER_MAX: nat := 30

  /**
   * `clampText`: the trimmed input if it fits in `max` characters; otherwise
   * its first `max - 1` characters with trailing whitespace removed, followed
   * by one ellipsis. The source only calls it with the four positive maxima.
   */
  function ClampText(input: string, max: nat): (r: string)
    requires max >= 1
    ensures |r| <= max
    ensures IsTrimmed(r)
    ensures |Trim(input)| <= max ==> r == Trim(input)
    ensures IsTrimmed(input) && |input| <= max ==> r == input
    ensures |Trim(input)| > max ==> IsEllipsized(Trim(input), max, r)
  {
    var s := Trim(input);
    if |s| <= max then
      // The result is `s` either way; for an already trimmed input, the lemma shows `s` is the input itself.
      if IsTrimmed(input) then TrimOfTrimmed(input); s else s
    else
      var r := TrimEnd(s[..max - 1]) + [ELLIPSIS];
      EllipsizedShape(s, max);
      r
  }

  /**
   * `r` is `s` cut for a limit of `max`: a prefix of the first `max - 1`
   * characters of `s` that drops only trailing whitespace, followed by "…".
   */
  predicate IsEllipsized(s: string, max: nat, r: string)
    requires 1 <= max <= |s|
  {
    && 1 <= |r| <= max && r[|r| - 1] == ELLIPSIS
    && r[..|r| - 1] == s[..|r| - 1]
    && (forall i :: |r| - 1 <= i < max - 1 ==> IsWhitespace(s[i]))
    && (|r| == 1 || !IsWhitespace(r[|r| - 2]))
  }

  /** The long-input branch of `clampText` cuts a trimmed string as `IsEllipsized` says, and stays trimmed. */
  lemma EllipsizedShape(s: string, max: nat)
    requires IsTrimmed(s) && 1 <= max < |s|
    ensures IsEllipsized(s, max, TrimEnd(s[..max - 1]) + [ELLIPSIS])
    ensures IsTrimmed(TrimEnd(s[..max - 1]) + [ELLIPSIS])
  {
    var head := s[..max - 1];
    var kept := TrimEnd(head);
    var r := kept + [ELLIPSIS];
    assert kept == s[..|kept|];
    assert forall i :: |kept| <= i < max - 1 ==> head[i] == s[i];
    assert r[..|r| - 1] == kept;
    assert kept != [] ==> r[0] == s[0];
  }

  /** Clamping what was already clamped changes nothing. */
  lemma ClampTextIdempotent(input: string, max: nat)
    requires max >= 1
    ensures ClampText(ClampText(input, max), max) == ClampText(input, max)
  {
  }

  /**
   * When the character just before the cut is not whitespace, a long input is
   * cut to exactly `max` characters: `max - 1` of the input and the ellipsis.
   */
  lemma {:induction false} ClampTextFillsLimit(input: string, max: nat)
    requires 2 <= max < |Trim(input)| && !IsWhitespace(Trim(input)[max - 2])
    ensures |ClampText(input, max)| == max
    ensures ClampText(input, max) == Trim(input)[..max - 1] + [ELLIPSIS]
  {
    var s, r := Trim(input), ClampText(input, max);
    assert IsEllipsized(s, max, r);
    assert |r| - 1 >= max - 1;
    assert r == r[..|r| - 1] + [ELLIPSIS];
  }

  /** The four copy fields are trimmed and within their limits. */
  predicate IsNormalizedCopy(c: Copy) {
    && IsTrimmed(c.headline) && |c.headline| <= HEADLINE_MAX
    && IsTrimmed(c.subhead) && |c.subhead| <= SUBHEAD_MAX
    && IsTrimmed(c.cta) && |c.cta| <= CTA_MAX
    && IsTrimmed(c.footer) && |c.footer| <= FOOTER_MAX
  }

  /**
   * `normalizePlan`: clamps headline, subhead, cta and footer to 28, 90, 10 and
   * 30 characters, each as `clampText` does, and keeps everything else.
   */
  function NormalizePlan(plan: StoryPlan): (r: StoryPlan)
    ensures r.styleMode == plan.styleMode && r.templateId == plan.templateId && r.palette == plan.palette
    ensures IsNormalizedCopy(r.copy)
    ensures IsNormalizedCopy(plan.copy) ==> r == plan
    ensures |Trim(plan.copy.headline)| <= HEADLINE_MAX ==> r.copy.headline == Trim(plan.copy.headline)
    ensures |Trim(plan.copy.subhead)| <= SUBHEAD_MAX ==> r.copy.subhead == Trim(plan.copy.subhead)
    ensures |Trim(plan.copy.cta)| <= CTA_MAX ==> r.copy.cta == Trim(plan.copy.cta)
    ensures |Trim(plan.copy.footer)| <= FOOTER_MAX ==> r.copy.footer == Trim(plan.copy.footer)
    ensures |Trim(plan.copy.headline)| > HEADLINE_MAX ==> IsEllipsized(Trim(plan.copy.headline), HEADLINE_MAX, r.copy.headline)
    ensures |Trim(plan.copy.subhead)| > SUBHEAD_MAX ==> IsEllipsized(Trim(plan.copy.subhead), SUBHEAD_MAX, r.copy.subhead)
    ensures |Trim(plan.copy.cta)| > CTA_MAX ==> IsEllipsized(Trim(plan.copy.cta), CTA_MAX, r.copy.cta)
    ensures |Trim(plan.copy.footer)| > FOOTER_MAX ==> IsEllipsized(Trim(plan.copy.footer), FOOTER_MAX, r.copy.footer)
  {
    plan.(copy := Copy(
      ClampText(plan.copy.headline, HEADLINE_MAX),
      ClampText(plan.copy.subhead, SUBHEAD_MAX),
      ClampText(plan.copy.cta, CTA_MAX),
      ClampText(plan.copy.footer, FOOTER_MAX)))
  }

  /** Normalising twice is normalising once. */
  lemma NormalizePlanIdempotent(plan: StoryPlan)
    ensures NormalizePlan(NormalizePlan(plan)) == NormalizePlan(plan)
  {
  }
}
