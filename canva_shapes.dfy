/**
 * The filled-rectangle shape element of the design SDK
 * (src/intents/design_editor/canvaShapes.ts): an SVG-like closed path inside
 * a viewBox that mirrors the shape's size.
 */
module CanvaShapes {
  import opened JsText

  datatype RectArgs = RectArgs(top: real, left: real, width: real, height: real, color: string)

  datatype Fill = Fill(color: string)

  datatype ShapePath = ShapePath(d: string, fill: Fill)

  datatype ViewBox = ViewBox(top: real, left: real, width: real, height: real)

  /** A shape element; `elementType` is the SDK's `type` property. */
  datatype Shape = Shape(elementType: string, top: real, left: real, width: real, height: real,
                         paths: seq<ShapePath>, viewBox: ViewBox)

  /** Characters a rectangle path is made of: the commands M, H, V, Z, spaces and number text. */
  predicate IsRectPathChar(c: char) {
    c == 'M' || c == 'H' || c == 'V' || c == 'Z' || c == ' ' || IsNumberChar(c)
  }

  predicate IsRectPathText(s: string) {
    forall i :: 0 <= i < |s| ==> IsRectPathChar(s[i])
  }

  lemma ConcatRectPathText(a: string, b: string)
    requires IsRectPathText(a) && IsRectPathText(b)
    ensures IsRectPathText(a + b)
  {
    assert forall i :: |a| <= i < |a + b| ==> (a + b)[i] == b[i - |a|];
  }

  /** The rectangle path around two number texts is closed, starts with a move and holds only path characters. */
  lemma {:induction false} RectPathText(w: string, h: string)
    requires IsRectPathText(w) && IsRectPathText(h)
    ensures var d := "M 0 0 H " + w + " V " + h + " H 0 Z";
      && d[0] == 'M' && d[|d| - 1] == 'Z' && IsRectPathText(d)
  {
    var head: string := "M 0 0 H ";
    var mid: string := " V ";
    var tail: string := " H 0 Z";
    assert IsRectPathText(head) && IsRectPathText(mid) && IsRectPathText(tail);
    ConcatRectPathText(head, w);
    ConcatRectPathText(head + w, mid);
    ConcatRectPathText(head + w + mid, h);
    ConcatRectPathText(head + w + mid + h, tail);
    var d := head + w + mid + h + tail;
    assert d[0] == head[0] && d[|d| - 1] == tail[|tail| - 1];
  }

  /**
   * The path `M 0 0 H width V height H 0 Z`: a closed rectangle that starts
   * with a move command and uses no curve (`Q`) command.
   */
  function RectPath(width: real, height: real): (d: string)
    ensures |d| > 0 && d[0] == 'M' && d[|d| - 1] == 'Z'
    ensures forall i :: 0 <= i < |d| ==> IsRectPathChar(d[i])
    ensures forall i :: 0 <= i < |d| ==> d[i] != 'Q'
  {
    var w := NumberToString(width);
    var h := NumberToString(height);
    assert IsRectPathText(w) && IsRectPathText(h);
    RectPathText(w, h);
    "M 0 0 H " + w + " V " + h + " H 0 Z"
  }

  /**
   * A rectangle shape is well formed when its viewBox sits at the origin with
   * the shape's own size and it has exactly one path, which is closed.
   */
  predicate IsWellFormedRect(s: Shape) {
    && s.elementType == "shape"
    && s.viewBox == ViewBox(0.0, 0.0, s.width, s.height)
    && |s.paths| == 1
    && s.paths[0].d == RectPath(s.width, s.height)
  }

  /** `rectShape`: the shape element for a filled rectangle with the given geometry and colour. */
  function RectShape(a: RectArgs): (s: Shape)
    ensures IsWellFormedRect(s)
    ensures s.top == a.top && s.left == a.left && s.width == a.width && s.height == a.height
    ensures s.paths[0].fill.color == a.color
  {
    Shape("shape", a.top, a.left, a.width, a.height,
          [ShapePath(RectPath(a.width, a.height), Fill(a.color))],
          ViewBox(0.0, 0.0, a.width, a.height))
  }

  /** For whole-number sizes the path spells the width and height in plain decimal. */
  lemma RectPathOfNaturals(width: nat, height: nat)
    ensures RectPath(width as real, height as real)
         == "M 0 0 H " + NatToString(width) + " V " + NatToString(height) + " H 0 Z"
  {
    NumberToStringOfNat(width);
    NumberToStringOfNat(height);
  }
}
