/** The rounded-rectangle key background: its fields, the state search, the
    layers painted for a state set, the inset rectangle set on resize, the fill
    chosen for the background, and the fluent setters. Canvas calls become a
    list of abstract draw operations and paints become fill descriptions. */
module GradBack {
  import opened Wrappers

  const DEFAULT_CORNER_X: int := 4
  const DEFAULT_CORNER_Y: int := 4
  const DEFAULT_GAP: int := 2
  /** End colour meaning "no gradient: fill with the start colour". */
  const DEFAULT_COLOR: int := 12345678
  const GRADIENT_TYPE_LINEAR: int := 0
  const GRADIENT_TYPE_SWEEP: int := 1

  /** Android view-state attributes (`android.R.attr.state_*`). */
  const STATE_CHECKABLE: int := 0x0101009f
  const STATE_CHECKED: int := 0x010100a0
  const STATE_PRESSED: int := 0x010100a7

  /** Fixed overlay colours as Java ints: 0x44ffffff, Color.GREEN (0xff00ff00), Color.DKGRAY (0xff444444). */
  const PRESSED_COLOR: int := 0x44ffffff
  const CHECKED_COLOR: int := -16711936
  const CHECKABLE_COLOR: int := -12303292

  datatype RectF = RectF(left: real, top: real, right: real, bottom: real)

  /** What a paint fills with: nothing set yet, one colour, or a gradient between two colours. */
  datatype Fill =
    | Plain
    | Solid(color: int)
    | Sweep(cx: real, cy: real, sweepStart: int, sweepEnd: int)
    | Linear(x0: real, y0: real, x1: real, y1: real, linearStart: int, linearEnd: int)

  /** One canvas call made by `draw`. */
  datatype DrawOp =
    | RoundRect(rect: RectF, rx: int, ry: int, paint: Fill)
    | Arc(oval: RectF, startAngle: real, sweepAngle: real, useCenter: bool, arcPaint: Fill)

  /** The fields of a `GradBack`. `states` is `None` until `changeState` is first called. */
  datatype GradBack = GradBack(
    rect: RectF,
    fill: Fill,
    clrStart: int,
    clrEnd: int,
    gap: int,
    states: Option<seq<int>>,
    cornerX: int,
    cornerY: int,
    gradType: int)

  /** The no-argument constructor: Java's default field values plus the declared initialisers. */
  function New(): (g: GradBack)
    ensures g.gap == DEFAULT_GAP && g.cornerX == DEFAULT_CORNER_X && g.cornerY == DEFAULT_CORNER_Y
    ensures g.gradType == GRADIENT_TYPE_LINEAR && g.states.None? && g.fill.Plain?
    ensures g.clrStart == 0 && g.clrEnd == 0
    ensures g.rect == RectF(0.0, 0.0, 0.0, 0.0)
  {
    GradBack(RectF(0.0, 0.0, 0.0, 0.0), Plain, 0, 0, DEFAULT_GAP, None, DEFAULT_CORNER_X, DEFAULT_CORNER_Y,
             GRADIENT_TYPE_LINEAR)
  }

  /** The two-colour constructor: the default object with both colours set. */
  function NewWithColors(startColor: int, endColor: int): (g: GradBack)
    ensures g.clrStart == startColor && g.clrEnd == endColor
    ensures g.gap == DEFAULT_GAP && g.gradType == GRADIENT_TYPE_LINEAR && g.states.None?
    ensures g.cornerX == DEFAULT_CORNER_X && g.cornerY == DEFAULT_CORNER_Y
    ensures g.rect == New().rect && g.fill == New().fill
  {
    Set(New(), startColor, endColor)
  }

  // ---------------------------------------------------------------------------
  // Fluent setters. Each returns the object with only its own fields replaced.

  function Set(g: GradBack, startColor: int, endColor: int): (r: GradBack)
    ensures r.clrStart == startColor && r.clrEnd == endColor
    ensures r.rect == g.rect && r.fill == g.fill && r.gap == g.gap && r.states == g.states
    ensures r.cornerX == g.cornerX && r.cornerY == g.cornerY && r.gradType == g.gradType
  {
    g.(clrStart := startColor, clrEnd := endColor)
  }

  function SetGap(g: GradBack, gap: int): (r: GradBack)
    ensures r.gap == gap
    ensures r.rect == g.rect && r.fill == g.fill && r.clrStart == g.clrStart && r.clrEnd == g.clrEnd
    ensures r.states == g.states && r.cornerX == g.cornerX && r.cornerY == g.cornerY && r.gradType == g.gradType
  {
    g.(gap := gap)
  }

  function SetGradType(g: GradBack, gradType: int): (r: GradBack)
    ensures r.gradType == gradType
    ensures r.rect == g.rect && r.fill == g.fill && r.clrStart == g.clrStart && r.clrEnd == g.clrEnd
    ensures r.gap == g.gap && r.states == g.states && r.cornerX == g.cornerX && r.cornerY == g.cornerY
  {
    g.(gradType := gradType)
  }

  function SetCorners(g: GradBack, cx: int, cy: int): (r: GradBack)
    ensures r.cornerX == cx && r.cornerY == cy
    ensures r.rect == g.rect && r.fill == g.fill && r.clrStart == g.clrStart && r.clrEnd == g.clrEnd
    ensures r.gap == g.gap && r.states == g.states && r.gradType == g.gradType
  {
    g.(cornerX := cx, cornerY := cy)
  }

  /** `changeState`: the state array is replaced and nothing else changes. The argument
      may be null (`None`), which puts the object back in the state where `hasState`
      and `draw` would throw. */
  function ChangeState(g: GradBack, states: Option<seq<int>>): (r: GradBack)
    ensures r.states == states
    ensures r.rect == g.rect && r.fill == g.fill && r.clrStart == g.clrStart && r.clrEnd == g.clrEnd
    ensures r.gap == g.gap && r.cornerX == g.cornerX && r.cornerY == g.cornerY && r.gradType == g.gradType
  {
    g.(states := states)
  }

  // ---------------------------------------------------------------------------
  // State search.

  /** Front-to-back scan of a state array that stops at the first match. */
  function Scan(a: seq<int>, s: int): (found: bool)
    ensures found <==> s in a
  {
    if |a| == 0 then false
    else if a[0] == s then true
    else Scan(a[1..], s)
  }

  /** `hasState`: whether `s` is among the current states. Before the first
      `changeState` the array is null and Java would throw, hence the precondition. */
  function HasState(g: GradBack, s: int): (r: bool)
    requires g.states.Some?
    ensures r <==> s in g.states.value
    ensures g.states.value == [] ==> !r
  {
    Scan(g.states.value, s)
  }

  /** After `changeState(states)` with a non-null array, `hasState` answers membership in `states`. */
  lemma ChangeStateThenHasState(g: GradBack, states: seq<int>, s: int)
    ensures HasState(ChangeState(g, Some(states)), s) <==> s in states
  {
  }

  /** After `changeState(null)` the state array is absent again, so `hasState`
      and `draw` are no longer callable, just as after construction. */
  lemma ChangeStateNullUnsets(g: GradBack)
    ensures !ChangeState(g, None).states.Some?
    ensures ChangeState(g, None).states == New().states
  {
  }

  // ---------------------------------------------------------------------------
  // Resize and background fill.

  /** `makeBackground`: a solid start colour when the end colour is `DEFAULT_COLOR`,
      otherwise a sweep gradient centred at `(width, height)` for the sweep type and a
      vertical linear gradient over the height for every other type. */
  function MakeBackground(g: GradBack, width: real, height: real): (f: Fill)
    ensures f.Solid? <==> g.clrEnd == DEFAULT_COLOR
    ensures f.Solid? ==> f.color == g.clrStart
    ensures f.Sweep? <==> g.clrEnd != DEFAULT_COLOR && g.gradType == GRADIENT_TYPE_SWEEP
    ensures f.Sweep? ==> f == Sweep(width, height, g.clrStart, g.clrEnd)
    ensures f.Linear? <==> g.clrEnd != DEFAULT_COLOR && g.gradType != GRADIENT_TYPE_SWEEP
    ensures f.Linear? ==> f == Linear(0.0, 0.0, 0.0, height, g.clrStart, g.clrEnd)
  {
    if g.clrEnd == DEFAULT_COLOR then Solid(g.clrStart)
    else if g.gradType == GRADIENT_TYPE_SWEEP then Sweep(width, height, g.clrStart, g.clrEnd)
    else Linear(0.0, 0.0, 0.0, height, g.clrStart, g.clrEnd)
  }

  /** `onResize`: the background fill is rebuilt for the new size and the drawing
      rectangle is the shape's bounds inset by the gap on every side. */
  function OnResize(g: GradBack, width: real, height: real): (r: GradBack)
    ensures r.rect.left == r.rect.top == g.gap as real
    ensures r.rect.right + g.gap as real == width && r.rect.bottom + g.gap as real == height
    ensures r.fill == MakeBackground(g, width, height)
    ensures r.clrStart == g.clrStart && r.clrEnd == g.clrEnd && r.gap == g.gap && r.states == g.states
    ensures r.cornerX == g.cornerX && r.cornerY == g.cornerY && r.gradType == g.gradType
  {
    var gap := g.gap as real;
    g.(fill := MakeBackground(g, width, height), rect := RectF(gap, gap, width - gap, height - gap))
  }

  /** The inset rectangle is `2 * gap` narrower and shorter than the shape's bounds. */
  lemma ResizeInsetBothSides(g: GradBack, width: real, height: real)
    ensures var r := OnResize(g, width, height);
            r.rect.right - r.rect.left == width - 2.0 * g.gap as real
            && r.rect.bottom - r.rect.top == height - 2.0 * g.gap as real
  {
  }

  /** A gap set before a resize determines the inset of the resized rectangle. */
  lemma SetGapThenResize(g: GradBack, gap: int, width: real, height: real)
    ensures OnResize(SetGap(g, gap), width, height).rect
            == RectF(gap as real, gap as real, width - gap as real, height - gap as real)
  {
  }

  /** Colours set with `DEFAULT_COLOR` as end colour give a solid start-colour background
      after a resize, whatever the gradient type. */
  lemma SolidAfterDefaultEnd(g: GradBack, startColor: int, gradType: int, width: real, height: real)
    ensures OnResize(SetGradType(Set(g, startColor, DEFAULT_COLOR), gradType), width, height).fill
            == Solid(startColor)
  {
  }

  /** A freshly constructed background has end colour 0, not `DEFAULT_COLOR`, so its
      first resize builds a linear gradient, not a solid fill. */
  lemma DefaultObjectResizesToLinear(width: real, height: real)
    ensures OnResize(New(), width, height).fill == Linear(0.0, 0.0, 0.0, height, 0, 0)
  {
  }

  // ---------------------------------------------------------------------------
  // Drawing.

  /** `onDrawCheckMark`: a full-circle arc in the 8x8 box at offset (4, 4) from the
      top-left of the drawing rectangle, green when checked and dark grey otherwise.
      The `rect` argument is not used. */
  function OnDrawCheckMark(g: GradBack, checked: bool, rect: RectF): (op: DrawOp)
    ensures op.Arc? && op.startAngle == 0.0 && op.sweepAngle == 360.0 && !op.useCenter
    ensures op.oval.left == g.rect.left + 4.0 && op.oval.top == g.rect.top + 4.0
    ensures op.oval.right - op.oval.left == 8.0 && op.oval.bottom - op.oval.top == 8.0
    ensures op.arcPaint == Solid(if checked then CHECKED_COLOR else CHECKABLE_COLOR)
  {
    var rr := RectF(g.rect.left + 4.0, g.rect.top + 4.0, g.rect.left + 12.0, g.rect.top + 12.0);
    Arc(rr, 0.0, 360.0, false, if checked then Solid(CHECKED_COLOR) else Solid(CHECKABLE_COLOR))
  }

  /** The check mark depends only on the object and the checked flag. */
  lemma CheckMarkIgnoresRect(g: GradBack, checked: bool, rect1: RectF, rect2: RectF)
    ensures OnDrawCheckMark(g, checked, rect1) == OnDrawCheckMark(g, checked, rect2)
  {
  }

  /** The background fill layer that `draw` always paints first. */
  function BaseLayer(g: GradBack): DrawOp {
    RoundRect(g.rect, g.cornerX, g.cornerY, g.fill)
  }

  /** `draw`: the base fill, then the pressed overlay when pressed, then the check
      mark when checkable or checked. */
  function Draw(g: GradBack): (ops: seq<DrawOp>)
    requires g.states.Some?
    ensures 1 <= |ops| <= 3 && ops[0] == BaseLayer(g)
    ensures RoundRect(g.rect, g.cornerX, g.cornerY, Solid(PRESSED_COLOR)) in ops[1..]
            <==> STATE_PRESSED in g.states.value
    ensures (exists i :: 1 <= i < |ops| && ops[i].Arc?)
            <==> STATE_CHECKABLE in g.states.value || STATE_CHECKED in g.states.value
    ensures forall i :: 1 <= i < |ops| && ops[i].Arc? ==>
              i == |ops| - 1
              && (ops[i].arcPaint == Solid(CHECKED_COLOR) <==> STATE_CHECKED in g.states.value)
    ensures |ops| == 1 + (if STATE_PRESSED in g.states.value then 1 else 0)
                       + (if STATE_CHECKABLE in g.states.value || STATE_CHECKED in g.states.value then 1 else 0)
    ensures STATE_PRESSED in g.states.value
            ==> ops[1] == RoundRect(g.rect, g.cornerX, g.cornerY, Solid(PRESSED_COLOR))
    ensures ops[|ops| - 1].Arc?
            ==> ops[|ops| - 1] == OnDrawCheckMark(g, STATE_CHECKED in g.states.value, g.rect)
  {
    var pressed := if HasState(g, STATE_PRESSED)
                   then [RoundRect(g.rect, g.cornerX, g.cornerY, Solid(PRESSED_COLOR))]
                   else [];
    var checked := HasState(g, STATE_CHECKED);
    var checkable := HasState(g, STATE_CHECKABLE);
    var mark := if checkable || checked then [OnDrawCheckMark(g, checked, g.rect)] else [];
    var ops := [BaseLayer(g)] + pressed + mark;
    assert ops[1..] == pressed + mark;
    assert forall i :: 1 <= i < |ops| ==> ops[i] in pressed + mark;
    assert mark != [] ==> ops[|ops| - 1] == mark[0];
    ops
  }

  /** With no states at all, only the base fill is painted. */
  lemma DrawNoStates(g: GradBack)
    requires g.states == Some([])
    ensures Draw(g) == [BaseLayer(g)]
  {
  }
}
