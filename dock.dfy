/**
  The integer geometry under the notepad panel: its size, where it sits when
  shown and when hidden on each dock side, how a drag is clamped to the screen,
  the fixed-step slide between the two positions, and the rectangles the hover
  poll tests the pointer against.

  The right and left docks sit on a vertical screen edge, the top and bottom
  docks on a horizontal one; any other dock side leaves the geometry alone.
 */
module Dock {

  /** Pixels of the strip that stays on screen while the panel is collapsed (`hidden_size`). */
  const HiddenSize: int := 20

  /** Pixels moved by one step of the slide animation (`step`). */
  const StepSize: int := 10

  /** A dock side. The settings hold it as a name; a name other than the four
      below is kept as it is and docks nowhere. */
  datatype Side = Right | Left | Top | Bottom | Unknown(name: string)

  const DockNames: set<string> := {"right", "left", "top", "bottom"}

  /** The side a stored name selects. */
  function SideNamed(name: string): (side: Side)
    ensures Name(side) == name
    ensures side.Unknown? <==> name !in DockNames
  {
    if name == "right" then Right
    else if name == "left" then Left
    else if name == "top" then Top
    else if name == "bottom" then Bottom
    else Unknown(name)
  }

  /** The name stored for a side. */
  function Name(side: Side): string {
    match side
    case Right => "right"
    case Left => "left"
    case Top => "top"
    case Bottom => "bottom"
    case Unknown(name) => name
  }

  /** Every side that can be read from a name is read back from its own name. */
  lemma SideNameRoundTrip(side: Side)
    requires side.Unknown? ==> side.name !in DockNames
    ensures SideNamed(Name(side)) == side
  {
  }

  predicate IsVertical(side: Side) {
    side.Right? || side.Left?
  }

  predicate IsHorizontal(side: Side) {
    side.Top? || side.Bottom?
  }

  predicate IsDockSide(side: Side) {
    IsVertical(side) || IsHorizontal(side)
  }

  /** Height of the panel's content: drag handle, copy/paste row and a text area
      six buttons tall. Python's `//` floors; so does Dafny's `/` by a positive divisor. */
  function ContentHeight(bs: int): int {
    bs / 4 + bs / 2 + 6 * bs
  }

  /** Width of the panel's content (`sliding_width`, `full_width`). */
  function ContentWidth(bs: int): int {
    4 * bs
  }

  function Max(a: int, b: int): int {
    if a < b then b else a
  }

  function Min(a: int, b: int): int {
    if a < b then a else b
  }

  function Distance(a: int, b: int): nat {
    if a <= b then b - a else a - b
  }

  /** `v` lies between `a` and `b`, whichever of the two is smaller. */
  predicate Between(v: int, a: int, b: int) {
    (a <= v <= b) || (b <= v <= a)
  }

  /** The window's offset across the dock edge when the panel is shown and when it is hidden. */
  datatype Span = Span(visible: int, hidden: int)

  /** The offsets `set_geometry_parameters` computes for a dock side, for content
      `width` by `height` pixels. On the right and bottom the shown panel is flush
      with the screen edge and the hidden one leaves exactly the strip on screen.
      On the left and top the shown panel sits one strip away from the edge and
      the hidden one lies further in, not further out. */
  function Offsets(side: Side, width: int, height: int, screenWidth: int, screenHeight: int): (o: Span)
    requires IsDockSide(side)
    ensures side.Right? ==>
              && screenWidth - o.hidden == HiddenSize
              && o.visible + width + HiddenSize == screenWidth
              && o.hidden - o.visible == width
    ensures side.Bottom? ==>
              && screenHeight - o.hidden == HiddenSize
              && o.visible + height + HiddenSize == screenHeight
              && o.hidden - o.visible == height
    ensures side.Left? ==> o.visible == HiddenSize && o.hidden - o.visible == width - HiddenSize
    ensures side.Top? ==> o.visible == HiddenSize && o.hidden - o.visible == height - HiddenSize
  {
    match side
    case Right => Span(screenWidth - (width + HiddenSize), screenWidth - HiddenSize)
    case Left => Span(HiddenSize, width)
    case Top => Span(HiddenSize, height)
    case Bottom => Span(screenHeight - (height + HiddenSize), screenHeight - HiddenSize)
  }

  /** A dock side's panel laid out for content `width` by `height`: the window is
      the content plus the strip across the sliding axis (`total`), the shown and
      hidden offsets are the ones `Offsets` gives, and the slide offset lies
      between them. */
  predicate LaidOut(side: Side, width: int, height: int, total: int, visible: int, hidden: int, offset: int,
                    screenWidth: int, screenHeight: int)
    requires IsDockSide(side)
  {
    && total == (if IsVertical(side) then width else height) + HiddenSize
    && Span(visible, hidden) == Offsets(side, width, height, screenWidth, screenHeight)
    && Between(offset, visible, hidden)
  }

  /** Content `width` by `height` is the size for button size `bs`. */
  predicate SizedFor(bs: int, width: int, height: int) {
    width == ContentWidth(bs) && height == ContentHeight(bs)
  }

  /** The first position along the dock edge, `int((screen - size) / 2)`: half the
      free space, truncated toward zero. A panel that fits the screen starts on it. */
  function Centered(screen: int, size: int): (r: int)
    ensures size <= screen ==> 0 <= r && r + size <= screen
    ensures screen - size >= 0 ==> 0 <= 2 * r <= screen - size && screen - size - 2 * r <= 1
    ensures screen - size < 0 ==> screen - size <= 2 * r <= 0 && 2 * r - (screen - size) <= 1
  {
    var free := screen - size;
    if free >= 0 then free / 2 else -((-free) / 2)
  }

  /** `do_move`: a dragged position of a panel `size` long on a screen `limit` long.
      A panel that fits ends wholly on screen; a position that already keeps it on
      screen is taken as it is; otherwise the panel is pushed against an edge. */
  function Clamp(pos: int, size: int, limit: int): (r: int)
    ensures size <= limit ==> 0 <= r && r + size <= limit
    ensures 0 <= pos && pos + size <= limit ==> r == pos
    ensures pos < 0 ==> r == 0
    ensures 0 <= pos && pos + size > limit ==> r == limit - size
  {
    if pos < 0 then 0
    else if pos + size > limit then limit - size
    else pos
  }

  /** Clamping keeps the order of positions: the panel follows the pointer. */
  lemma ClampMonotone(p: int, q: int, size: int, limit: int)
    requires p <= q
    requires size <= limit
    ensures Clamp(p, size, limit) <= Clamp(q, size, limit)
  {
  }

  /** Which way the offset moves while sliding. */
  datatype Direction = Decreasing | Increasing

  function Reverse(d: Direction): Direction {
    if d == Decreasing then Increasing else Decreasing
  }

  /** The direction `slide_in` moves the offset on each dock side. */
  function InDirection(side: Side): Direction
    requires IsDockSide(side)
  {
    if side.Right? || side.Bottom? then Decreasing else Increasing
  }

  /** The direction `slide_out` moves the offset: always the opposite of `slide_in`. */
  function OutDirection(side: Side): Direction
    requires IsDockSide(side)
  {
    Reverse(InDirection(side))
  }

  /** The guard of a slide step: the target still lies ahead in direction `dir`. */
  predicate Approaching(dir: Direction, cur: int, target: int) {
    if dir == Decreasing then cur > target else cur < target
  }

  /** One step of `slide_in` or `slide_out`. At or past the target nothing moves;
      otherwise the offset moves toward the target by a full step, or onto the
      target when that is nearer, and never beyond it: never more than a step. */
  function Step(dir: Direction, cur: int, target: int): (r: int)
    ensures !Approaching(dir, cur, target) ==> r == cur
    ensures Approaching(dir, cur, target) ==>
              && Between(r, cur, target)
              && r != cur
              && Distance(cur, r) == Min(StepSize, Distance(cur, target))
              && Distance(r, target) == Distance(cur, target) - Distance(cur, r)
  {
    if !Approaching(dir, cur, target) then cur
    else if dir == Decreasing then Max(cur - StepSize, target)
    else Min(cur + StepSize, target)
  }

  /** A step keeps the offset between the shown and the hidden position. */
  lemma StepStaysBetween(dir: Direction, cur: int, a: int, b: int, target: int)
    requires Between(cur, a, b)
    requires target == a || target == b
    ensures Between(Step(dir, cur, target), a, b)
  {
  }

  /** The offset after `n` re-scheduled steps of the slide animation. */
  function Slide(n: nat, dir: Direction, cur: int, target: int): int {
    if n == 0 then cur else Slide(n - 1, dir, Step(dir, cur, target), target)
  }

  /** The number of steps from `cur` to `target`: the distance divided by the step, rounded up. */
  function StepsNeeded(cur: int, target: int): nat {
    (Distance(cur, target) + StepSize - 1) / StepSize
  }

  /** Sliding never passes the target: every intermediate offset lies between the
      start and the target. (An offset at or past the target does not move at all.) */
  lemma {:induction false} SlideNeverOvershoots(n: nat, dir: Direction, cur: int, target: int)
    ensures Between(Slide(n, dir, cur, target), cur, target)
    decreases n
  {
    if !Approaching(dir, cur, target) {
      SlidePastTargetStays(n, dir, cur, target);
    } else if n > 0 {
      var next := Step(dir, cur, target);
      if next == target {
        SlideStaysAt(n - 1, dir, target);
      } else {
        SlideNeverOvershoots(n - 1, dir, next, target);
      }
    }
  }

  /** Once on the target, further steps leave the offset there. */
  lemma {:induction false} SlideStaysAt(n: nat, dir: Direction, target: int)
    ensures Slide(n, dir, target, target) == target
    decreases n
  {
    if n > 0 {
      SlideStaysAt(n - 1, dir, target);
    }
  }

  /** An offset at or past the target is never moved, however many steps are taken. */
  lemma {:induction false} SlidePastTargetStays(n: nat, dir: Direction, cur: int, target: int)
    requires !Approaching(dir, cur, target)
    ensures Slide(n, dir, cur, target) == cur
    decreases n
  {
    if n > 0 {
      SlidePastTargetStays(n - 1, dir, cur, target);
    }
  }

  /** An offset approaching the target reaches it exactly after `StepsNeeded` steps, and not before. */
  lemma {:induction false} SlideReachesTarget(n: nat, dir: Direction, cur: int, target: int)
    requires Approaching(dir, cur, target) || cur == target
    ensures n >= StepsNeeded(cur, target) ==> Slide(n, dir, cur, target) == target
    ensures n < StepsNeeded(cur, target) ==> Slide(n, dir, cur, target) != target
    decreases n
  {
    if n > 0 {
      var next := Step(dir, cur, target);
      if cur == target {
        SlideStaysAt(n - 1, dir, target);
      } else {
        if next != target {
          assert Distance(next, target) == Distance(cur, target) - StepSize;
          assert StepsNeeded(next, target) == StepsNeeded(cur, target) - 1;
        } else {
          assert Distance(cur, target) <= StepSize;
          assert StepsNeeded(cur, target) == 1;
        }
        SlideReachesTarget(n - 1, dir, next, target);
      }
    }
  }

  /** The whole chain of steps, taken as many times as the distance needs: an offset
      short of the target ends on it, and any other offset ends where it was. */
  lemma SlideRunEnds(dir: Direction, cur: int, target: int)
    ensures Slide(StepsNeeded(cur, target), dir, cur, target) ==
            (if Approaching(dir, cur, target) then target else cur)
  {
    if Approaching(dir, cur, target) || cur == target {
      SlideReachesTarget(StepsNeeded(cur, target), dir, cur, target);
    } else {
      SlidePastTargetStays(StepsNeeded(cur, target), dir, cur, target);
    }
  }

  /** On the left and top docks the shown offset lies nearer the edge than the hidden
      one, yet `slide_in` only moves there by increasing the offset and `slide_out`
      only by decreasing it: from either resting position neither step moves. (The
      content is at least a strip long for every button size from 5 up.) */
  lemma SlideStuckOnLeftAndTop(side: Side, width: int, height: int, screenWidth: int, screenHeight: int)
    requires side.Left? || side.Top?
    requires width >= HiddenSize && height >= HiddenSize
    ensures var o := Offsets(side, width, height, screenWidth, screenHeight);
            && Step(InDirection(side), o.hidden, o.visible) == o.hidden
            && Step(OutDirection(side), o.visible, o.hidden) == o.visible
  {
  }

  /** An axis-aligned rectangle of screen pixels, bounds included. */
  datatype Rect = Rect(left: int, right: int, top: int, bottom: int) {
    predicate Contains(x: int, y: int) {
      left <= x <= right && top <= y <= bottom
    }
  }

  /** The rectangle the pointer must enter to expand a collapsed panel (`check_hover`).
      `pos` is the panel's position along its dock edge. It is a strip wide across
      the edge and spans the content along it; on the right, left and bottom it lies
      against the screen edge, on the top just below the content's height. */
  function StripRect(side: Side, width: int, height: int, screenWidth: int, screenHeight: int, pos: int): (r: Rect)
    requires IsDockSide(side)
    ensures IsVertical(side) ==> r.right - r.left == HiddenSize && r.top == pos && r.bottom == pos + height
    ensures IsHorizontal(side) ==> r.bottom - r.top == HiddenSize && r.left == pos && r.right == pos + width
    ensures side.Right? ==> r.right == screenWidth
    ensures side.Left? ==> r.left == 0
    ensures side.Top? ==> r.top == height
    ensures side.Bottom? ==> r.bottom == screenHeight
  {
    match side
    case Right => Rect(screenWidth - HiddenSize, screenWidth, pos, pos + height)
    case Left => Rect(0, HiddenSize, pos, pos + height)
    case Top => Rect(pos, pos + width, height, height + HiddenSize)
    case Bottom => Rect(pos, pos + width, screenHeight - HiddenSize, screenHeight)
  }

  /** The rectangle the pointer must leave to collapse an expanded panel (`check_hover`):
      the content and the strip across the edge, the content along it. On the right
      it ends at the screen edge, on the left it starts there; on the top and bottom
      it starts at the shown offset. */
  function PanelRect(side: Side, width: int, height: int, screenWidth: int, screenHeight: int, pos: int): (r: Rect)
    requires IsDockSide(side)
    ensures IsVertical(side) ==> r.right - r.left == width + HiddenSize && r.top == pos && r.bottom == pos + height
    ensures IsHorizontal(side) ==>
              && r.bottom - r.top == height + HiddenSize && r.left == pos && r.right == pos + width
              && r.top == Offsets(side, width, height, screenWidth, screenHeight).visible
    ensures side.Right? ==> r.right == screenWidth
    ensures side.Left? ==> r.left == 0
  {
    var o := Offsets(side, width, height, screenWidth, screenHeight);
    match side
    case Right => Rect(o.visible, screenWidth, pos, pos + height)
    case Left => Rect(0, width + HiddenSize, pos, pos + height)
    case _ => Rect(pos, pos + width, o.visible, o.visible + height + HiddenSize)
  }

  /** One hover poll: a collapsed panel expands exactly when the pointer is in the
      strip; an expanded one collapses exactly when the pointer is outside the panel.
      For content at least a strip long the flag then follows the pointer with
      hysteresis: in the strip it is set, outside the panel it is clear, and in the
      panel but outside the strip it keeps its value. */
  function Hover(expanded: bool, side: Side, width: int, height: int, screenWidth: int, screenHeight: int,
                 pos: int, x: int, y: int): (r: bool)
    requires IsDockSide(side)
    ensures width >= 0 && height >= HiddenSize ==>
              && (StripRect(side, width, height, screenWidth, screenHeight, pos).Contains(x, y) ==> r)
              && (!PanelRect(side, width, height, screenWidth, screenHeight, pos).Contains(x, y) ==> !r)
              && (&& PanelRect(side, width, height, screenWidth, screenHeight, pos).Contains(x, y)
                  && !StripRect(side, width, height, screenWidth, screenHeight, pos).Contains(x, y)
                  ==> r == expanded)
  {
    if expanded then PanelRect(side, width, height, screenWidth, screenHeight, pos).Contains(x, y)
    else StripRect(side, width, height, screenWidth, screenHeight, pos).Contains(x, y)
  }

  /** The expanded flag after a sequence of hover polls, one per pointer position.
      With no polls the flag is unchanged; otherwise, for content at least a strip
      long, a last position in the strip leaves the panel expanded and one outside
      the panel leaves it collapsed, whatever came before. */
  function Polls(expanded: bool, side: Side, width: int, height: int, screenWidth: int, screenHeight: int,
                 pos: int, points: seq<(int, int)>): (r: bool)
    requires IsDockSide(side)
    ensures points == [] ==> r == expanded
    ensures points != [] && width >= 0 && height >= HiddenSize ==>
              var last := points[|points| - 1];
              && (StripRect(side, width, height, screenWidth, screenHeight, pos).Contains(last.0, last.1) ==> r)
              && (!PanelRect(side, width, height, screenWidth, screenHeight, pos).Contains(last.0, last.1) ==> !r)
    decreases |points|
  {
    if points == [] then expanded
    else
      var e := Hover(expanded, side, width, height, screenWidth, screenHeight, pos, points[0].0, points[0].1);
      Polls(e, side, width, height, screenWidth, screenHeight, pos, points[1..])
  }

  /** The strip lies inside the panel, provided the content is at least a strip long. */
  lemma StripWithinPanel(side: Side, width: int, height: int, screenWidth: int, screenHeight: int, pos: int, x: int, y: int)
    requires IsDockSide(side)
    requires width >= 0 && height >= HiddenSize
    requires StripRect(side, width, height, screenWidth, screenHeight, pos).Contains(x, y)
    ensures PanelRect(side, width, height, screenWidth, screenHeight, pos).Contains(x, y)
  {
  }

  /** An expanded panel stays expanded for as long as the pointer stays inside it. */
  lemma {:induction false} StaysExpandedInside(side: Side, width: int, height: int, screenWidth: int, screenHeight: int,
                                               pos: int, points: seq<(int, int)>)
    requires IsDockSide(side)
    requires forall i :: 0 <= i < |points| ==>
               PanelRect(side, width, height, screenWidth, screenHeight, pos).Contains(points[i].0, points[i].1)
    ensures Polls(true, side, width, height, screenWidth, screenHeight, pos, points)
    decreases |points|
  {
    if points != [] {
      StaysExpandedInside(side, width, height, screenWidth, screenHeight, pos, points[1..]);
    }
  }

  /** Entering the strip expands a collapsed panel once, and it stays expanded while
      the pointer then moves about inside the panel. */
  lemma EnteringStripExpands(side: Side, width: int, height: int, screenWidth: int, screenHeight: int,
                             pos: int, points: seq<(int, int)>)
    requires IsDockSide(side)
    requires width >= 0 && height >= HiddenSize
    requires points != []
    requires StripRect(side, width, height, screenWidth, screenHeight, pos).Contains(points[0].0, points[0].1)
    requires forall i :: 1 <= i < |points| ==>
               PanelRect(side, width, height, screenWidth, screenHeight, pos).Contains(points[i].0, points[i].1)
    ensures Hover(false, side, width, height, screenWidth, screenHeight, pos, points[0].0, points[0].1)
    ensures Polls(false, side, width, height, screenWidth, screenHeight, pos, points)
  {
    var rest := points[1..];
    forall i | 0 <= i < |rest|
      ensures PanelRect(side, width, height, screenWidth, screenHeight, pos).Contains(rest[i].0, rest[i].1)
    {
      assert rest[i] == points[i + 1];
    }
    StaysExpandedInside(side, width, height, screenWidth, screenHeight, pos, rest);
  }
}
