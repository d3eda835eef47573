/**
 * `DrawArea`: the canvas. The shape geometry is Java `int` arithmetic on the two or three
 * points of a gesture; the mouse handlers keep the gesture's points in `oldPoint` and
 * `currentPoint`, and every local drawing becomes a DRAW event for the other clients once
 * the user has been let in. The pixels are not modelled: each drawing call reports the
 * shape and the colour it would draw with.
 */
module Board {
  import opened Wrappers
  import opened Text
  import opened JavaInt
  import opened Dto
  import opened ClientConstants
  import opened Client

  /** `Color.BLACK` and `Color.WHITE` by `getRGB()`: opaque, so the alpha byte is 0xFF. */
  const BLACK: Color := Color(-0x0100_0000)
  const WHITE: Color := Color(-1)

  /** The x, y, width and height handed to `drawRect` or `drawOval`. */
  datatype Box = Box(x: Int32, y: Int32, width: Int32, height: Int32)

  /** A call on the canvas's `Graphics2D`, with the colour it is made in. `Segment` also
      records whether the wide eraser stroke is set. */
  datatype Shape =
    | Segment(from: Point, to: Point, color: Color, wide: bool)
    | Rectangle(box: Box, color: Color)
    | Oval(box: Box, color: Color)
    | Polygon(xs: seq<Int32>, ys: seq<Int32>, color: Color)
    | Label(text: string, at: Point, color: Color)

  function Min(a: Int32, b: Int32): Int32 { if a <= b then a else b }

  /** `Math.abs(b - a)` on `int`. */
  function Extent(a: Int32, b: Int32): Int32 { Abs(Wrap(b - a)) }

  /** The two coordinates are less than 2^31 apart, so their difference and its absolute
      value are exact `int`s. */
  predicate Fits(a: Int32, b: Int32) { -0x8000_0000 < a - b < 0x8000_0000 }

  lemma ExtentExact(a: Int32, b: Int32)
    requires Fits(a, b)
    ensures Extent(a, b) as int == if b >= a then b - a else a - b
  {
    WrapInRange(b - a);
    WrapInRange(a - b);
  }

  /** `createRectangle`: the top-left corner is the smaller coordinate on each axis and
      the sides are the absolute differences. */
  function RectangleBox(first: Point, second: Point): (r: Box)
    ensures r.x == Min(first.x, second.x) && r.y == Min(first.y, second.y)
    ensures r.width == Extent(first.x, second.x) && r.height == Extent(first.y, second.y)
  {
    Box(Min(first.x, second.x), Min(first.y, second.y),
        Abs(Wrap(second.x - first.x)), Abs(Wrap(second.y - first.y)))
  }

  /** Swapping the two corners of a drag draws the same rectangle, overflow included. */
  lemma RectangleSymmetric(first: Point, second: Point)
    ensures RectangleBox(first, second) == RectangleBox(second, first)
  {
    AbsDiffSymmetric(second.x, first.x);
    AbsDiffSymmetric(second.y, first.y);
  }

  /** Within `int` range the rectangle spans exactly the two points: both lie on its
      border box and the sides are non-negative. */
  lemma RectangleSpans(first: Point, second: Point)
    requires Fits(first.x, second.x) && Fits(first.y, second.y)
    ensures var r := RectangleBox(first, second);
      && r.width >= 0 && r.height >= 0
      && r.x as int + r.width as int == (if first.x >= second.x then first.x else second.x)
      && r.y as int + r.height as int == (if first.y >= second.y then first.y else second.y)
  {
    ExtentExact(first.x, second.x);
    ExtentExact(first.y, second.y);
  }

  /** `createCircle`: the oval's box is anchored at the first point, whichever way the
      drag went; its sides are the absolute differences. */
  function CircleBox(first: Point, second: Point): (r: Box)
    ensures r.x == first.x && r.y == first.y
    ensures r.width == Extent(first.x, second.x) && r.height == Extent(first.y, second.y)
  {
    Box(first.x, first.y, Abs(Wrap(second.x - first.x)), Abs(Wrap(second.y - first.y)))
  }

  /** Unlike the rectangle, the oval is not normalised: dragging up-left from (10, 10) to
      (0, 0) draws a box that starts at (10, 10). */
  lemma CircleNotNormalised()
    ensures CircleBox(Point(10, 10), Point(0, 0)) == Box(10, 10, 10, 10)
    ensures CircleBox(Point(0, 0), Point(10, 10)) == Box(0, 0, 10, 10)
  {
    ExtentExact(10, 0);
    ExtentExact(0, 10);
  }

  lemma CircleSides(first: Point, second: Point)
    requires Fits(first.x, second.x) && Fits(first.y, second.y)
    ensures var r := CircleBox(first, second); r.width >= 0 && r.height >= 0
  {
    ExtentExact(first.x, second.x);
    ExtentExact(first.y, second.y);
  }

  /** `createTriangle`'s third corner: half the horizontal distance from the second point
      towards the first, at the height of the release point. */
  function TriangleApex(first: Point, second: Point, last: Point): (p: Point)
    ensures p.y == last.y
  {
    var half := Half(Abs(Wrap(first.x - second.x)));
    if first.x > second.x then Point(Wrap(second.x + half), last.y)
    else Point(Wrap(second.x - half), last.y)
  }

  function Between(v: int, a: int, b: int): bool {
    (a <= v <= b) || (b <= v <= a)
  }

  /** Within `int` range the apex lies horizontally between the two drag points, at half
      their distance (rounded toward the second point). */
  lemma ApexBetween(first: Point, second: Point, last: Point)
    requires Fits(first.x, second.x)
    ensures var p := TriangleApex(first, second, last);
      && Between(p.x, first.x, second.x)
      && p.x as int == if first.x > second.x then second.x + (first.x - second.x) / 2
                      else second.x - (second.x - first.x) / 2
  {
    if first.x > second.x {
      ApexRight(first, second, last);
    } else {
      ApexLeft(first, second, last);
    }
  }

  lemma ApexRight(first: Point, second: Point, last: Point)
    requires Fits(first.x, second.x) && first.x > second.x
    ensures TriangleApex(first, second, last).x == second.x + (first.x - second.x) / 2
  {
    var d := first.x - second.x;
    WrapInRange(d);
    var h := d / 2;
    assert 0 <= h <= d;
    assert Half(Abs(Wrap(d))) == h;
    WrapInRange(second.x + h);
  }

  lemma ApexLeft(first: Point, second: Point, last: Point)
    requires Fits(first.x, second.x) && first.x <= second.x
    ensures TriangleApex(first, second, last).x == second.x - (second.x - first.x) / 2
  {
    var d := first.x - second.x;
    WrapInRange(d);
    var h := (-d) / 2;
    assert 0 <= h <= -d;
    WrapInRange(-d);
    assert Half(Abs(Wrap(d))) == h;
    WrapInRange(second.x - h);
  }

  /** Past `int` range `Math.abs` wraps: with the drag points 2^31 apart the apex lands
      outside the span of the two points. */
  lemma ApexOverflow()
    ensures TriangleApex(Point(0, 0), Point(-0x8000_0000, 0), Point(0, 0)) == Point(0x4000_0000, 0)
  {
    assert Wrap(0 - -0x8000_0000) == -0x8000_0000;
    assert Abs(-0x8000_0000) == Wrap(0x8000_0000) == -0x8000_0000;
    assert Half(-0x8000_0000) == -0x4000_0000;
    assert Wrap(-0x8000_0000 + -0x4000_0000) == 0x4000_0000;
  }

  /** The polygon `createTriangle` draws: the two drag points and the apex. */
  function TriangleShape(first: Point, second: Point, last: Point, color: Color): (s: Shape)
    ensures s.Polygon? && |s.xs| == 3 && |s.ys| == 3
    ensures s.xs[0] == first.x && s.xs[1] == second.x && s.ys[0] == first.y && s.ys[1] == second.y
    ensures s.xs[2] == TriangleApex(first, second, last).x && s.ys[2] == last.y
  {
    var apex := TriangleApex(first, second, last);
    Polygon([first.x, second.x, apex.x], [first.y, second.y, apex.y], color)
  }

  /** The DRAW event for a gesture: sent by the current user with the tool, the points and
      the selected colour; the text only for the text tool. */
  function DrawEvent(user: Option<User>, tool: Option<string>, start: Option<Point>, end: Option<Point>,
                     drag: Option<Point>, color: Option<Color>, text: Option<string>): (m: Message)
    ensures m.action == Some(ACTION_DRAW) && m.user == user && m.tool == tool
    ensures m.startPoint == start && m.endPoint == end && m.dragPoint == drag
    ensures m.color == color && m.drawText == text && m.chatMessage.None?
    ensures m.selectedUser.None? && m.activeUserList.None? && m.drawboardImage.None?
  {
    Message9(user, Some(ACTION_DRAW), tool, start, end, drag, color, text, None)
  }

  /** The tools whose release finishes a shape. */
  predicate IsShapeTool(t: string) {
    t == TOOL_LINE || t == TOOL_RECTANGLE || t == TOOL_CIRCLE || t == TOOL_TRIANGLE
  }

  /** The event a mouse release sends, if any: only the four shape tools send, all from
      the point where the gesture began; the triangle also carries the release point. */
  function ReleaseEvent(user: Option<User>, tool: string, start: Point, current: Point, release: Point,
                        color: Option<Color>): (e: Option<Message>)
    ensures e.Some? <==> IsShapeTool(tool)
  {
    if tool == TOOL_LINE || tool == TOOL_RECTANGLE || tool == TOOL_CIRCLE then
      Some(DrawEvent(user, Some(tool), Some(start), Some(release), None, color, None))
    else if tool == TOOL_TRIANGLE then
      Some(DrawEvent(user, Some(tool), Some(start), Some(current), Some(release), color, None))
    else None
  }

  /** Every event of a release starts where the gesture began, and the free-hand tools and
      the text tool send nothing on release. */
  lemma ReleaseEventStarts(user: Option<User>, tool: string, start: Point, current: Point, release: Point,
                           color: Option<Color>)
    ensures var e := ReleaseEvent(user, tool, start, current, release, color);
      && (e.Some? ==> e.value.startPoint == Some(start) && e.value.action == Some(ACTION_DRAW)
                      && e.value.tool == Some(tool) && e.value.color == color)
      && (tool == TOOL_PENCIL || tool == TOOL_ERASER || tool == TOOL_TEXT ==> e.None?)
  {
  }

  /** The queue after `sendEvent`: the event goes out only once the UI is enabled. */
  function Sent(queue: seq<Message>, enabled: bool, e: Option<Message>): (q: seq<Message>)
    ensures e.None? || !enabled ==> q == queue
    ensures e.Some? && enabled ==> q == queue + [e.value]
  {
    if enabled && e.Some? then queue + [e.value] else queue
  }

  /** The pen after a drawing call has restored it (`setSelectedColor(selectedColor)`):
      the selected colour, or, when there is none, the colour the call drew in. */
  function RestoredPen(selected: Option<Color>, ink: Color): Color {
    if selected.Some? then selected.value else ink
  }

  /** The pen after `clear`: painting the board white leaves the pen white, and the
      selected colour, when there is one, replaces it. */
  function ClearedPen(selected: Option<Color>): Color {
    RestoredPen(selected, WHITE)
  }

  /** `DrawArea` without its Swing component; `pen` and `wide` are the colour and stroke of
      its `Graphics2D`, which exists from the first paint on. */
  class DrawArea {
    const client: WhiteboardClient
    var oldPoint: Point
    var currentPoint: Point
    var selectedTool: Option<string>
    var selectedColor: Option<Color>
    var pen: Color
    var wide: bool
    var uiEnabled: bool

    constructor (client: WhiteboardClient)
      ensures this.client == client
      ensures oldPoint == Point(0, 0) && currentPoint == Point(0, 0)
      ensures selectedTool == Some(TOOL_PENCIL) && selectedColor == Some(BLACK)
      ensures pen == BLACK && !wide && !uiEnabled
    {
      this.client := client;
      oldPoint := Point(0, 0);
      currentPoint := Point(0, 0);
      selectedTool := Some(TOOL_PENCIL);
      selectedColor := Some(BLACK);
      pen := BLACK;
      wide := false;
      uiEnabled := false;
    }

    /** `sendEvent`: queued only after `enableUIAfterVerification`. */
    method SendEvent(m: Message)
      modifies client`actionList
      ensures client.actionList == Sent(old(client.actionList), uiEnabled, Some(m))
    {
      if uiEnabled {
        client.Enqueue(m);
      }
    }

    method EnableUIAfterVerification()
      modifies this`uiEnabled
      ensures uiEnabled
    {
      uiEnabled := true;
    }

    method SetSelectedTool(t: Option<string>)
      modifies this`selectedTool
      ensures selectedTool == t
    {
      selectedTool := t;
    }

    /** `graphics2d.setColor(c)`, which ignores a null colour. */
    method SetPen(c: Option<Color>)
      modifies this`pen
      ensures pen == if c.Some? then c.value else old(pen)
    {
      if c.Some? {
        pen := c.value;
      }
    }

    /** `setSelectedColor`: the selected colour becomes the pen's colour. */
    method SetSelectedColor(c: Option<Color>)
      modifies this`selectedColor, this`pen
      ensures selectedColor == c
      ensures pen == if c.Some? then c.value else old(pen)
    {
      selectedColor := c;
      SetPen(c);
    }

    /** `setSecondaryColor`: a remote event's colour, when it has one, replaces the pen's. */
    method SetSecondaryColor(c: Option<Color>)
      modifies this`pen
      ensures pen == if c.Some? then c.value else old(pen)
    {
      SetPen(c);
    }

    /** After a drawing call the pen is back to the selected colour. */
    method RestorePen()
      modifies this`pen
      ensures pen == if selectedColor.Some? then selectedColor.value else old(pen)
    {
      SetPen(selectedColor);
    }

    /** `createLine`: a segment in the event's colour (or the pen's), then the pen is
        restored. A missing point throws before anything is drawn. */
    method CreateLine(first: Option<Point>, second: Option<Point>, secondary: Option<Color>)
      returns (drawn: Option<Shape>)
      modifies this`pen
      ensures var ink := if secondary.Some? then secondary.value else old(pen);
        && (first.Some? && second.Some? ==> drawn == Some(Segment(first.value, second.value, ink, wide)))
        && (first.None? || second.None? ==> drawn.None? && pen == ink)
        && (drawn.Some? ==> pen == if selectedColor.Some? then selectedColor.value else ink)
    {
      SetSecondaryColor(secondary);
      if first.None? || second.None? {
        return None;
      }
      drawn := Some(Segment(first.value, second.value, pen, wide));
      RestorePen();
    }

    /** `createRectangle`. */
    method CreateRectangle(first: Option<Point>, second: Option<Point>, secondary: Option<Color>)
      returns (drawn: Option<Shape>)
      modifies this`pen
      ensures var ink := if secondary.Some? then secondary.value else old(pen);
        && (first.Some? && second.Some? ==> drawn == Some(Rectangle(RectangleBox(first.value, second.value), ink)))
        && (first.None? || second.None? ==> drawn.None? && pen == ink)
        && (drawn.Some? ==> pen == if selectedColor.Some? then selectedColor.value else ink)
    {
      SetSecondaryColor(secondary);
      if first.None? || second.None? {
        return None;
      }
      var a := first.value;
      var b := second.value;
      var topLeftX := Min(a.x, b.x);
      var topLeftY := Min(a.y, b.y);
      var width := Abs(Wrap(b.x - a.x));
      var height := Abs(Wrap(b.y - a.y));
      drawn := Some(Rectangle(Box(topLeftX, topLeftY, width, height), pen));
      RestorePen();
    }

    /** `createCircle`. */
    method CreateCircle(first: Option<Point>, second: Option<Point>, secondary: Option<Color>)
      returns (drawn: Option<Shape>)
      modifies this`pen
      ensures var ink := if secondary.Some? then secondary.value else old(pen);
        && (first.Some? && second.Some? ==> drawn == Some(Oval(CircleBox(first.value, second.value), ink)))
        && (first.None? || second.None? ==> drawn.None? && pen == ink)
        && (drawn.Some? ==> pen == if selectedColor.Some? then selectedColor.value else ink)
    {
      SetSecondaryColor(secondary);
      if first.None? || second.None? {
        return None;
      }
      var a := first.value;
      var b := second.value;
      var widthC := Abs(Wrap(b.x - a.x));
      var heightH := Abs(Wrap(b.y - a.y));
      drawn := Some(Oval(Box(a.x, a.y, widthC, heightH), pen));
      RestorePen();
    }

    /** `createTriangle`. */
    method CreateTriangle(first: Option<Point>, second: Option<Point>, last: Option<Point>,
                          secondary: Option<Color>)
      returns (drawn: Option<Shape>)
      modifies this`pen
      ensures var ink := if secondary.Some? then secondary.value else old(pen);
        && (first.Some? && second.Some? && last.Some? ==>
              drawn == Some(TriangleShape(first.value, second.value, last.value, ink)))
        && (first.None? || second.None? || last.None? ==> drawn.None? && pen == ink)
        && (drawn.Some? ==> pen == if selectedColor.Some? then selectedColor.value else ink)
    {
      SetSecondaryColor(secondary);
      if first.None? || second.None? || last.None? {
        return None;
      }
      var a := first.value;
      var b := second.value;
      var midX: Int32;
      if a.x > b.x {
        midX := Wrap(b.x + Half(Abs(Wrap(a.x - b.x))));
      } else {
        midX := Wrap(b.x - Half(Abs(Wrap(a.x - b.x))));
      }
      drawn := Some(Polygon([a.x, b.x, midX], [a.y, b.y, last.value.y], pen));
      RestorePen();
    }

    /** `createText`: `drawString` throws on a missing text or point. */
    method CreateText(first: Option<Point>, text: Option<string>, secondary: Option<Color>)
      returns (drawn: Option<Shape>)
      modifies this`pen
      ensures var ink := if secondary.Some? then secondary.value else old(pen);
        && (first.Some? && text.Some? ==> drawn == Some(Label(text.value, first.value, ink)))
        && (first.None? || text.None? ==> drawn.None? && pen == ink)
        && (drawn.Some? ==> pen == if selectedColor.Some? then selectedColor.value else ink)
    {
      SetSecondaryColor(secondary);
      if first.None? || text.None? {
        return None;
      }
      drawn := Some(Label(text.value, first.value, pen));
      RestorePen();
    }

    /** `eraserAction`: a wide white segment, then the selected colour and the thin stroke. */
    method EraserAction(first: Option<Point>, second: Option<Point>) returns (drawn: Option<Shape>)
      modifies this`pen, this`wide
      ensures first.Some? && second.Some? ==> drawn == Some(Segment(first.value, second.value, WHITE, true))
      ensures first.Some? && second.Some? ==>
        !wide && pen == if selectedColor.Some? then selectedColor.value else WHITE
      ensures first.None? || second.None? ==> drawn.None? && wide && pen == WHITE
    {
      pen := WHITE;
      wide := true;
      if first.None? || second.None? {
        return None;
      }
      drawn := Some(Segment(first.value, second.value, pen, wide));
      RestorePen();
      wide := false;
    }

    /** `clear` (and the first half of `loadImage`): the board is painted white, which leaves
        the pen white, and the pen is set back to the selected colour when there is one. */
    method Clear()
      modifies this`pen
      ensures pen == ClearedPen(selectedColor)
    {
      pen := WHITE;
      RestorePen();
    }

    /** `mouseDragged`: the drag point becomes the current point; with a free-hand tool the
        segment from the old point is drawn and sent, and the drag point becomes the old
        point, so consecutive segments join end to start. */
    method MouseDragged(p: Point) returns (drawn: Option<Shape>)
      modifies this`currentPoint, this`oldPoint, client`actionList
      ensures currentPoint == p
      ensures var free := !IsBlank(selectedTool) && selectedTool.value in FREE_HAND_TOOLS;
        && (free ==> drawn == Some(Segment(old(oldPoint), p, pen, wide)) && oldPoint == p)
        && (free ==> client.actionList == Sent(old(client.actionList), uiEnabled,
              Some(DrawEvent(client.userInfo, selectedTool, Some(old(oldPoint)), Some(p), None, selectedColor, None))))
        && (!free ==> drawn.None? && oldPoint == old(oldPoint) && client.actionList == old(client.actionList))
    {
      currentPoint := p;
      drawn := None;
      if !IsBlank(selectedTool) && selectedTool.value in FREE_HAND_TOOLS {
        drawn := Some(Segment(oldPoint, currentPoint, pen, wide));
        SendEvent(Message9(client.userInfo, Some(ACTION_DRAW), selectedTool, Some(oldPoint), Some(currentPoint),
                           None, selectedColor, None, None));
        oldPoint := currentPoint;
      }
    }

    /** `mousePressed`: the press point becomes the old point; the eraser switches to the
        wide white stroke, and the text tool asks for a text (`input`, null when the dialog
        is cancelled) and draws and sends it when it is not empty. A null tool throws in the
        `switch`. */
    method MousePressed(p: Point, input: Option<string>) returns (r: Outcome, drawn: Option<Shape>)
      modifies this`oldPoint, this`pen, this`wide, client`actionList
      ensures oldPoint == p
      ensures r.Failed? <==> selectedTool.None?
      ensures selectedTool == Some(TOOL_ERASER) ==>
        pen == WHITE && wide && drawn.None? && client.actionList == old(client.actionList)
      ensures selectedTool == Some(TOOL_TEXT) && IsNotEmpty(input) ==>
        && drawn == Some(Label(input.value, p, pen))
        && client.actionList == Sent(old(client.actionList), uiEnabled,
             Some(DrawEvent(client.userInfo, selectedTool, Some(p), None, None, selectedColor, input)))
      ensures selectedTool != Some(TOOL_ERASER) ==> pen == old(pen) && wide == old(wide)
      ensures !(selectedTool == Some(TOOL_TEXT) && IsNotEmpty(input)) && selectedTool != Some(TOOL_ERASER) ==>
        drawn.None? && client.actionList == old(client.actionList)
    {
      oldPoint := p;
      drawn := None;
      if selectedTool.None? {
        return Failed, None;
      }
      r := Done;
      var tool := selectedTool.value;
      if tool == TOOL_ERASER {
        pen := WHITE;
        wide := true;
      } else if tool == TOOL_TEXT {
        drawn := InsertText(input);
      }
    }

    /** `insertText`. */
    method InsertText(input: Option<string>) returns (drawn: Option<Shape>)
      modifies client`actionList
      ensures IsNotEmpty(input) ==>
        && drawn == Some(Label(input.value, oldPoint, pen))
        && client.actionList == Sent(old(client.actionList), uiEnabled,
             Some(DrawEvent(client.userInfo, selectedTool, Some(oldPoint), None, None, selectedColor, input)))
      ensures !IsNotEmpty(input) ==> drawn.None? && client.actionList == old(client.actionList)
    {
      drawn := None;
      if IsNotEmpty(input) {
        drawn := Some(Label(input.value, oldPoint, pen));
        SendEvent(Message9(client.userInfo, Some(ACTION_DRAW), selectedTool, Some(oldPoint), None, None,
                           selectedColor, input, None));
      }
    }

    /** `mouseReleased`: the shape tools finish their shape from the old point (the line,
        rectangle and circle end at the release point, which becomes the current point; the
        triangle ends at the last drag point and takes its apex height from the release
        point) and send one event; the eraser restores the selected colour and the thin
        stroke; a null tool throws in the `switch`. */
    method MouseReleased(p: Point) returns (r: Outcome, drawn: Option<Shape>)
      modifies this`currentPoint, this`pen, this`wide, client`actionList
      ensures r.Failed? <==> selectedTool.None?
      ensures r.Failed? ==> unchanged(this`currentPoint, this`pen, this`wide) && client.actionList == old(client.actionList)
      ensures selectedTool.Some? ==>
        client.actionList == Sent(old(client.actionList), uiEnabled,
          ReleaseEvent(client.userInfo, selectedTool.value, oldPoint, old(currentPoint), p, selectedColor))
      ensures selectedTool != Some(TOOL_ERASER) ==> wide == old(wide)
      ensures selectedTool == Some(TOOL_LINE) ==> currentPoint == p && drawn == Some(Segment(oldPoint, p, old(pen), wide))
      ensures selectedTool == Some(TOOL_RECTANGLE) ==> currentPoint == p && drawn == Some(Rectangle(RectangleBox(oldPoint, p), old(pen)))
      ensures selectedTool == Some(TOOL_CIRCLE) ==> currentPoint == p && drawn == Some(Oval(CircleBox(oldPoint, p), old(pen)))
      ensures selectedTool == Some(TOOL_TRIANGLE) ==>
        currentPoint == old(currentPoint) && drawn == Some(TriangleShape(oldPoint, currentPoint, p, old(pen)))
      ensures selectedTool.Some? && IsShapeTool(selectedTool.value) ==> pen == RestoredPen(selectedColor, old(pen))
      ensures selectedTool == Some(TOOL_ERASER) ==>
        drawn.None? && !wide && currentPoint == old(currentPoint)
        && pen == if selectedColor.Some? then selectedColor.value else old(pen)
      ensures selectedTool.Some? && !IsShapeTool(selectedTool.value) && selectedTool != Some(TOOL_ERASER) ==>
        drawn.None? && unchanged(this`currentPoint, this`pen, this`wide)
    {
      drawn := None;
      if selectedTool.None? {
        return Failed, None;
      }
      r := Done;
      var tool := selectedTool.value;
      if tool == TOOL_LINE {
        currentPoint := p;
        drawn := CreateLine(Some(oldPoint), Some(currentPoint), None);
        SendEvent(Message9(client.userInfo, Some(ACTION_DRAW), selectedTool, Some(oldPoint), Some(currentPoint),
                           None, selectedColor, None, None));
      } else if tool == TOOL_RECTANGLE {
        currentPoint := p;
        drawn := CreateRectangle(Some(oldPoint), Some(currentPoint), None);
        SendEvent(Message9(client.userInfo, Some(ACTION_DRAW), selectedTool, Some(oldPoint), Some(currentPoint),
                           None, selectedColor, None, None));
      } else if tool == TOOL_CIRCLE {
        currentPoint := p;
        drawn := CreateCircle(Some(oldPoint), Some(currentPoint), None);
        SendEvent(Message9(client.userInfo, Some(ACTION_DRAW), selectedTool, Some(oldPoint), Some(currentPoint),
                           None, selectedColor, None, None));
      } else if tool == TOOL_TRIANGLE {
        drawn := CreateTriangle(Some(oldPoint), Some(currentPoint), Some(p), None);
        SendEvent(Message9(client.userInfo, Some(ACTION_DRAW), selectedTool, Some(oldPoint), Some(currentPoint),
                           Some(p), selectedColor, None, None));
      } else if tool == TOOL_ERASER {
        RestorePen();
        wide := false;
      }
    }
  }
}
