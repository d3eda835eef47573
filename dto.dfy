/**
 * The wire records: `UserDto` and `ActionMessageDto`. A Java field that may be null is
 * an `Option`. `Message` is the value of an `ActionMessageDto` at the moment it is
 * serialised; the class `ActionMessageDto` is the mutable object that the code builds
 * with a constructor and setters.
 */
module Dto {
  import opened Wrappers
  import opened Text
  import opened JavaInt

  /** `java.awt.Point`: two `int` coordinates. */
  datatype Point = Point(x: Int32, y: Int32)

  /** `java.awt.Color`, known by its `getRGB()` value. */
  datatype Color = Color(rgb: Int32)

  /** `UserDto` without its two socket streams (excluded from the JSON form, never serialised). */
  datatype User = User(uid: Option<int>, name: Option<string>, isManager: bool)

  /** The fields of `ActionMessageDto`, each possibly absent. */
  datatype Message = Message(
    user: Option<User>,
    action: Option<string>,
    tool: Option<string>,
    startPoint: Option<Point>,
    endPoint: Option<Point>,
    dragPoint: Option<Point>,
    color: Option<Color>,
    drawText: Option<string>,
    chatMessage: Option<string>,
    selectedUser: Option<User>,
    activeUserList: Option<seq<User>>,
    drawboardImage: Option<string>)

  /** The no-argument constructor: every field absent. */
  function EmptyMessage(): (m: Message)
    ensures m.user.None? && m.action.None? && m.tool.None? && m.startPoint.None?
    ensures m.endPoint.None? && m.dragPoint.None? && m.color.None? && m.drawText.None?
    ensures m.chatMessage.None? && m.selectedUser.None? && m.activeUserList.None?
    ensures m.drawboardImage.None?
  {
    Message(None, None, None, None, None, None, None, None, None, None, None, None)
  }

  /** The two-argument constructor: only the user and the action are set. */
  function Message2(user: Option<User>, action: Option<string>): (m: Message)
    ensures m.user == user && m.action == action
    ensures m == EmptyMessage().(user := user, action := action)
  {
    Message(user, action, None, None, None, None, None, None, None, None, None, None)
  }

  /** The nine-argument constructor used for drawing events: it leaves the selected user,
      the roster and the image absent. */
  function Message9(user: Option<User>, action: Option<string>, tool: Option<string>,
                    startPoint: Option<Point>, endPoint: Option<Point>, dragPoint: Option<Point>,
                    color: Option<Color>, drawText: Option<string>, chatMessage: Option<string>): (m: Message)
    ensures m.user == user && m.action == action && m.tool == tool
    ensures m.startPoint == startPoint && m.endPoint == endPoint && m.dragPoint == dragPoint
    ensures m.color == color && m.drawText == drawText && m.chatMessage == chatMessage
    ensures m.selectedUser.None? && m.activeUserList.None? && m.drawboardImage.None?
  {
    Message(user, action, tool, startPoint, endPoint, dragPoint, color, drawText, chatMessage, None, None, None)
  }

  // ---- toString ----

  /** `String.valueOf` of a possibly null string. */
  function Show(s: Option<string>): string {
    if s.Some? then s.value else "null"
  }

  /** `UserDto.toString`: name, a dash, then the UID. */
  function UserText(u: Option<User>): string {
    if u.None? then "null"
    else Show(u.value.name) + "-" + (if u.value.uid.Some? then IntToString(u.value.uid.value) else "null")
  }

  /** `Point.toString`. */
  function PointText(p: Option<Point>): string {
    if p.None? then "null" else "java.awt.Point[x=" + IntToString(p.value.x) + ",y=" + IntToString(p.value.y) + "]"
  }

  /** The colour as `toString` writes it: its RGB value, or "null". */
  function ColorText(c: Option<Color>): string {
    if c.Some? then IntToString(c.value.rgb) else "null"
  }

  function UsersJoined(us: seq<User>): string {
    if us == [] then ""
    else if |us| == 1 then UserText(Some(us[0]))
    else UserText(Some(us[0])) + ", " + UsersJoined(us[1..])
  }

  /** `List.toString`: elements between brackets, separated by a comma and a space. */
  function UserListText(l: Option<seq<User>>): string {
    if l.None? then "null" else "[" + UsersJoined(l.value) + "]"
  }

  /** The part of `ActionMessageDto.toString` before the colour. */
  function TextBeforeColor(m: Message): string {
    "ActionMessageDto [user=" + UserText(m.user) + ", action=" + Show(m.action) + ", tool=" + Show(m.tool)
      + ", startPoint=" + PointText(m.startPoint) + ", endPoint=" + PointText(m.endPoint)
      + ", dragPoint=" + PointText(m.dragPoint)
  }

  /** The part of `ActionMessageDto.toString` after the colour. */
  function TextAfterColor(m: Message): string {
    Show(m.drawText) + ", chatMessage=" + Show(m.chatMessage)
      + ", selectedUser=" + UserText(m.selectedUser) + ", activeUserList=" + UserListText(m.activeUserList)
      + ", drawboardImage=" + Show(m.drawboardImage) + "]"
  }

  /** `ActionMessageDto.toString`. */
  function MessageText(m: Message): string {
    TextBeforeColor(m) + ", color=" + ColorText(m.color) + ", drawText=" + TextAfterColor(m)
  }

  /** The colour appears in `toString` as "null" when absent and otherwise as a decimal
      numeral that reads back as its RGB value. */
  lemma ColorInText(m: Message)
    ensures m.color.None? ==> ColorText(m.color) == "null"
    ensures m.color.Some? ==> ParseInt(ColorText(m.color)) == Some(m.color.value.rgb) && ColorText(m.color) != "null"
  {
    if m.color.Some? {
      IntToStringRoundTrip(m.color.value.rgb);
    }
  }

  /** Two colours print alike only when they are the same colour (or both absent). */
  lemma ColorTextInjective(c: Option<Color>, d: Option<Color>)
    requires ColorText(c) == ColorText(d)
    ensures c == d
  {
    if c.Some? { IntToStringRoundTrip(c.value.rgb); }
    if d.Some? { IntToStringRoundTrip(d.value.rgb); }
  }

  /** The mutable `ActionMessageDto` object. */
  class ActionMessageDto {
    var user: Option<User>
    var action: Option<string>
    var tool: Option<string>
    var startPoint: Option<Point>
    var endPoint: Option<Point>
    var dragPoint: Option<Point>
    var color: Option<Color>
    var drawText: Option<string>
    var chatMessage: Option<string>
    var selectedUser: Option<User>
    var activeUserList: Option<seq<User>>
    var drawboardImage: Option<string>

    /** The value that serialising the object now would write. */
    function Snapshot(): Message
      reads this
    {
      Message(user, action, tool, startPoint, endPoint, dragPoint, color, drawText, chatMessage,
              selectedUser, activeUserList, drawboardImage)
    }

    constructor ()
      ensures Snapshot() == EmptyMessage()
    {
      user, action, tool := None, None, None;
      startPoint, endPoint, dragPoint := None, None, None;
      color, drawText, chatMessage := None, None, None;
      selectedUser, activeUserList, drawboardImage := None, None, None;
    }

    constructor Of(user: Option<User>, action: Option<string>)
      ensures Snapshot() == Message2(user, action)
    {
      this.user, this.action := user, action;
      tool := None;
      startPoint, endPoint, dragPoint := None, None, None;
      color, drawText, chatMessage := None, None, None;
      selectedUser, activeUserList, drawboardImage := None, None, None;
    }

    constructor Drawing(user: Option<User>, action: Option<string>, tool: Option<string>,
                        startPoint: Option<Point>, endPoint: Option<Point>, dragPoint: Option<Point>,
                        color: Option<Color>, drawText: Option<string>, chatMessage: Option<string>)
      ensures Snapshot() == Message9(user, action, tool, startPoint, endPoint, dragPoint, color, drawText, chatMessage)
    {
      this.user, this.action, this.tool := user, action, tool;
      this.startPoint, this.endPoint, this.dragPoint := startPoint, endPoint, dragPoint;
      this.color, this.drawText, this.chatMessage := color, drawText, chatMessage;
      selectedUser, activeUserList, drawboardImage := None, None, None;
    }

    method SetUser(v: Option<User>)
      modifies this
      ensures Snapshot() == old(Snapshot()).(user := v)
    { user := v; }

    method SetAction(v: Option<string>)
      modifies this
      ensures Snapshot() == old(Snapshot()).(action := v)
    { action := v; }

    method SetTool(v: Option<string>)
      modifies this
      ensures Snapshot() == old(Snapshot()).(tool := v)
    { tool := v; }

    method SetStartPoint(v: Option<Point>)
      modifies this
      ensures Snapshot() == old(Snapshot()).(startPoint := v)
    { startPoint := v; }

    method SetEndPoint(v: Option<Point>)
      modifies this
      ensures Snapshot() == old(Snapshot()).(endPoint := v)
    { endPoint := v; }

    method SetDragPoint(v: Option<Point>)
      modifies this
      ensures Snapshot() == old(Snapshot()).(dragPoint := v)
    { dragPoint := v; }

    method SetColor(v: Option<Color>)
      modifies this
      ensures Snapshot() == old(Snapshot()).(color := v)
    { color := v; }

    method SetDrawText(v: Option<string>)
      modifies this
      ensures Snapshot() == old(Snapshot()).(drawText := v)
    { drawText := v; }

    method SetChatMessage(v: Option<string>)
      modifies this
      ensures Snapshot() == old(Snapshot()).(chatMessage := v)
    { chatMessage := v; }

    method SetSelectedUser(v: Option<User>)
      modifies this
      ensures Snapshot() == old(Snapshot()).(selectedUser := v)
    { selectedUser := v; }

    method SetActiveUserList(v: Option<seq<User>>)
      modifies this
      ensures Snapshot() == old(Snapshot()).(activeUserList := v)
    { activeUserList := v; }

    method SetDrawboardImage(v: Option<string>)
      modifies this
      ensures Snapshot() == old(Snapshot()).(drawboardImage := v)
    { drawboardImage := v; }

    /** `toString` of the object. */
    function ToString(): (s: string)
      reads this
    {
      MessageText(Snapshot())
    }
  }
}
