/**
 * `EventListener`: the client thread that reads the server's events one line at a time.
 * A free-hand stroke or an eraser stroke is drawn at once; every other event goes through
 * `eventSeggregrator`, whose `switch` picks the handler by the exact action tag. Each
 * handler changes the client's state, the roster, the board or the chat box, and some
 * queue an EXIT for the server.
 */
module Listener {
  import opened Wrappers
  import opened Text
  import opened Dto
  import opened ClientConstants
  import opened Client
  import opened Users
  import opened Board
  import opened Files
  import opened Ui

  /** Where `listenEvents` sends a line. `Unreadable` is a line that makes the routing
      throw: it did not decode (`convertToCustomClass` gives null) or it lacks the action,
      or it is a DRAW without a tool. */
  datatype Route = Blank | Unreadable | FreeHand | Erase | Segregate(action: string)

  /** `listenEvents` up to the call of its handler. `decoded` is what the JSON decoder
      makes of the line. */
  function RouteOf(line: Option<string>, decoded: Option<Message>): (r: Route)
    ensures r.Blank? <==> IsBlank(line)
    ensures r.FreeHand? <==>
      (&& !IsBlank(line) && decoded.Some? && decoded.value.action.Some?
       && EqualsIgnoreCase(decoded.value.action.value, ACTION_DRAW)
       && EqualsIgnoreCaseOpt(TOOL_PENCIL, decoded.value.tool))
    ensures r.Segregate? ==> decoded.Some? && decoded.value.action == Some(r.action)
  {
    if IsBlank(line) then Blank
    else if decoded.None? || decoded.value.action.None? then Unreadable
    else
      var m := decoded.value;
      if !EqualsIgnoreCase(m.action.value, ACTION_DRAW) then Segregate(m.action.value)
      else if m.tool.None? then Unreadable
      else if EqualsIgnoreCase(m.tool.value, TOOL_PENCIL) then FreeHand
      else if EqualsIgnoreCase(m.tool.value, TOOL_ERASER) then Erase
      else Segregate(m.action.value)
  }

  /** The fast path takes exactly the DRAW events of the two free-hand tools, in any
      letter case; whatever reaches `eventSeggregrator` as a DRAW has a tool that is
      neither. */
  lemma FastPathExactly(line: Option<string>, decoded: Option<Message>)
    requires !IsBlank(line) && decoded.Some? && decoded.value.action.Some? && decoded.value.tool.Some?
    ensures var m := decoded.value; var r := RouteOf(line, decoded);
      && (r.Erase? <==> EqualsIgnoreCase(m.action.value, ACTION_DRAW) && EqualsIgnoreCase(m.tool.value, TOOL_ERASER))
      && (r.Segregate? <==>
            !(EqualsIgnoreCase(m.action.value, ACTION_DRAW)
              && (EqualsIgnoreCase(m.tool.value, TOOL_PENCIL) || EqualsIgnoreCase(m.tool.value, TOOL_ERASER))))
  {
    assert ToLower(TOOL_PENCIL) != ToLower(TOOL_ERASER) by {
      assert ToLower(TOOL_PENCIL)[0] == 'p' && ToLower(TOOL_ERASER)[0] == 'e';
    }
  }

  /** The handlers of `eventSeggregrator`'s `switch`. */
  datatype Handler =
    | DrawShape | ReceiveChat | AssignManager | Permission | UserAdded | UserRejected
    | UserKicked | RefreshList | LoadImage | ClearBoard | ForceQuit | Unknown

  function HandlerOf(action: string): (h: Handler)
  {
    if action == ACTION_DRAW then DrawShape
    else if action == ACTION_CHAT then ReceiveChat
    else if action == ACTION_ASSIGN_MANAGER then AssignManager
    else if action == ACTION_NEW_USER_PERMISSION then Permission
    else if action == ACTION_NEW_USER_ADDED then UserAdded
    else if action == ACTION_NEW_USER_REJECT then UserRejected
    else if action == ACTION_USER_KICK then UserKicked
    else if action == ACTION_REFRESH_USER_LIST then RefreshList
    else if action == ACTION_LOAD_IMAGE then LoadImage
    else if action == ACTION_CLEAR then ClearBoard
    else if action == ACTION_FORCE_QUIT then ForceQuit
    else Unknown
  }

  /** The client acts on eleven of the fourteen tags, matched exactly: SYSTEM_CHAT,
      NEW_USER_ACCEPT and EXIT, any other string and any other letter case are ignored. */
  lemma HandlersCover(action: string)
    ensures HandlerOf(action).Unknown? <==>
      action !in {ACTION_DRAW, ACTION_CHAT, ACTION_ASSIGN_MANAGER, ACTION_NEW_USER_PERMISSION,
                  ACTION_NEW_USER_ADDED, ACTION_NEW_USER_REJECT, ACTION_USER_KICK,
                  ACTION_REFRESH_USER_LIST, ACTION_LOAD_IMAGE, ACTION_CLEAR, ACTION_FORCE_QUIT}
    ensures HandlerOf(ACTION_SYSTEM_CHAT).Unknown? && HandlerOf(ACTION_NEW_USER_ACCEPT).Unknown?
    ensures HandlerOf(ACTION_EXIT).Unknown? && HandlerOf("draw").Unknown?
  {
  }

  /** The shapes of `drawAction`'s `switch`. */
  datatype ShapeKind = LineKind | RectangleKind | CircleKind | TriangleKind | TextKind | NoShape

  function ShapeOf(tool: string): (k: ShapeKind)
    ensures k.NoShape? <==>
      tool !in {TOOL_LINE, TOOL_RECTANGLE, TOOL_CIRCLE, TOOL_TRIANGLE, TOOL_TEXT}
  {
    if tool == TOOL_LINE then LineKind
    else if tool == TOOL_RECTANGLE then RectangleKind
    else if tool == TOOL_CIRCLE then CircleKind
    else if tool == TOOL_TRIANGLE then TriangleKind
    else if tool == TOOL_TEXT then TextKind
    else NoShape
  }

  /** A DRAW with a free-hand tool never reaches `drawAction`, and the remaining tools
      that do are drawn only by their exact upper-case name. */
  lemma DrawActionTools(line: Option<string>, decoded: Option<Message>)
    requires RouteOf(line, decoded) == Segregate(ACTION_DRAW)
    ensures decoded.value.tool.Some?
    ensures !EqualsIgnoreCase(decoded.value.tool.value, TOOL_PENCIL)
    ensures !EqualsIgnoreCase(decoded.value.tool.value, TOOL_ERASER)
  {
    assert EqualsIgnoreCase(ACTION_DRAW, ACTION_DRAW);
  }

  /** The EXIT a client queues to leave: it carries the given user. */
  function ExitEvent(user: Option<User>): (m: Message)
    ensures m.action == Some(ACTION_EXIT) && m.user == user
    ensures m.selectedUser.None? && m.activeUserList.None?
  {
    Message2(user, Some(ACTION_EXIT))
  }

  /** What became of a line. `Stopped`: an exception escaped `listenEvents` and ends the
      listener thread. `TaskFailed`: a handler run on the executor threw, which ends that
      task only. */
  datatype Reaction = Skipped | Handled | TaskFailed | Stopped

  /** The answers the user interface and the libraries give while one line is handled. */
  datatype Answers = Answers(
    accepted: bool,      // the manager's answer to a join request
    snapshot: string,    // the Base64 text of the manager's board for a new user
    readBack: bool,      // whether a received board image was decoded and read back
    decrypted: string)   // what `AESUtils.decryptString` makes of a chat text ("" on failure)

  /** The line `ChatBoxPanel.recieveMessage` shows for a chat: three tabs, the sender's name
      (which string concatenation writes as "null" when it is missing), a colon and the text. */
  function ChatLine(name: Option<string>, text: string): (line: string)
    ensures StartsWith(line, "\t\t\t") && EndsWith(line, LF)
  {
    var shown := if name.Some? then name.value else "null";
    var line := "\t\t\t" + shown + ": " + text + LF;
    assert line[..3] == "\t\t\t";
    assert line[|line| - 1..] == LF;
    line
  }

  /** The parts of the client's state one line may change: the outgoing queue, the client's
      own identity, the exit status, the panels' enabled state, the roster, the pen, the
      stroke width and the chat box. */
  datatype Parts = Parts(
    queue: bool := false, identity: bool := false, exit: bool := false, panels: bool := false,
    roster: bool := false, pen: bool := false, stroke: bool := false, chat: bool := false)

  class EventListener {
    const client: WhiteboardClient
    const ui: WhiteBoardUI

    /** The listener works on the frame's panels and the frame's client. */
    predicate Valid()
      reads ui.userPanel`activeClientMap, ui.userPanel`concurrentMap
    {
      && ui.client == client && ui.Wired() && ui.userPanel.Valid()
    }

    constructor (client: WhiteboardClient, ui: WhiteBoardUI)
      ensures this.client == client && this.ui == ui
    {
      this.client := client;
      this.ui := ui;
    }

    /** Every part of the state outside `parts` is as it was. */
    twostate predicate OnlyChanges(parts: Parts)
      reads client`actionList, client`isManager, client`userInfo, ui`exitStatus
      reads ui.fileFunctionPanel`buttonsEnabled, ui.fileFunctionPanel`userTypeLabel, ui.fileFunctionPanel`labelVisible
      reads ui.userPanel`removeEnabled, ui.drawArea`uiEnabled
      reads ui.userPanel`listModel, ui.userPanel`activeClientMap, ui.userPanel`concurrentMap
      reads ui.drawArea`pen, ui.drawArea`wide, ui.chat`lines
    {
      && (!parts.queue ==> unchanged(client`actionList))
      && (!parts.identity ==> unchanged(client`isManager, client`userInfo))
      && (!parts.exit ==> unchanged(ui`exitStatus))
      && (!parts.panels ==>
            && unchanged(ui.fileFunctionPanel`buttonsEnabled, ui.fileFunctionPanel`userTypeLabel)
            && unchanged(ui.fileFunctionPanel`labelVisible, ui.userPanel`removeEnabled, ui.drawArea`uiEnabled))
      && (!parts.roster ==> unchanged(ui.userPanel`listModel, ui.userPanel`activeClientMap, ui.userPanel`concurrentMap))
      && (!parts.pen ==> unchanged(ui.drawArea`pen))
      && (!parts.stroke ==> unchanged(ui.drawArea`wide))
      && (!parts.chat ==> unchanged(ui.chat`lines))
    }

    /** A free-hand stroke: the sender's name goes on the tool panel (a missing sender
        throws), then the segment is drawn in the event's colour and the pen restored; a
        missing point throws once the colour is set. */
    twostate predicate FreeHandDone(m: Message, r: Reaction, new drawn: Option<Shape>)
      reads client`actionList, client`isManager, client`userInfo, ui`exitStatus
      reads ui.fileFunctionPanel`buttonsEnabled, ui.fileFunctionPanel`userTypeLabel, ui.fileFunctionPanel`labelVisible
      reads ui.userPanel`removeEnabled, ui.drawArea`uiEnabled
      reads ui.userPanel`listModel, ui.userPanel`activeClientMap, ui.userPanel`concurrentMap
      reads ui.drawArea`pen, ui.drawArea`wide, ui.chat`lines, ui.drawArea`selectedColor
    {
      var ink := if m.color.Some? then m.color.value else old(ui.drawArea.pen);
      && OnlyChanges(Parts(pen := true))
      && (m.user.None? ==> r.Stopped? && drawn.None? && ui.drawArea.pen == old(ui.drawArea.pen))
      && (m.user.Some? && m.startPoint.Some? && m.endPoint.Some? ==>
            && r.Handled? && drawn == Some(Segment(m.startPoint.value, m.endPoint.value, ink, ui.drawArea.wide))
            && ui.drawArea.pen == RestoredPen(ui.drawArea.selectedColor, ink))
      && (m.user.Some? && (m.startPoint.None? || m.endPoint.None?) ==>
            r.Stopped? && drawn.None? && ui.drawArea.pen == ink)
    }

    /** `listenEvents`' free-hand branch. */
    method HandleFreeHand(m: Message) returns (r: Reaction, drawn: Option<Shape>)
      modifies ui.drawArea`pen
      requires Valid()
      ensures Valid()
      ensures FreeHandDone(m, r, drawn)
    {
      if m.user.None? {
        return Stopped, None;
      }
      drawn := ui.drawArea.CreateLine(m.startPoint, m.endPoint, m.color);
      r := if drawn.Some? then Handled else Stopped;
    }

    /** An eraser stroke: a wide white segment, then the selected colour and the thin
        stroke; a missing point throws with the pen white and the stroke wide. */
    twostate predicate EraseDone(m: Message, r: Reaction, new drawn: Option<Shape>)
      reads client`actionList, client`isManager, client`userInfo, ui`exitStatus
      reads ui.fileFunctionPanel`buttonsEnabled, ui.fileFunctionPanel`userTypeLabel, ui.fileFunctionPanel`labelVisible
      reads ui.userPanel`removeEnabled, ui.drawArea`uiEnabled
      reads ui.userPanel`listModel, ui.userPanel`activeClientMap, ui.userPanel`concurrentMap
      reads ui.drawArea`pen, ui.drawArea`wide, ui.chat`lines, ui.drawArea`selectedColor
    {
      && OnlyChanges(Parts(pen := true, stroke := true))
      && (m.user.None? ==> r.Stopped? && drawn.None? && unchanged(ui.drawArea`pen, ui.drawArea`wide))
      && (m.user.Some? && m.startPoint.Some? && m.endPoint.Some? ==>
            && r.Handled? && drawn == Some(Segment(m.startPoint.value, m.endPoint.value, WHITE, true))
            && !ui.drawArea.wide && ui.drawArea.pen == ClearedPen(ui.drawArea.selectedColor))
      && (m.user.Some? && (m.startPoint.None? || m.endPoint.None?) ==>
            r.Stopped? && drawn.None? && ui.drawArea.wide && ui.drawArea.pen == WHITE)
    }

    /** `listenEvents`' eraser branch. */
    method HandleErase(m: Message) returns (r: Reaction, drawn: Option<Shape>)
      modifies ui.drawArea`pen, ui.drawArea`wide
      requires Valid()
      ensures Valid()
      ensures EraseDone(m, r, drawn)
    {
      if m.user.None? {
        return Stopped, None;
      }
      drawn := ui.drawArea.EraserAction(m.startPoint, m.endPoint);
      r := if drawn.Some? then Handled else Stopped;
    }

    /** `drawAction`: the sender's name goes on the tool panel (a missing sender throws),
        then the shape the exact tool name asks for is drawn in the event's colour and the
        pen restored; an unknown tool is ignored, and a missing point or text throws once
        the colour is set. */
    twostate predicate DrawActionDone(m: Message, r: Reaction, new drawn: Option<Shape>)
      reads client`actionList, client`isManager, client`userInfo, ui`exitStatus
      reads ui.fileFunctionPanel`buttonsEnabled, ui.fileFunctionPanel`userTypeLabel, ui.fileFunctionPanel`labelVisible
      reads ui.userPanel`removeEnabled, ui.drawArea`uiEnabled
      reads ui.userPanel`listModel, ui.userPanel`activeClientMap, ui.userPanel`concurrentMap
      reads ui.drawArea`pen, ui.drawArea`wide, ui.chat`lines, ui.drawArea`selectedColor
    {
      var ink := if m.color.Some? then m.color.value else old(ui.drawArea.pen);
      && m.tool.Some?
      && OnlyChanges(Parts(pen := true))
      && (m.user.None? ==> r.Stopped? && drawn.None? && ui.drawArea.pen == old(ui.drawArea.pen))
      && (m.user.Some? && ShapeOf(m.tool.value).NoShape? ==>
            r.Handled? && drawn.None? && ui.drawArea.pen == old(ui.drawArea.pen))
      && (m.user.Some? && !ShapeOf(m.tool.value).NoShape? ==>
            && (r.Handled? <==> drawn.Some?) && (r.Handled? || r.Stopped?)
            && ui.drawArea.pen == if drawn.Some? then RestoredPen(ui.drawArea.selectedColor, ink) else ink)
      && (m.user.Some? && m.startPoint.Some? && m.endPoint.Some? ==>
            && (ShapeOf(m.tool.value).LineKind? ==>
                  drawn == Some(Segment(m.startPoint.value, m.endPoint.value, ink, ui.drawArea.wide)))
            && (ShapeOf(m.tool.value).RectangleKind? ==>
                  drawn == Some(Rectangle(RectangleBox(m.startPoint.value, m.endPoint.value), ink)))
            && (ShapeOf(m.tool.value).CircleKind? ==>
                  drawn == Some(Oval(CircleBox(m.startPoint.value, m.endPoint.value), ink)))
            && (ShapeOf(m.tool.value).TriangleKind? && m.dragPoint.Some? ==>
                  drawn == Some(TriangleShape(m.startPoint.value, m.endPoint.value, m.dragPoint.value, ink))))
      && (m.user.Some? && ShapeOf(m.tool.value).TriangleKind? && m.dragPoint.None? ==> drawn.None?)
      && (m.user.Some? && ShapeOf(m.tool.value).TextKind? ==>
            drawn == if m.startPoint.Some? && m.drawText.Some?
                     then Some(Label(m.drawText.value, m.startPoint.value, ink)) else None)
      && (m.user.Some? && (m.startPoint.None? || m.endPoint.None?) && !ShapeOf(m.tool.value).TextKind? ==>
            drawn.None?)
    }

    /** `drawAction`. */
    method DrawAction(m: Message) returns (r: Reaction, drawn: Option<Shape>)
      modifies ui.drawArea`pen
      requires Valid() && m.tool.Some?
      ensures Valid()
      ensures DrawActionDone(m, r, drawn)
    {
      if m.user.None? {
        return Stopped, None;
      }
      var area := ui.drawArea;
      match ShapeOf(m.tool.value) {
        case LineKind => drawn := area.CreateLine(m.startPoint, m.endPoint, m.color);
        case RectangleKind => drawn := area.CreateRectangle(m.startPoint, m.endPoint, m.color);
        case CircleKind => drawn := area.CreateCircle(m.startPoint, m.endPoint, m.color);
        case TriangleKind => drawn := area.CreateTriangle(m.startPoint, m.endPoint, m.dragPoint, m.color);
        case TextKind => drawn := area.CreateText(m.startPoint, m.drawText, m.color);
        case NoShape => return Handled, None;
      }
      r := if drawn.Some? then Handled else Stopped;
    }

    /** The CHAT case, `ChatBoxPanel.recieveMessage`: the text is decrypted with the sender's
        UID, so a missing sender or UID throws; a decrypted text that is not blank is shown
        under the sender's name. */
    twostate predicate ChatDone(m: Message, decrypted: string, r: Reaction)
      reads client`actionList, client`isManager, client`userInfo, ui`exitStatus
      reads ui.fileFunctionPanel`buttonsEnabled, ui.fileFunctionPanel`userTypeLabel, ui.fileFunctionPanel`labelVisible
      reads ui.userPanel`removeEnabled, ui.drawArea`uiEnabled
      reads ui.userPanel`listModel, ui.userPanel`activeClientMap, ui.userPanel`concurrentMap
      reads ui.drawArea`pen, ui.drawArea`wide, ui.chat`lines
    {
      && OnlyChanges(Parts(chat := true))
      && (m.user.None? || m.user.value.uid.None? ==> r.Stopped? && unchanged(ui.chat`lines))
      && (m.user.Some? && m.user.value.uid.Some? ==>
            && r.Handled?
            && ui.chat.lines == old(ui.chat.lines)
                 + if IsBlank(Some(decrypted)) then [] else [ChatLine(m.user.value.name, decrypted)])
    }

    /** `recieveMessage`. */
    method HandleChat(m: Message, decrypted: string) returns (r: Reaction)
      modifies ui.chat`lines
      requires Valid()
      ensures Valid()
      ensures ChatDone(m, decrypted, r)
    {
      if m.user.None? || m.user.value.uid.None? {
        return Stopped;
      }
      if !IsBlank(Some(decrypted)) {
        ui.chat.Append(ChatLine(m.user.value.name, decrypted));
      }
      r := Handled;
    }

    /** `handleManagerAssign`: this client is the manager, with the user the server
        assigned, its panels open as the manager's, and the roster the event carries; an
        event without a user stops the listener in the header panel's step, before the
        roster is touched, and a roster that cannot be built stops it too. */
    twostate predicate ManagerAssignDone(m: Message, r: Reaction)
      requires ui.client == client
      reads client`actionList, client`isManager, client`userInfo, ui`exitStatus
      reads ui.fileFunctionPanel`buttonsEnabled, ui.fileFunctionPanel`userTypeLabel, ui.fileFunctionPanel`labelVisible
      reads ui.userPanel`removeEnabled, ui.drawArea`uiEnabled
      reads ui.userPanel`listModel, ui.userPanel`activeClientMap, ui.userPanel`concurrentMap
      reads ui.drawArea`pen, ui.drawArea`wide, ui.chat`lines
    {
      && OnlyChanges(Parts(identity := true, panels := true, roster := true))
      && client.isManager && client.userInfo == m.user
      && ui.UserUIEnabled()
      && (r.Handled? || r.Stopped?)
      && (m.user.None? ==>
            r.Stopped? && unchanged(ui.userPanel`listModel, ui.userPanel`activeClientMap, ui.userPanel`concurrentMap))
      && (m.user.Some? ==> ui.userPanel.Refreshed(m.activeUserList, if r.Handled? then Done else Failed))
    }

    /** `handleManagerAssign`. */
    method HandleManagerAssign(m: Message) returns (r: Reaction)
      modifies client`isManager, client`userInfo
      modifies ui.fileFunctionPanel`buttonsEnabled, ui.fileFunctionPanel`userTypeLabel, ui.fileFunctionPanel`labelVisible
      modifies ui.userPanel`removeEnabled, ui.drawArea`uiEnabled
      modifies ui.userPanel`listModel, ui.userPanel`activeClientMap, ui.userPanel`concurrentMap
      requires Valid()
      ensures Valid()
      ensures ManagerAssignDone(m, r)
    {
      client.SetIsManager(true);
      client.SetUserInfo(m.user);
      var shown := ui.EnableUserUI();
      if shown.Failed? {
        return Stopped;
      }
      var o := ui.userPanel.RefreshUserList(m.activeUserList);
      r := if o.Done? then Handled else Stopped;
    }

    /** The NEW_USER_PERMISSION case, run on the executor: `userPermission` with the
        manager's answer, whose failure ends only that task. */
    twostate predicate PermissionDone(m: Message, answers: Answers, r: Reaction)
      requires ui.client == client
      reads client`actionList, client`isManager, client`userInfo, ui`exitStatus
      reads ui.fileFunctionPanel`buttonsEnabled, ui.fileFunctionPanel`userTypeLabel, ui.fileFunctionPanel`labelVisible
      reads ui.userPanel`removeEnabled, ui.drawArea`uiEnabled
      reads ui.userPanel`listModel, ui.userPanel`activeClientMap, ui.userPanel`concurrentMap
      reads ui.drawArea`pen, ui.drawArea`wide, ui.chat`lines
    {
      && OnlyChanges(Parts(queue := true, roster := true, chat := true))
      && (r.Handled? || r.TaskFailed?)
      && ui.PermissionHandled(m, answers.accepted, answers.snapshot, if r.Handled? then Done else Failed)
    }

    /** The NEW_USER_PERMISSION case. */
    method HandlePermission(m: Message, answers: Answers) returns (r: Reaction)
      modifies client`actionList, ui.userPanel`listModel, ui.userPanel`activeClientMap, ui.chat`lines
      requires Valid()
      ensures Valid()
      ensures PermissionDone(m, answers, r)
    {
      var o := ui.UserPermission(m, answers.accepted, answers.snapshot);
      r := if o.Done? then Handled else TaskFailed;
    }

    /** `handleUserAdded`, run on the executor: when the new user has this client's name,
        ignoring case, this client takes the user the server made and opens its panels;
        the roster always takes the event's list, and the chat box announces the user. A
        missing selected user, its name, or this client's user throws before anything
        changes, and a list that cannot be mapped throws before the announcement. */
    twostate predicate UserAddedDone(m: Message, r: Reaction)
      requires ui.client == client
      reads client`actionList, client`isManager, client`userInfo, ui`exitStatus
      reads ui.fileFunctionPanel`buttonsEnabled, ui.fileFunctionPanel`userTypeLabel, ui.fileFunctionPanel`labelVisible
      reads ui.userPanel`removeEnabled, ui.drawArea`uiEnabled
      reads ui.userPanel`listModel, ui.userPanel`activeClientMap, ui.userPanel`concurrentMap
      reads ui.drawArea`pen, ui.drawArea`wide, ui.chat`lines
    {
      && OnlyChanges(Parts(identity := true, panels := true, roster := true, chat := true))
      && (r.Handled? || r.TaskFailed?)
      && (m.selectedUser.None? || m.selectedUser.value.name.None? || old(client.userInfo).None? ==>
            r.TaskFailed? && OnlyChanges(Parts()))
      && (m.selectedUser.Some? && m.selectedUser.value.name.Some? && old(client.userInfo).Some? ==>
            var sel := m.selectedUser.value;
            var mine := EqualsIgnoreCaseOpt(sel.name.value, old(client.userInfo).value.name);
            && client.isManager == old(client.isManager)
            && client.userInfo == (if mine then m.selectedUser else old(client.userInfo))
            && (mine ==> ui.UserUIEnabled())
            && (!mine ==> OnlyChanges(Parts(identity := true, roster := true, chat := true)))
            && ui.userPanel.Refreshed(m.activeUserList, if r.Handled? then Done else Failed)
            && ui.chat.lines == old(ui.chat.lines)
                 + if r.Handled? then [Fill(MSG_USER_ADDED, sel.name.value) + LF] else [])
    }

    /** `handleUserAdded`. */
    method HandleUserAdded(m: Message) returns (r: Reaction)
      modifies client`userInfo
      modifies ui.fileFunctionPanel`buttonsEnabled, ui.fileFunctionPanel`userTypeLabel, ui.fileFunctionPanel`labelVisible
      modifies ui.userPanel`removeEnabled, ui.drawArea`uiEnabled
      modifies ui.userPanel`listModel, ui.userPanel`activeClientMap, ui.userPanel`concurrentMap, ui.chat`lines
      requires Valid()
      ensures Valid()
      ensures UserAddedDone(m, r)
    {
      if m.selectedUser.None? || m.selectedUser.value.name.None? || client.userInfo.None? {
        return TaskFailed;
      }
      var sel := m.selectedUser.value;
      if EqualsIgnoreCaseOpt(sel.name.value, client.userInfo.value.name) {
        client.SetUserInfo(m.selectedUser);
        var _ := ui.EnableUserUI();
      }
      var o := ui.userPanel.RefreshUserList(m.activeUserList);
      if o.Failed? {
        return TaskFailed;
      }
      ui.chat.Append(Fill(MSG_USER_ADDED, sel.name.value) + LF);
      r := Handled;
    }

    /** `handleRefreshUserList`: the roster takes the event's list, and the chat box names
        the user who left; a list that cannot be mapped, or a missing leaver or name, stops
        the listener. */
    twostate predicate RefreshDone(m: Message, r: Reaction)
      reads client`actionList, client`isManager, client`userInfo, ui`exitStatus
      reads ui.fileFunctionPanel`buttonsEnabled, ui.fileFunctionPanel`userTypeLabel, ui.fileFunctionPanel`labelVisible
      reads ui.userPanel`removeEnabled, ui.drawArea`uiEnabled
      reads ui.userPanel`listModel, ui.userPanel`activeClientMap, ui.userPanel`concurrentMap
      reads ui.drawArea`pen, ui.drawArea`wide, ui.chat`lines
    {
      var mapped := m.activeUserList.Some? && DistinctUids(m.activeUserList.value);
      && OnlyChanges(Parts(roster := true, chat := true))
      && ui.userPanel.Refreshed(m.activeUserList, if mapped then Done else Failed)
      && (r.Handled? <==> mapped && m.selectedUser.Some? && m.selectedUser.value.name.Some?)
      && (r.Handled? ==> ui.chat.lines == old(ui.chat.lines) + [Fill(MSG_USER_EXIT, m.selectedUser.value.name.value)])
      && (!r.Handled? ==> r.Stopped? && unchanged(ui.chat`lines))
    }

    /** `handleRefreshUserList`. */
    method HandleRefreshUserList(m: Message) returns (r: Reaction)
      modifies ui.userPanel`listModel, ui.userPanel`activeClientMap, ui.userPanel`concurrentMap, ui.chat`lines
      requires Valid()
      ensures Valid()
      ensures RefreshDone(m, r)
    {
      var o := ui.userPanel.RefreshUserList(m.activeUserList);
      if o.Failed? || m.selectedUser.None? || m.selectedUser.value.name.None? {
        return Stopped;
      }
      ui.chat.Append(Fill(MSG_USER_EXIT, m.selectedUser.value.name.value));
      r := Handled;
    }

    /** `handleUserRejected`: one EXIT for the rejected user, then the critical error ends
        the process. */
    twostate predicate RejectedDone(m: Message, r: Reaction)
      reads client`actionList, client`isManager, client`userInfo, ui`exitStatus
      reads ui.fileFunctionPanel`buttonsEnabled, ui.fileFunctionPanel`userTypeLabel, ui.fileFunctionPanel`labelVisible
      reads ui.userPanel`removeEnabled, ui.drawArea`uiEnabled
      reads ui.userPanel`listModel, ui.userPanel`activeClientMap, ui.userPanel`concurrentMap
      reads ui.drawArea`pen, ui.drawArea`wide, ui.chat`lines
    {
      && OnlyChanges(Parts(queue := true, exit := true))
      && r.Handled?
      && client.actionList == old(client.actionList) + [ExitEvent(m.selectedUser)]
      && ui.exitStatus == Some(1)
    }

    /** `handleUserRejected`. */
    method HandleUserRejected(m: Message) returns (r: Reaction)
      modifies client`actionList, ui`exitStatus
      requires Valid()
      ensures Valid()
      ensures RejectedDone(m, r)
    {
      client.Enqueue(Message2(m.selectedUser, Some(ACTION_EXIT)));
      ui.ShowErrorMessage(true);
      r := Handled;
    }

    /** `handleKickUserEvent`: a kick of this client's own name, ignoring case, queues one
        EXIT for it and ends the process; a kick of anyone else takes them off the roster
        and says so in the chat box. A missing selected user, its name or this client's user
        throws first, and so does a null UID that the concurrent map refuses. */
    twostate predicate KickDone(m: Message, r: Reaction)
      reads client`actionList, client`isManager, client`userInfo, ui`exitStatus
      reads ui.fileFunctionPanel`buttonsEnabled, ui.fileFunctionPanel`userTypeLabel, ui.fileFunctionPanel`labelVisible
      reads ui.userPanel`removeEnabled, ui.drawArea`uiEnabled
      reads ui.userPanel`listModel, ui.userPanel`activeClientMap, ui.userPanel`concurrentMap
      reads ui.drawArea`pen, ui.drawArea`wide, ui.chat`lines
    {
      && OnlyChanges(Parts(queue := true, exit := true, roster := true, chat := true))
      && (m.selectedUser.None? || m.selectedUser.value.name.None? || client.userInfo.None? ==>
            r.Stopped? && OnlyChanges(Parts()))
      && (&& m.selectedUser.Some? && m.selectedUser.value.name.Some? && client.userInfo.Some?
          && EqualsIgnoreCaseOpt(m.selectedUser.value.name.value, client.userInfo.value.name) ==>
            && r.Handled? && OnlyChanges(Parts(queue := true, exit := true))
            && client.actionList == old(client.actionList) + [ExitEvent(m.selectedUser)]
            && ui.exitStatus == Some(1))
      && (&& m.selectedUser.Some? && m.selectedUser.value.name.Some? && client.userInfo.Some?
          && !EqualsIgnoreCaseOpt(m.selectedUser.value.name.value, client.userInfo.value.name) ==>
            && OnlyChanges(Parts(roster := true, chat := true))
            && (r.Handled? || r.Stopped?)
            && ui.userPanel.Removed(m.selectedUser, if r.Handled? then Done else Failed)
            && ui.chat.lines == old(ui.chat.lines)
                 + if r.Handled? then [Fill(MSG_KICK_USER, m.selectedUser.value.name.value)] else [])
    }

    /** `handleKickUserEvent`. */
    method HandleKickUserEvent(m: Message) returns (r: Reaction)
      modifies client`actionList, ui`exitStatus, ui.chat`lines
      modifies ui.userPanel`listModel, ui.userPanel`activeClientMap, ui.userPanel`concurrentMap
      requires Valid()
      ensures Valid()
      ensures KickDone(m, r)
    {
      if m.selectedUser.None? || m.selectedUser.value.name.None? || client.userInfo.None? {
        return Stopped;
      }
      var sel := m.selectedUser.value;
      if EqualsIgnoreCaseOpt(sel.name.value, client.userInfo.value.name) {
        client.Enqueue(Message2(m.selectedUser, Some(ACTION_EXIT)));
        ui.ShowErrorMessage(true);
      } else {
        var o := ui.userPanel.RemoveUserFromList(m.selectedUser);
        if o.Failed? {
          return Stopped;
        }
        ui.chat.Append(Fill(MSG_KICK_USER, sel.name.value));
      }
      r := Handled;
    }

    /** `handleLoadImageEvent`: the sender's name goes on the tool panel (a missing sender
        throws), the image replaces the board (`loadImageFromServer`, which throws without a
        current user), and only an image meant for everybody, one without a selected user,
        is announced in the chat box. */
    twostate predicate LoadImageDone(m: Message, readBack: bool, r: Reaction)
      requires ui.client == client
      reads client`actionList, client`isManager, client`userInfo, ui`exitStatus
      reads ui.fileFunctionPanel`buttonsEnabled, ui.fileFunctionPanel`userTypeLabel, ui.fileFunctionPanel`labelVisible
      reads ui.userPanel`removeEnabled, ui.drawArea`uiEnabled
      reads ui.userPanel`listModel, ui.userPanel`activeClientMap, ui.userPanel`concurrentMap
      reads ui.drawArea`pen, ui.drawArea`wide, ui.chat`lines, ui.drawArea`selectedColor
    {
      && OnlyChanges(Parts(pen := true, chat := true))
      && (m.user.None? ==> r.Stopped? && OnlyChanges(Parts()))
      && (m.user.Some? ==>
            && ui.ImageLoaded(m, readBack, if client.userInfo.Some? then Done else Failed)
            && (client.userInfo.None? ==> r.Stopped? && unchanged(ui.chat`lines))
            && (client.userInfo.Some? ==>
                  && r.Handled?
                  && ui.chat.lines == old(ui.chat.lines) + (if m.selectedUser.None? then [MSG_LOAD_IMAGE] else [])))
    }

    /** `handleLoadImageEvent`. */
    method HandleLoadImageEvent(m: Message, readBack: bool) returns (r: Reaction)
      modifies ui.drawArea`pen, ui.chat`lines
      requires Valid()
      ensures Valid()
      ensures LoadImageDone(m, readBack, r)
    {
      if m.user.None? {
        return Stopped;
      }
      var o := ui.LoadImageFromServer(m, readBack);
      if o.Failed? {
        return Stopped;
      }
      if m.selectedUser.None? {
        ui.chat.Append(MSG_LOAD_IMAGE);
      }
      r := Handled;
    }

    /** The CLEAR case: the sender's name goes on the tool panel (a missing sender throws),
        the chat box says so and the board is cleared. */
    twostate predicate ClearDone(m: Message, r: Reaction)
      reads client`actionList, client`isManager, client`userInfo, ui`exitStatus
      reads ui.fileFunctionPanel`buttonsEnabled, ui.fileFunctionPanel`userTypeLabel, ui.fileFunctionPanel`labelVisible
      reads ui.userPanel`removeEnabled, ui.drawArea`uiEnabled
      reads ui.userPanel`listModel, ui.userPanel`activeClientMap, ui.userPanel`concurrentMap
      reads ui.drawArea`pen, ui.drawArea`wide, ui.chat`lines, ui.drawArea`selectedColor
    {
      && OnlyChanges(Parts(pen := true, chat := true))
      && (m.user.None? ==> r.Stopped? && OnlyChanges(Parts()))
      && (m.user.Some? ==>
            && r.Handled? && ui.chat.lines == old(ui.chat.lines) + [MSG_CLEAR]
            && ui.drawArea.pen == ClearedPen(ui.drawArea.selectedColor))
    }

    /** The CLEAR case. */
    method HandleClear(m: Message) returns (r: Reaction)
      modifies ui.drawArea`pen, ui.chat`lines
      requires Valid()
      ensures Valid()
      ensures ClearDone(m, r)
    {
      if m.user.None? {
        return Stopped;
      }
      ui.chat.Append(MSG_CLEAR);
      ui.drawArea.Clear();
      r := Handled;
    }

    /** `handleForceQuit`: one EXIT for this client's own user, then the process ends. */
    twostate predicate ForceQuitDone(r: Reaction)
      reads client`actionList, client`isManager, client`userInfo, ui`exitStatus
      reads ui.fileFunctionPanel`buttonsEnabled, ui.fileFunctionPanel`userTypeLabel, ui.fileFunctionPanel`labelVisible
      reads ui.userPanel`removeEnabled, ui.drawArea`uiEnabled
      reads ui.userPanel`listModel, ui.userPanel`activeClientMap, ui.userPanel`concurrentMap
      reads ui.drawArea`pen, ui.drawArea`wide, ui.chat`lines
    {
      && OnlyChanges(Parts(queue := true, exit := true))
      && r.Handled?
      && client.actionList == old(client.actionList) + [ExitEvent(client.userInfo)]
      && ui.exitStatus == Some(1)
    }

    /** `handleForceQuit`. */
    method HandleForceQuit() returns (r: Reaction)
      modifies client`actionList, ui`exitStatus
      requires Valid()
      ensures Valid()
      ensures ForceQuitDone(r)
    {
      client.Enqueue(Message2(client.userInfo, Some(ACTION_EXIT)));
      ui.ShowErrorMessage(true);
      r := Handled;
    }

    /** What `eventSeggregrator` does with an event: the handler its exact action tag
        selects, which alone draws. An unknown tag changes nothing. */
    twostate predicate SegregatedDone(m: Message, answers: Answers, r: Reaction, new drawn: Option<Shape>)
      requires m.action.Some? && ui.client == client
      reads client`actionList, client`isManager, client`userInfo, ui`exitStatus
      reads ui.fileFunctionPanel`buttonsEnabled, ui.fileFunctionPanel`userTypeLabel, ui.fileFunctionPanel`labelVisible
      reads ui.userPanel`removeEnabled, ui.drawArea`uiEnabled
      reads ui.userPanel`listModel, ui.userPanel`activeClientMap, ui.userPanel`concurrentMap
      reads ui.drawArea`pen, ui.drawArea`wide, ui.chat`lines, ui.drawArea`selectedColor
    {
      && (!HandlerOf(m.action.value).DrawShape? ==> drawn.None?)
      && match HandlerOf(m.action.value)
         case DrawShape => DrawActionDone(m, r, drawn)
         case ReceiveChat => ChatDone(m, answers.decrypted, r)
         case AssignManager => ManagerAssignDone(m, r)
         case Permission => PermissionDone(m, answers, r)
         case UserAdded => UserAddedDone(m, r)
         case UserRejected => RejectedDone(m, r)
         case UserKicked => KickDone(m, r)
         case RefreshList => RefreshDone(m, r)
         case LoadImage => LoadImageDone(m, answers.readBack, r)
         case ClearBoard => ClearDone(m, r)
         case ForceQuit => ForceQuitDone(r)
         case Unknown => r.Handled? && OnlyChanges(Parts())
    }

    /** `listenEvents` for one line read from the server: a blank line is skipped, a line
        that cannot be routed stops the listener, a free-hand or eraser stroke is drawn at
        once, and any other event goes to `eventSeggregrator`. */
    method ListenEvent(line: Option<string>, decoded: Option<Message>, answers: Answers)
      returns (r: Reaction, drawn: Option<Shape>)
      modifies client`actionList, client`isManager, client`userInfo, ui`exitStatus
      modifies ui.fileFunctionPanel`buttonsEnabled, ui.fileFunctionPanel`userTypeLabel, ui.fileFunctionPanel`labelVisible
      modifies ui.userPanel`removeEnabled, ui.drawArea`uiEnabled, ui.drawArea`pen, ui.drawArea`wide
      modifies ui.userPanel`listModel, ui.userPanel`activeClientMap, ui.userPanel`concurrentMap, ui.chat`lines
      requires Valid()
      ensures Valid()
      ensures RouteOf(line, decoded).Blank? ==> r.Skipped? && drawn.None? && OnlyChanges(Parts())
      ensures RouteOf(line, decoded).Unreadable? ==> r.Stopped? && drawn.None? && OnlyChanges(Parts())
      ensures RouteOf(line, decoded).FreeHand? ==> FreeHandDone(decoded.value, r, drawn)
      ensures RouteOf(line, decoded).Erase? ==> EraseDone(decoded.value, r, drawn)
      ensures RouteOf(line, decoded).Segregate? ==>
        SegregatedDone(decoded.value, answers, r, drawn) && unchanged(ui.drawArea`wide)
    {
      drawn := None;
      if IsBlank(line) {
        return Skipped, None;
      }
      if decoded.None? || decoded.value.action.None? {
        return Stopped, None;
      }
      var m := decoded.value;
      if EqualsIgnoreCase(m.action.value, ACTION_DRAW) {
        if m.tool.None? {
          return Stopped, None;
        } else if EqualsIgnoreCase(m.tool.value, TOOL_PENCIL) {
          r, drawn := HandleFreeHand(m);
          return;
        } else if EqualsIgnoreCase(m.tool.value, TOOL_ERASER) {
          r, drawn := HandleErase(m);
          return;
        }
      }
      r, drawn := EventSeggregrator(m, answers);
    }

    /** `eventSeggregrator`: the handler the exact action tag selects. A join request and
        a user-added event run on the executor, where a failure ends only that task. */
    method EventSeggregrator(m: Message, answers: Answers) returns (r: Reaction, drawn: Option<Shape>)
      modifies client`actionList, client`isManager, client`userInfo, ui`exitStatus
      modifies ui.fileFunctionPanel`buttonsEnabled, ui.fileFunctionPanel`userTypeLabel, ui.fileFunctionPanel`labelVisible
      modifies ui.userPanel`removeEnabled, ui.drawArea`uiEnabled, ui.drawArea`pen
      modifies ui.userPanel`listModel, ui.userPanel`activeClientMap, ui.userPanel`concurrentMap, ui.chat`lines
      requires Valid() && m.action.Some?
      requires EqualsIgnoreCase(m.action.value, ACTION_DRAW) ==> m.tool.Some?
      ensures Valid()
      ensures SegregatedDone(m, answers, r, drawn)
    {
      drawn := None;
      match HandlerOf(m.action.value)
      case DrawShape =>
        assert EqualsIgnoreCase(ACTION_DRAW, ACTION_DRAW);
        r, drawn := DrawAction(m);
      case ReceiveChat =>
        r := HandleChat(m, answers.decrypted);
      case AssignManager =>
        r := HandleManagerAssign(m);
      case Permission =>
        r := HandlePermission(m, answers);
      case UserAdded =>
        r := HandleUserAdded(m);
      case UserRejected =>
        r := HandleUserRejected(m);
      case UserKicked =>
        r := HandleKickUserEvent(m);
      case RefreshList =>
        r := HandleRefreshUserList(m);
      case LoadImage =>
        r := HandleLoadImageEvent(m, answers.readBack);
      case ClearBoard =>
        r := HandleClear(m);
      case ForceQuit =>
        r := HandleForceQuit();
      case Unknown =>
        r := Handled;
    }
  }
}
