/**
 * `WhiteBoardUI`: the frame that owns the panels. The core parts are the login prompt,
 * the manager's answer to a join request, the error dialog that ends the process when the
 * error is critical, and switching the panels on once the server has let the user in.
 * Dialog answers are parameters; `exitStatus` records a `System.exit`.
 */
module Ui {
  import opened Wrappers
  import opened Text
  import opened Dto
  import opened ClientConstants
  import opened Client
  import opened Users
  import opened Board
  import opened Files

  /** `userLogin`: any non-empty answer is accepted and trimmed; an empty or cancelled
      (null) answer is refused. */
  function LoginName(input: Option<string>): (name: Option<string>)
    ensures name.Some? <==> IsNotEmpty(input)
    ensures name.Some? ==> name.value == Trim(input.value)
  {
    if IsNotEmpty(input) then Some(Trim(input.value)) else None
  }

  /** An answer of spaces only is not empty, so it is accepted and becomes the empty name. */
  lemma BlankLoginAccepted()
    ensures LoginName(Some("   ")) == Some("")
  {
    TrimSpec("   ");
    assert forall i | 0 <= i < 3 :: "   "[i] <= ' ';
  }

  /** The events `userPermission` queues for the manager's answer: on accept the
      NEW_USER_ACCEPT and then the LOAD_IMAGE with the current board, on reject one
      NEW_USER_REJECT; each names the requester. */
  function PermissionEvents(me: Option<User>, requester: User, accepted: bool, snapshot: string): (es: seq<Message>)
    ensures accepted ==>
      && |es| == 2 && es[0].action == Some(ACTION_NEW_USER_ACCEPT)
      && es[1].action == Some(ACTION_LOAD_IMAGE) && es[1].drawboardImage == Some(snapshot)
    ensures !accepted ==> |es| == 1 && es[0].action == Some(ACTION_NEW_USER_REJECT)
    ensures forall e | e in es :: e.user == me && e.selectedUser == Some(requester)
  {
    var sel := Some(requester);
    if accepted then
      [Message2(me, Some(ACTION_NEW_USER_ACCEPT)).(selectedUser := sel),
       Message2(me, Some(ACTION_LOAD_IMAGE)).(selectedUser := sel, drawboardImage := Some(snapshot))]
    else
      [Message2(me, Some(ACTION_NEW_USER_REJECT)).(selectedUser := sel)]
  }

  /** The acceptance is addressed: the server forwards the LOAD_IMAGE it carries to the
      requester alone, since it has a selected user. */
  lemma AcceptImageDirected(me: Option<User>, requester: User, snapshot: string)
    ensures var es := PermissionEvents(me, requester, true, snapshot);
      es[1].selectedUser.Some? && es[1].selectedUser.value.uid == requester.uid
  {
  }

  class WhiteBoardUI {
    const client: WhiteboardClient
    const chat: ChatBox
    const drawArea: DrawArea
    const fileFunctionPanel: FileFunctionPanel
    const userPanel: UserPanel
    /** The status passed to `System.exit`, once the process has been ended. */
    var exitStatus: Option<int>

    /** All panels share the one client and the one chat box. */
    predicate Wired() {
      && drawArea.client == client
      && fileFunctionPanel.client == client && fileFunctionPanel.drawArea == drawArea
      && fileFunctionPanel.chat == chat
      && userPanel.client == client && userPanel.chat == chat
    }

    /** `new WhiteBoardUI(client)`: the login prompt first (`input` is its answer), then
        the panels. */
    constructor (client: WhiteboardClient, input: Option<string>)
      modifies client`userInfo, client`actionList
      ensures this.client == client && Wired() && userPanel.Valid()
      ensures fresh(chat) && fresh(drawArea) && fresh(fileFunctionPanel) && fresh(userPanel)
      ensures IsNotEmpty(input) ==>
        && exitStatus.None? && client.userInfo == Some(NamedUser(LoginName(input)))
        && client.actionList == old(client.actionList) + [JoinRequest(NamedUser(LoginName(input)))]
      ensures !IsNotEmpty(input) ==> exitStatus == Some(0)
    {
      this.client := client;
      var chatBox := new ChatBox();
      var area := new DrawArea(client);
      this.chat := chatBox;
      this.drawArea := area;
      this.fileFunctionPanel := new FileFunctionPanel(client, area, chatBox);
      this.userPanel := new UserPanel(client, chatBox);
      exitStatus := None;
      new;
      UserLogin(input);
    }

    /** `userLogin`. */
    method UserLogin(input: Option<string>)
      modifies client`userInfo, client`actionList, this`exitStatus
      ensures IsNotEmpty(input) ==>
        && exitStatus == old(exitStatus) && client.userInfo == Some(NamedUser(LoginName(input)))
        && client.actionList == old(client.actionList) + [JoinRequest(NamedUser(LoginName(input)))]
      ensures !IsNotEmpty(input) ==>
        exitStatus == Some(0) && unchanged(client`userInfo, client`actionList)
    {
      if IsNotEmpty(input) {
        client.SetClientUserName(Some(Trim(input.value)), true);
      } else {
        exitStatus := Some(0);
      }
    }

    /** `showErrorMessage`: the dialog, and for a critical error the end of the process. */
    method ShowErrorMessage(isCritical: bool)
      modifies this`exitStatus
      ensures exitStatus == if isCritical then Some(1) else old(exitStatus)
    {
      if isCritical {
        exitStatus := Some(1);
      }
    }

    /** `userPermission`: the join request names its requester, whose name the dialog
        shows (a missing requester throws before the dialog). On accept both events are
        queued, the requester joins the manager's own roster and the chat box says so; on
        reject only the rejection is queued. A requester without a UID joins the list model
        but throws when the concurrent map refuses its null key. */
    twostate predicate PermissionHandled(request: Message, accepted: bool, snapshot: string, r: Outcome)
      reads client`actionList, client`userInfo, userPanel`listModel, userPanel`activeClientMap
      reads userPanel`concurrentMap, chat`lines
    {
      && (request.selectedUser.None? ==>
        && r.Failed? && client.actionList == old(client.actionList)
        && unchanged(userPanel`listModel, userPanel`activeClientMap, chat`lines))
      && (request.selectedUser.Some? ==>
        client.actionList == old(client.actionList)
          + PermissionEvents(client.userInfo, request.selectedUser.value, accepted, snapshot))
      && (request.selectedUser.Some? && accepted ==>
        var sel := request.selectedUser.value;
        && userPanel.listModel == old(userPanel.listModel) + [sel]
        && userPanel.activeClientMap ==
             if userPanel.RefusesKey(sel.uid) then old(userPanel.activeClientMap)
             else old(userPanel.activeClientMap)[sel.uid := sel])
      && (request.selectedUser.Some? && accepted && !userPanel.RefusesKey(request.selectedUser.value.uid)
              && request.selectedUser.value.name.Some? ==>
        r.Done? && chat.lines == old(chat.lines) + [Fill(MSG_USER_ADDED, request.selectedUser.value.name.value) + LF])
      && (request.selectedUser.Some? && accepted
              && (userPanel.RefusesKey(request.selectedUser.value.uid) || request.selectedUser.value.name.None?) ==>
        r.Failed? && chat.lines == old(chat.lines))
      && (request.selectedUser.Some? && !accepted ==>
        r.Done? && unchanged(userPanel`listModel, userPanel`activeClientMap, chat`lines))
    }

    /** `userPermission`. */
    method UserPermission(request: Message, accepted: bool, snapshot: string) returns (r: Outcome)
      modifies client`actionList, userPanel`listModel, userPanel`activeClientMap, chat`lines
      requires Wired() && userPanel.Valid()
      ensures userPanel.Valid()
      ensures PermissionHandled(request, accepted, snapshot, r)
    {
      if request.selectedUser.None? {
        return Failed;
      }
      var selected := request.selectedUser.value;
      if accepted {
        var userAccepted := Message2(client.userInfo, Some(ACTION_NEW_USER_ACCEPT));
        userAccepted := userAccepted.(selectedUser := request.selectedUser);
        client.Enqueue(userAccepted);
        var loadImageEvent := Message2(client.userInfo, Some(ACTION_LOAD_IMAGE));
        loadImageEvent := loadImageEvent.(selectedUser := request.selectedUser);
        loadImageEvent := loadImageEvent.(drawboardImage := Some(snapshot));
        client.Enqueue(loadImageEvent);
        var added := userPanel.AddUserToList(selected);
        if added.Failed? || selected.name.None? {
          return Failed;
        }
        chat.Append(Fill(MSG_USER_ADDED, selected.name.value) + LF);
        r := Done;
      } else {
        var userRejected := Message2(client.userInfo, Some(ACTION_NEW_USER_REJECT));
        userRejected := userRejected.(selectedUser := request.selectedUser);
        client.Enqueue(userRejected);
        r := Done;
      }
    }

    /** `enableUserUI`: every panel switches itself on, by its own role rule. */
    twostate predicate UserUIEnabled()
      reads client`isManager, fileFunctionPanel`buttonsEnabled, fileFunctionPanel`userTypeLabel
      reads fileFunctionPanel`labelVisible, userPanel`removeEnabled, drawArea`uiEnabled
    {
      && fileFunctionPanel.buttonsEnabled == (old(fileFunctionPanel.buttonsEnabled) || client.isManager)
      && fileFunctionPanel.userTypeLabel ==
           (if client.isManager then old(fileFunctionPanel.userTypeLabel) else "GUEST")
      && fileFunctionPanel.labelVisible
      && userPanel.removeEnabled == (old(userPanel.removeEnabled) || client.isManager)
      && drawArea.uiEnabled
    }

    /** `enableUserUI`. The header panel comes last and writes the current user's name into
        its heading, so a missing user throws after the other panels are switched on. */
    method EnableUserUI() returns (r: Outcome)
      modifies fileFunctionPanel`buttonsEnabled, fileFunctionPanel`userTypeLabel, fileFunctionPanel`labelVisible
      modifies userPanel`removeEnabled, drawArea`uiEnabled
      requires Wired()
      ensures UserUIEnabled()
      ensures r.Failed? <==> client.userInfo.None?
    {
      fileFunctionPanel.EnableUIAfterVerification();
      userPanel.EnableUIAfterVerification();
      drawArea.EnableUIAfterVerification();
      r := if client.userInfo.None? then Failed else Done;
    }

    /** `loadImageFromServer`: the temporary file is named after the current user's UID, so
        a missing user throws; any failure after that (`readBack` false) is caught and
        leaves the board alone, and a board image that was read back replaces the board. */
    twostate predicate ImageLoaded(m: Message, readBack: bool, r: Outcome)
      reads client`userInfo, drawArea`pen, drawArea`selectedColor
    {
      && (r.Failed? <==> client.userInfo.None?)
      && (r.Done? && m.drawboardImage.Some? && readBack ==> drawArea.pen == ClearedPen(drawArea.selectedColor))
      && (!(r.Done? && m.drawboardImage.Some? && readBack) ==> drawArea.pen == old(drawArea.pen))
    }

    /** `loadImageFromServer`. */
    method LoadImageFromServer(m: Message, readBack: bool) returns (r: Outcome)
      modifies drawArea`pen
      requires Wired()
      ensures ImageLoaded(m, readBack, r)
    {
      if client.userInfo.None? {
        return Failed;
      }
      if m.drawboardImage.Some? && readBack {
        drawArea.Clear();
      }
      r := Done;
    }
  }
}
