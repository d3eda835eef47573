/**
 * The client process: the argument check of `WhiteboardClient.main`, the shared state of
 * `WhiteboardClient` (the outbound queue `actionList`, the manager flag and the current
 * user), and `ChatBox`, which records the system lines the client shows in its chat box.
 */
module Client {
  import opened Wrappers
  import opened Text
  import opened Dto
  import opened ClientConstants

  /** What `WhiteboardClient.main` ends in. */
  datatype Launch =
    | Refused                          // wrong arguments: a dialog, then System.exit(0)
    | Crashed                          // Integer.parseInt throws NumberFormatException
    | PortRejected                     // new Socket throws IllegalArgumentException
    | Connecting(host: string, port: int)

  /** The outcome of a client-side handler: `Failed` when an unchecked exception (a
      null dereference, or `toMap` on a duplicate key) leaves it part-way. */
  datatype Outcome = Done | Failed

  /** `WhiteboardClient.main`: refuse a missing argument array, fewer than two arguments,
      a blank host or a port that is not all digits; then `Integer.parseInt` throws past
      `int` and `new Socket` throws past 65535, neither of which is caught. */
  function ClientStartup(args: Option<seq<string>>): (l: Launch)
    ensures l.Refused? <==>
      args.None? || |args.value| < 2 || IsBlank(Some(args.value[0])) || !IsNumeric(args.value[1])
    ensures l.Crashed? <==> !l.Refused? && DigitsValue(args.value[1]) > 0x7FFF_FFFF
    ensures l.PortRejected? <==> !l.Refused? && 65535 < DigitsValue(args.value[1]) <= 0x7FFF_FFFF
    ensures l.Connecting? ==>
      l.host == args.value[0] && 0 <= l.port <= 65535 && ParseInt(args.value[1]) == Some(l.port)
  {
    if args.None? || |args.value| < 2 || IsBlank(Some(args.value[0])) || !IsNumeric(args.value[1]) then
      Refused
    else
      var port := DigitsValue(args.value[1]);
      if port > 0x7FFF_FFFF then Crashed
      else if port > 65535 then PortRejected
      else
        NumericParses(args.value[1]);
        Connecting(args.value[0], port)
  }

  /** A port written in Arabic-Indic digits passes the check and is parsed like ASCII
      digits. */
  lemma UnicodePortAccepted()
    ensures ClientStartup(Some(["localhost", "\U{0668}\U{0660}\U{0668}\U{0660}"])) == Connecting("localhost", 8080)
  {
    ArabicIndicDigits();
    assert !IsWhitespace("localhost"[0]);
  }

  /** The user a client knows before the server has answered: a `UserDto` with only its name
      set, so no UID and not the manager. */
  function NamedUser(name: Option<string>): (u: User)
    ensures u.uid.None? && u.name == name && !u.isManager
  {
    User(None, name, false)
  }

  /** The event `setClientUserName(name, true)` queues: a join request carrying the user. */
  function JoinRequest(user: User): (m: Message)
    ensures m.user == Some(user) && m.action == Some(ACTION_NEW_USER_PERMISSION)
    ensures m == Message2(Some(user), Some(ACTION_NEW_USER_PERMISSION))
  {
    Message2(Some(user), Some(ACTION_NEW_USER_PERMISSION))
  }

  /** A login queues exactly one join request, for a user with no UID yet. */
  lemma JoinRequestShape(name: Option<string>)
    ensures var m := JoinRequest(NamedUser(name));
      m.user.Some? && m.user.value.uid.None? && m.user.value.name == name
      && m.selectedUser.None? && m.activeUserList.None? && m.tool.None?
  {
  }

  /** `WhiteboardClient`: the state every panel and both network threads share. */
  class WhiteboardClient {
    /** The `ConcurrentLinkedQueue` of events waiting for the dispatcher, head first. */
    var actionList: seq<Message>
    var isManager: bool
    var userInfo: Option<User>

    constructor ()
      ensures actionList == [] && !isManager && userInfo.None?
    {
      actionList := [];
      isManager := false;
      userInfo := None;
    }

    /** `getActionList().add(m)`: the event joins the tail of the queue. */
    method Enqueue(m: Message)
      modifies this`actionList
      ensures actionList == old(actionList) + [m]
    {
      actionList := actionList + [m];
    }

    /** `getActionList().poll()`, as the dispatcher calls it: the head of the queue, or
        nothing when the queue is empty. */
    method Poll() returns (m: Option<Message>)
      modifies this`actionList
      ensures old(actionList) == [] ==> m.None? && actionList == []
      ensures old(actionList) != [] ==> m == Some(old(actionList)[0]) && actionList == old(actionList)[1..]
      ensures m.Some? ==> old(actionList) == [m.value] + actionList
    {
      if actionList == [] {
        m := None;
      } else {
        m := Some(actionList[0]);
        actionList := actionList[1..];
      }
    }

    /** `setClientUserName`: a fresh user with only the name; a login also queues the join
        request for that user. */
    method SetClientUserName(name: Option<string>, isUserLogin: bool)
      modifies this`userInfo, this`actionList
      ensures userInfo == Some(NamedUser(name))
      ensures isUserLogin ==> actionList == old(actionList) + [JoinRequest(NamedUser(name))]
      ensures !isUserLogin ==> actionList == old(actionList)
    {
      userInfo := Some(NamedUser(name));
      if isUserLogin {
        Enqueue(Message2(userInfo, Some(ACTION_NEW_USER_PERMISSION)));
      }
    }

    method GetIsManager() returns (b: bool)
      ensures b == isManager
    {
      b := isManager;
    }

    method SetIsManager(b: bool)
      modifies this`isManager
      ensures isManager == b
    {
      isManager := b;
    }

    method GetUserInfo() returns (u: Option<User>)
      ensures u == userInfo
    {
      u := userInfo;
    }

    method SetUserInfo(u: Option<User>)
      modifies this`userInfo
      ensures userInfo == u
    {
      userInfo := u;
    }
  }

  /** The chat box, as far as the core uses it: the system lines appended in red. */
  class ChatBox {
    var lines: seq<string>

    constructor ()
      ensures lines == []
    {
      lines := [];
    }

    method Append(s: string)
      modifies this`lines
      ensures lines == old(lines) + [s]
    {
      lines := lines + [s];
    }
  }
}
