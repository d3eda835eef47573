# Shared whiteboard, modelled in Dafny

The shared whiteboard is a client/server drawing board. One server relays events between
clients, and every event is an `ActionMessageDto` written as one JSON line. The first user
to join becomes the **manager**. Each later user waits in the server's pending map until the
manager accepts or rejects them. Drawing, chat, system chat and clear events are relayed as
received to every other admitted client. Join, accept, reject and exit events update the
server's registry and then send. A kick is broadcast first, with the kicked user still
admitted, and removes that user afterwards. A load-image event leaves the registry as it is.

The client keeps an outbound queue (`actionList`) that a dispatcher thread drains. A listener
thread reads the server's lines and reacts: it draws strokes and shapes, maintains the
roster of active users and writes system lines in the chat box. On a rejection, on its own
kick and on a force-quit it queues an EXIT and ends the process.

## Layout

| file | module | models |
|---|---|---|
| `wrappers.dfy` | `Wrappers` | `Option` |
| `java_int.dfy` | `JavaInt` | Java `int` wrap-around, `Math.abs`, truncating `/ 2` |
| `text.dfy` | `Text` | the string helpers of the Java and Commons Lang libraries that the code calls |
| `server_constants.dfy` | `ServerConstants` | the server's action tags and its urgent list |
| `dto.dfy` | `Dto` | `UserDto`, `ActionMessageDto` (a value and a mutable object), `toString` |
| `routing.dfy` | `Routing` | what one handler does with one line, as a function of the registry; the invariants |
| `server.dfy` | `Server` | `WhiteboardServer` and `WhiteboardHandler` as classes, proved to do what `Routing` says |
| `client_constants.dfy` | `ClientConstants` | the client's tools, tags and message templates |
| `client.dfy` | `Client` | `WhiteboardClient.main`'s argument check, the client's shared state, the chat box |
| `user_panel.dfy` | `Users` | `UserPanel` |
| `draw_area.dfy` | `Board` | `DrawArea`: geometry, mouse handlers, drawing calls |
| `image_filter.dfy` | `ImageFilter` | `ImageSelectionFilter` |
| `file_panel.dfy` | `Files` | `FileFunctionPanel` |
| `ui.dfy` | `Ui` | `WhiteBoardUI` |
| `listener.dfy` | `Listener` | `EventListener` |

The server's state is the `Registry`: the admitted map (`clientInfoMap`), the pending map
(`unverifiedClients`) and the manager UID. `Routing.Dispatch` gives, for one received line,
four things: the new registry, the handler's new `userInfo`, the one write it makes (a
direct `sendMessage` or a `handleBroadcastMessages`) and whether the read loop goes on,
breaks after an EXIT, or dies on an unchecked exception. `Routing.WellFormed` is the
invariant the handlers keep:

- both maps are keyed by UID;
- no UID is in both maps;
- no pending user is a manager;
- only the manager is flagged as manager.

The classes in `Server` update the maps in place and record every socket write in an
`outbox`. Each handler method is proved to leave exactly the state `Routing` prescribes.
The broadcast loop is proved to write exactly one line to each working recipient.

On the client, the classes keep the source's fields: the queue, the roster's list model
and UID map, the chat box lines, the pen colour and stroke, the current file path and the
exit status. Each method's `ensures` says, case by case, what it does to the fields it may
modify. The listener's effects are named two-state predicates (`FreeHandDone`,
`KickDone`, ...), and each of them also says which parts of the client stay as they were
(`OnlyChanges`). The dispatchers `ListenEvent` and `EventSeggregrator` promise the effect
of the handler that the route selects.

A Java exception that ends a handler is an explicit outcome (`Failed`, `Stopped`,
`TaskFailed`). The preconditions are the panels' wiring and the roster's key invariant
(`Valid`), and the facts the source's own callers have already settled: a line reaches
`eventSeggregrator` only with an action, and a DRAW reaches `drawAction` only with a tool,
because `listenEvents` has already dereferenced both.

Dialog answers, file contents and decoded JSON are parameters. `Choice` is what a file
dialog returned, `FileRead` is how reading a file went, and the `decoded` argument of
`ListenEvent` is what the JSON decoder made of the line.

## Model

| member | source | states |
|---|---|---|
| ServerConstants.UrgentExactly | whiteboard-server/src/main/java/com/distributed/project/whiteboard/server/utils/Constants.java:35-36 | The urgent list holds DRAW, CHAT, SYSTEM_CHAT and CLEAR and nothing else; membership is case-sensitive. |
| ServerConstants.NonUrgentTags | whiteboard-server/src/main/java/com/distributed/project/whiteboard/server/utils/Constants.java:19-36 | EXIT and the five administrative tags are not urgent, so they are never relayed verbatim. |
| ServerConstants.TagsDistinct | whiteboard-server/src/main/java/com/distributed/project/whiteboard/server/utils/Constants.java:19-32 | The fourteen action tags are pairwise distinct strings. |
| Dto.EmptyMessage | whiteboard-server/src/main/java/com/distributed/project/whiteboard/server/dto/ActionMessageDto.java:159-161 | The no-argument constructor leaves every one of the twelve fields null. |
| Dto.Message2 | whiteboard-server/src/main/java/com/distributed/project/whiteboard/server/dto/ActionMessageDto.java:153-157 | The two-argument constructor sets only the user and the action; every other field is null. |
| Dto.Message9 | whiteboard-server/src/main/java/com/distributed/project/whiteboard/server/dto/ActionMessageDto.java:139-151 | The drawing constructor stores its nine arguments; the selected user, the user list and the image stay null. |
| Dto.ActionMessageDto.constructor | whiteboard-server/src/main/java/com/distributed/project/whiteboard/server/dto/ActionMessageDto.java:159-161 | A new object serialises as the all-null message. |
| Dto.ActionMessageDto.Of | whiteboard-server/src/main/java/com/distributed/project/whiteboard/server/dto/ActionMessageDto.java:153-157 | The object serialises as the user-and-action message. |
| Dto.ActionMessageDto.Drawing | whiteboard-server/src/main/java/com/distributed/project/whiteboard/server/dto/ActionMessageDto.java:139-151 | The object serialises as the nine-field drawing message. |
| Dto.ActionMessageDto.SetUser | whiteboard-server/src/main/java/com/distributed/project/whiteboard/server/dto/ActionMessageDto.java:47-49 | Only the user field changes. |
| Dto.ActionMessageDto.SetAction | whiteboard-server/src/main/java/com/distributed/project/whiteboard/server/dto/ActionMessageDto.java:55-57 | Only the action field changes. |
| Dto.ActionMessageDto.SetTool | whiteboard-server/src/main/java/com/distributed/project/whiteboard/server/dto/ActionMessageDto.java:63-65 | Only the tool field changes. |
| Dto.ActionMessageDto.SetStartPoint | whiteboard-server/src/main/java/com/distributed/project/whiteboard/server/dto/ActionMessageDto.java:71-73 | Only the start point changes. |
| Dto.ActionMessageDto.SetEndPoint | whiteboard-server/src/main/java/com/distributed/project/whiteboard/server/dto/ActionMessageDto.java:79-81 | Only the end point changes. |
| Dto.ActionMessageDto.SetDragPoint | whiteboard-server/src/main/java/com/distributed/project/whiteboard/server/dto/ActionMessageDto.java:87-89 | Only the drag point changes. |
| Dto.ActionMessageDto.SetColor | whiteboard-server/src/main/java/com/distributed/project/whiteboard/server/dto/ActionMessageDto.java:95-97 | Only the colour changes. |
| Dto.ActionMessageDto.SetDrawText | whiteboard-server/src/main/java/com/distributed/project/whiteboard/server/dto/ActionMessageDto.java:103-105 | Only the drawn text changes. |
| Dto.ActionMessageDto.SetChatMessage | whiteboard-server/src/main/java/com/distributed/project/whiteboard/server/dto/ActionMessageDto.java:111-113 | Only the chat message changes. |
| Dto.ActionMessageDto.SetSelectedUser | whiteboard-server/src/main/java/com/distributed/project/whiteboard/server/dto/ActionMessageDto.java:119-121 | Only the selected user changes. |
| Dto.ActionMessageDto.SetActiveUserList | whiteboard-server/src/main/java/com/distributed/project/whiteboard/server/dto/ActionMessageDto.java:127-129 | Only the user list changes. |
| Dto.ActionMessageDto.SetDrawboardImage | whiteboard-server/src/main/java/com/distributed/project/whiteboard/server/dto/ActionMessageDto.java:135-137 | Only the board image changes. |
| Dto.ColorInText | whiteboard-server/src/main/java/com/distributed/project/whiteboard/server/dto/ActionMessageDto.java:164-170 | In the text form a missing colour prints as "null"; a present colour prints as a decimal numeral that parses back to its RGB value. |
| Dto.ColorTextInjective | whiteboard-server/src/main/java/com/distributed/project/whiteboard/server/dto/ActionMessageDto.java:164-170 | Two colours print the same only when they are the same colour, or both are missing. |
| Text.IntToStringRoundTrip | whiteboard-server/src/main/java/com/distributed/project/whiteboard/server/dto/ActionMessageDto.java:167 | The decimal form of any int parses back to that int, and it is never the text "null". |
| Text.NumericParses | whiteboard-server/src/main/java/com/distributed/project/whiteboard/server/WhiteboardServer.java:50-57 | A string that passes isNumeric has no sign, so parseInt reads exactly the value of its digits. |
| Text.ArabicIndicDigits | whiteboard-server/src/main/java/com/distributed/project/whiteboard/server/WhiteboardServer.java:50-57 | isNumeric and parseInt take digits of any script: four Arabic-Indic digits are numeric and read as 8080. |
| Text.ArabicIndic | whiteboard-server/src/main/java/com/distributed/project/whiteboard/server/WhiteboardServer.java:50-57 | Each of the ten Arabic-Indic digits U+0660..U+0669 is a decimal digit whose value is its distance from U+0660. |
| Text.TrimSpec | whiteboard-client/src/main/java/com/distributed/project/whiteboard/client/WhiteBoardUI.java:123 | trim keeps a contiguous slice of the input with no character at or below a space at either end; the result is empty exactly when every character is at or below a space. |
| Routing.InitialRegistry | whiteboard-server/src/main/java/com/distributed/project/whiteboard/server/WhiteboardServer.java:36-42 | A new server has empty admitted and pending maps and no manager, and this registry is well formed. |
| Routing.RosterSpec | whiteboard-server/src/main/java/com/distributed/project/whiteboard/server/WhiteboardHandler.java:154 | The user list sent in an event holds each admitted user exactly once and nothing else; when users are keyed by their UID, no UID repeats in it. |
| Routing.RosterOfOne | whiteboard-server/src/main/java/com/distributed/project/whiteboard/server/WhiteboardHandler.java:150-156 | The manager's first user list holds the manager alone. |
| Routing.RunFrom | whiteboard-server/src/main/java/com/distributed/project/whiteboard/server/WhiteboardHandler.java:69-86 | The read loop never takes more steps than there are lines, and a loop that did not end early has read every line. |
| Routing.AdminRoute | whiteboard-server/src/main/java/com/distributed/project/whiteboard/server/WhiteboardHandler.java:77-84 | An administrative tag skips both the verbatim relay and the exit path and goes to handleAdminLogic. |
| Routing.JoinFirst | whiteboard-server/src/main/java/com/distributed/project/whiteboard/server/WhiteboardHandler.java:138-157 | The first join makes the requester the admitted manager; only the requester is told, with ASSIGN_MANAGER and a one-user list. |
| Routing.JoinLater | whiteboard-server/src/main/java/com/distributed/project/whiteboard/server/WhiteboardHandler.java:158-177 | A later join puts the requester in pending as a non-manager and asks only the manager; the handler fails when no admitted manager exists. |
| Routing.AcceptMoves | whiteboard-server/src/main/java/com/distributed/project/whiteboard/server/WhiteboardHandler.java:187-204 | Accepting moves the user from pending to admitted, and the maps stay disjoint. NEW_USER_ADDED, carrying the admitted users after the move, goes to every other admitted client, the newcomer included. |
| Routing.RejectDrops | whiteboard-server/src/main/java/com/distributed/project/whiteboard/server/WhiteboardHandler.java:213-222 | Rejecting removes the user from pending, leaves admitted alone and forwards the request to the rejected user only. |
| Routing.DecisionOnMissing | whiteboard-server/src/main/java/com/distributed/project/whiteboard/server/WhiteboardHandler.java:187-222 | Accepting or rejecting a UID that is not pending ends the handler, with nothing changed and nothing written. |
| Routing.KickBroadcastsFirst | whiteboard-server/src/main/java/com/distributed/project/whiteboard/server/WhiteboardHandler.java:232-242 | The kick is relayed while the kicked user is still admitted, so that user receives it, and then it is removed. |
| Routing.ExitByManager | whiteboard-server/src/main/java/com/distributed/project/whiteboard/server/WhiteboardHandler.java:254-264 | The manager's EXIT removes the manager and sends FORCE_QUIT to everyone still admitted; the loop ends. |
| Routing.ExitByMember | whiteboard-server/src/main/java/com/distributed/project/whiteboard/server/WhiteboardHandler.java:265-276 | A member's EXIT removes that member and sends REFRESH_USER_LIST, naming the member, to the others; the list sent no longer contains the member. |
| Routing.ExitByStranger | whiteboard-server/src/main/java/com/distributed/project/whiteboard/server/WhiteboardHandler.java:252-277 | The EXIT of a UID that is not admitted changes nothing and writes nothing, but still ends the loop. |
| Routing.ExitStops | whiteboard-server/src/main/java/com/distributed/project/whiteboard/server/WhiteboardHandler.java:79-82 | EXIT, in any letter case, never lets the read loop continue. |
| Routing.UrgentVerbatim | whiteboard-server/src/main/java/com/distributed/project/whiteboard/server/WhiteboardHandler.java:77-78 | An urgent tag is relayed, as the very line received, to every admitted client but the sender. |
| Routing.LoadImageRoute | whiteboard-server/src/main/java/com/distributed/project/whiteboard/server/WhiteboardHandler.java:287-300 | LOAD_IMAGE goes to the selected admitted user alone, or to all others when no user is selected; the registry does not change. |
| Routing.UnknownIgnored | whiteboard-server/src/main/java/com/distributed/project/whiteboard/server/WhiteboardHandler.java:120-121 | A tag the switch does not know changes nothing and writes nothing, and the loop goes on. |
| Routing.MalformedFails | whiteboard-server/src/main/java/com/distributed/project/whiteboard/server/WhiteboardHandler.java:71-77 | A line that does not decode, or that has no action, ends the handler thread. |
| Routing.BroadcastsReachAdmittedOnly | whiteboard-server/src/main/java/com/distributed/project/whiteboard/server/WhiteboardHandler.java:333-347 | In a well-formed registry, every broadcast goes only to admitted clients, never to a pending client, and never to the sender. |
| Routing.ExitBroadcast | whiteboard-server/src/main/java/com/distributed/project/whiteboard/server/WhiteboardHandler.java:252-277 | An exit broadcast goes to the others admitted after the step, and the exit adds nobody to pending. |
| Routing.AdminBroadcast | whiteboard-server/src/main/java/com/distributed/project/whiteboard/server/WhiteboardHandler.java:102-123 | An administrative broadcast goes to the others admitted before or after the step, and adds nobody to pending. |
| Routing.DispatchBroadcast | whiteboard-server/src/main/java/com/distributed/project/whiteboard/server/WhiteboardHandler.java:69-86 | Any handled line that broadcasts writes to the others admitted before or after it, and adds nobody to pending. |
| Routing.AllocationPreserves | whiteboard-server/src/main/java/com/distributed/project/whiteboard/server/WhiteboardHandler.java:135-178 | A join from a connection that is in neither map keeps the registry well formed. |
| Routing.AcceptPreserves | whiteboard-server/src/main/java/com/distributed/project/whiteboard/server/WhiteboardHandler.java:187-204 | Accepting keeps the registry well formed. |
| Routing.ExitPreserves | whiteboard-server/src/main/java/com/distributed/project/whiteboard/server/WhiteboardHandler.java:252-277 | Every kind of exit keeps the registry well formed. |
| Routing.AdminPreserves | whiteboard-server/src/main/java/com/distributed/project/whiteboard/server/WhiteboardHandler.java:102-123 | The administrative switch keeps the registry well formed, given a fresh connection for a join. |
| Routing.DispatchPreserves | whiteboard-server/src/main/java/com/distributed/project/whiteboard/server/WhiteboardHandler.java:69-86 | Handling one line keeps the registry well formed, given a fresh connection for a join. |
| Routing.RepeatedJoinBreaksDisjointness | whiteboard-server/src/main/java/com/distributed/project/whiteboard/server/WhiteboardHandler.java:158-177 | The manager connection asking to join again ends up in both maps, so one handled line can break the invariant. |
| Routing.RunStopsEarly | whiteboard-server/src/main/java/com/distributed/project/whiteboard/server/WhiteboardHandler.java:79-82 | Lines after the one that ends the loop are never read: extending the input changes nothing. |
| Routing.RunPreserves | whiteboard-server/src/main/java/com/distributed/project/whiteboard/server/WhiteboardHandler.java:56-92 | Over a whole connection whose only join is its first line, the registry stays well formed. |
| Server.ServerStartup | whiteboard-server/src/main/java/com/distributed/project/whiteboard/server/WhiteboardServer.java:44-62 | A missing or non-numeric port is refused. Otherwise the server opens its ServerSocket on the parsed port, when it is at most 65535. |
| Server.UnicodePortAccepted | whiteboard-server/src/main/java/com/distributed/project/whiteboard/server/WhiteboardServer.java:50-57 | A port written in Arabic-Indic digits passes the check and the server opens its ServerSocket on its value, 8080. |
| Server.ChunkOnce | whiteboard-server/src/main/java/com/distributed/project/whiteboard/server/WhiteboardHandler.java:333-347 | A broadcast delivers exactly one line to each working recipient. |
| Server.NewEvent | whiteboard-server/src/main/java/com/distributed/project/whiteboard/server/WhiteboardHandler.java:198-200 | An event built with the two-argument constructor and then the setters carries the given user, action, selected user and user list, and nothing else. |
| Server.WhiteboardServer.constructor | whiteboard-server/src/main/java/com/distributed/project/whiteboard/server/WhiteboardServer.java:36-42 | The registry starts empty; no client has been counted and nothing has been written. |
| Server.WhiteboardServer.SetManagerClientUID | whiteboard-server/src/main/java/com/distributed/project/whiteboard/server/WhiteboardServer.java:141-143 | The manager UID becomes the given one. |
| Server.WhiteboardServer.GetManagerClientUID | whiteboard-server/src/main/java/com/distributed/project/whiteboard/server/WhiteboardServer.java:131-133 | Returns the manager UID (none when it has never been set). |
| Server.WhiteboardServer.AcceptConnection | whiteboard-server/src/main/java/com/distributed/project/whiteboard/server/WhiteboardServer.java:84-98 | The connection counter steps up, with int wrap-around, and a fresh handler gets the drawn UID and no user. The registry and the writes do not change. |
| Server.WhiteboardHandler.constructor | whiteboard-server/src/main/java/com/distributed/project/whiteboard/server/WhiteboardHandler.java:49-53 | The handler has its server and its UID, and no user yet. |
| Server.WhiteboardHandler.SendMessage | whiteboard-server/src/main/java/com/distributed/project/whiteboard/server/WhiteboardHandler.java:318-325 | One line goes to the given client unless its connection is broken; the registry does not change. |
| Server.WhiteboardHandler.HandleBroadcastMessages | whiteboard-server/src/main/java/com/distributed/project/whiteboard/server/WhiteboardHandler.java:333-347 | One line goes to every admitted client but this one whose connection works, and to no one else. |
| Server.WhiteboardHandler.WriteToOthers | whiteboard-server/src/main/java/com/distributed/project/whiteboard/server/WhiteboardHandler.java:335-346 | The loop over the admitted UIDs writes the payload once to each working UID other than the sender's. |
| Server.WhiteboardHandler.WriteIfOther | whiteboard-server/src/main/java/com/distributed/project/whiteboard/server/WhiteboardHandler.java:336-345 | One turn of that loop writes to the key unless it is the sender or broken, and keeps the loop's progress invariant. |
| Server.WhiteboardHandler.SendMessageToManager | whiteboard-server/src/main/java/com/distributed/project/whiteboard/server/WhiteboardHandler.java:307-310 | Succeeds exactly when a manager UID is set and still admitted, and then writes to the manager alone; otherwise it writes nothing. |
| Server.WhiteboardHandler.HandleUserAllocation | whiteboard-server/src/main/java/com/distributed/project/whiteboard/server/WhiteboardHandler.java:135-178 | The new state and the writes are exactly those Routing.Allocation prescribes. |
| Server.WhiteboardHandler.AssignManager | whiteboard-server/src/main/java/com/distributed/project/whiteboard/server/WhiteboardHandler.java:138-157 | The first-join branch carries out Routing.Allocation. |
| Server.WhiteboardHandler.AskManager | whiteboard-server/src/main/java/com/distributed/project/whiteboard/server/WhiteboardHandler.java:158-177 | The later-join branch carries out Routing.Allocation, including its failure when there is no manager. |
| Server.WhiteboardHandler.HandleUserAccept | whiteboard-server/src/main/java/com/distributed/project/whiteboard/server/WhiteboardHandler.java:187-204 | Carries out Routing.Accept: the new state, the broadcast and the failure cases. |
| Server.WhiteboardHandler.HandleUserReject | whiteboard-server/src/main/java/com/distributed/project/whiteboard/server/WhiteboardHandler.java:213-222 | Carries out Routing.Reject. |
| Server.WhiteboardHandler.HandleUserKick | whiteboard-server/src/main/java/com/distributed/project/whiteboard/server/WhiteboardHandler.java:232-242 | Carries out Routing.Kick. |
| Server.WhiteboardHandler.HandleUserExit | whiteboard-server/src/main/java/com/distributed/project/whiteboard/server/WhiteboardHandler.java:252-277 | Carries out Routing.Exit. |
| Server.WhiteboardHandler.HandleLoadImage | whiteboard-server/src/main/java/com/distributed/project/whiteboard/server/WhiteboardHandler.java:287-300 | Carries out Routing.LoadImage. |
| Server.WhiteboardHandler.HandleAdminLogic | whiteboard-server/src/main/java/com/distributed/project/whiteboard/server/WhiteboardHandler.java:102-123 | Carries out Routing.AdminLogic. |
| Server.WhiteboardHandler.Step | whiteboard-server/src/main/java/com/distributed/project/whiteboard/server/WhiteboardHandler.java:69-86 | One pass of the read loop carries out Routing.Dispatch. |
| Server.WhiteboardHandler.Run | whiteboard-server/src/main/java/com/distributed/project/whiteboard/server/WhiteboardHandler.java:56-92 | The whole loop ends in the state and outcome of Routing.RunFrom, having written, in order, the lines of every send it prescribes. |
| JavaInt.Wrap | whiteboard-client/src/main/java/com/distributed/project/whiteboard/client/gui/DrawArea.java:218-221 | The stored int differs from the exact value by a multiple of 2^32. |
| JavaInt.AbsDiffSymmetric | whiteboard-client/src/main/java/com/distributed/project/whiteboard/client/gui/DrawArea.java:220-221 | Math.abs(a - b) equals Math.abs(b - a) on int, overflow included. |
| Client.ClientStartup | whiteboard-client/src/main/java/com/distributed/project/whiteboard/client/WhiteboardClient.java:70-89 | A missing argument, a blank host or a non-numeric port is refused; a port past int crashes and one past 65535 is rejected. Otherwise the client connects to the given host and the parsed port. |
| Client.UnicodePortAccepted | whiteboard-client/src/main/java/com/distributed/project/whiteboard/client/WhiteboardClient.java:70-89 | A port written in Arabic-Indic digits passes the check and the client connects to its value, 8080. |
| Client.NamedUser | whiteboard-client/src/main/java/com/distributed/project/whiteboard/client/WhiteboardClient.java:133-137 | The login user has only its name: no UID, and it is not the manager. |
| Client.JoinRequest | whiteboard-client/src/main/java/com/distributed/project/whiteboard/client/WhiteboardClient.java:140-147 | The join request carries the user and the NEW_USER_PERMISSION tag, and nothing else. |
| Client.JoinRequestShape | whiteboard-client/src/main/java/com/distributed/project/whiteboard/client/WhiteboardClient.java:129-148 | A login queues a request for a user with no UID and the given name, with no selection, user list or tool. |
| Client.WhiteboardClient.constructor | whiteboard-client/src/main/java/com/distributed/project/whiteboard/client/WhiteboardClient.java:48-58 | The queue starts empty, with no user and not the manager. |
| Client.WhiteboardClient.Enqueue | whiteboard-client/src/main/java/com/distributed/project/whiteboard/client/WhiteboardClient.java:157-159 | The event joins the tail of the queue. |
| Client.WhiteboardClient.Poll | whiteboard-client/src/main/java/com/distributed/project/whiteboard/client/listeners/EventDispatcher.java:61 | Returns the head of the queue and removes it; on an empty queue it returns nothing and changes nothing. |
| Client.WhiteboardClient.SetClientUserName | whiteboard-client/src/main/java/com/distributed/project/whiteboard/client/WhiteboardClient.java:129-148 | The current user becomes a user with only the name; a login also queues exactly one join request for that user. |
| Client.WhiteboardClient.GetIsManager | whiteboard-client/src/main/java/com/distributed/project/whiteboard/client/WhiteboardClient.java:169-171 | Returns the manager flag. |
| Client.WhiteboardClient.SetIsManager | whiteboard-client/src/main/java/com/distributed/project/whiteboard/client/WhiteboardClient.java:181-183 | The manager flag becomes the given value. |
| Client.WhiteboardClient.GetUserInfo | whiteboard-client/src/main/java/com/distributed/project/whiteboard/client/WhiteboardClient.java:190-192 | Returns the current user. |
| Client.WhiteboardClient.SetUserInfo | whiteboard-client/src/main/java/com/distributed/project/whiteboard/client/WhiteboardClient.java:199-201 | The current user becomes the given one. |
| Client.ChatBox.Append | whiteboard-client/src/main/java/com/distributed/project/whiteboard/client/gui/ChatBoxPanel.java:176-188 | The text becomes the last line of the chat box. |
| ClientConstants.FreeHandExactly | whiteboard-client/src/main/java/com/distributed/project/whiteboard/client/utilities/Constants.java:45 | The free-hand tools are exactly the pencil and the eraser. |
| ClientConstants.ActionsMatchServer | whiteboard-client/src/main/java/com/distributed/project/whiteboard/client/utilities/Constants.java:48-61 | Each client tag is the same string as the server's tag of that name, in the same order. |
| ClientConstants.ToolsDistinct | whiteboard-client/src/main/java/com/distributed/project/whiteboard/client/utilities/Constants.java:36-43 | The eight tool commands are pairwise distinct. |
| ClientConstants.MessagesEndWithLF | whiteboard-client/src/main/java/com/distributed/project/whiteboard/client/utilities/Constants.java:67-76 | Every system message ends with a line feed. |
| ClientConstants.FillNotices | whiteboard-client/src/main/java/com/distributed/project/whiteboard/client/utilities/Constants.java:70-72 | Filling in a kick, join or exit template gives the user name followed by that template's fixed text. |
| Users.UidMap | whiteboard-client/src/main/java/com/distributed/project/whiteboard/client/gui/UserPanel.java:142 | The UID map exists exactly when no UID repeats in the list. It then maps each listed UID to its user and holds no other key. |
| Users.ValuesRebuild | whiteboard-client/src/main/java/com/distributed/project/whiteboard/client/gui/UserPanel.java:161-165 | Listing a UID-keyed map's users and mapping them back by UID gives the same map. |
| Users.UserPanel.constructor | whiteboard-client/src/main/java/com/distributed/project/whiteboard/client/gui/UserPanel.java:56-69 | The list and the map start empty, the map is the concurrent one that refuses a null UID, and the remove button is off. |
| Users.UserPanel.EnableUIAfterVerification | whiteboard-client/src/main/java/com/distributed/project/whiteboard/client/gui/UserPanel.java:118-125 | The remove button is switched on for the manager; nothing switches it off. |
| Users.UserPanel.RefreshUserList | whiteboard-client/src/main/java/com/distributed/project/whiteboard/client/gui/UserPanel.java:133-143 | The list becomes the argument, in order. The map becomes the argument's UID map, now a HashMap that takes a null UID; it is left empty when a UID repeats. A null argument fails after the list is cleared, and the map stays the concurrent one. |
| Users.UserPanel.AddUserToList | whiteboard-client/src/main/java/com/distributed/project/whiteboard/client/gui/UserPanel.java:150-153 | The user is appended to the list. It is stored under its UID, except that it fails exactly when the map is still the concurrent one and the UID is null; then the map is unchanged. |
| Users.UserPanel.MapValues | whiteboard-client/src/main/java/com/distributed/project/whiteboard/client/gui/UserPanel.java:164 | Lists the map's users, each once, with no UID repeated. |
| Users.UserPanel.RemoveUserFromList | whiteboard-client/src/main/java/com/distributed/project/whiteboard/client/gui/UserPanel.java:161-165 | The UID leaves the map, and the list afterwards shows exactly the users left in it. It fails with nothing changed exactly when the selection is null, or its UID is null while the map is still the concurrent one. |
| Users.UserPanel.KickSelected | whiteboard-client/src/main/java/com/distributed/project/whiteboard/client/gui/UserPanel.java:173-204 | With a selection other than the current user, one kick is queued, the user leaves the map and list, and the chat box says so (the kick still fails when the name is missing). A null UID that the concurrent map refuses fails before anything is queued. Otherwise nothing changes; it fails when the current user or its UID is missing. |
| Users.KickEvent | whiteboard-client/src/main/java/com/distributed/project/whiteboard/client/gui/UserPanel.java:186-188 | The kick is sent by the current user and names the map's entry for the selected UID. |
| Users.NoSelfKick | whiteboard-client/src/main/java/com/distributed/project/whiteboard/client/gui/UserPanel.java:180-183 | Selecting one's own UID never sends a kick. |
| Users.KickNamesSelected | whiteboard-client/src/main/java/com/distributed/project/whiteboard/client/gui/UserPanel.java:186-188 | When the selection is one of the map's users, the kick names that very user. |
| Board.RectangleBox | whiteboard-client/src/main/java/com/distributed/project/whiteboard/client/gui/DrawArea.java:218-221 | The corner is the smaller coordinate on each axis; the sides are the absolute differences. |
| Board.RectangleSymmetric | whiteboard-client/src/main/java/com/distributed/project/whiteboard/client/gui/DrawArea.java:218-221 | Swapping the two drag points draws the same rectangle, overflow included. |
| Board.RectangleSpans | whiteboard-client/src/main/java/com/distributed/project/whiteboard/client/gui/DrawArea.java:218-221 | Within int range the sides are non-negative and the rectangle reaches exactly the larger coordinate on each axis. |
| Board.CircleBox | whiteboard-client/src/main/java/com/distributed/project/whiteboard/client/gui/DrawArea.java:239-242 | The oval's box starts at the first point; its sides are the absolute differences. |
| Board.CircleNotNormalised | whiteboard-client/src/main/java/com/distributed/project/whiteboard/client/gui/DrawArea.java:239-242 | A drag up and to the left draws the box from the first point, not from the top-left one. |
| Board.CircleSides | whiteboard-client/src/main/java/com/distributed/project/whiteboard/client/gui/DrawArea.java:239-242 | Within int range the oval's sides are non-negative. |
| Board.TriangleApex | whiteboard-client/src/main/java/com/distributed/project/whiteboard/client/gui/DrawArea.java:260-267 | The apex is at the height of the release point. |
| Board.ApexBetween | whiteboard-client/src/main/java/com/distributed/project/whiteboard/client/gui/DrawArea.java:260-267 | Within int range the apex lies between the two drag points, half the distance from the second, rounded toward it. |
| Board.ApexOverflow | whiteboard-client/src/main/java/com/distributed/project/whiteboard/client/gui/DrawArea.java:260-267 | With drag points 2^31 apart, Math.abs wraps and the apex falls outside the span of the two points. |
| Board.TriangleShape | whiteboard-client/src/main/java/com/distributed/project/whiteboard/client/gui/DrawArea.java:257-273 | The polygon's corners are the two drag points and the apex. |
| Board.DrawEvent | whiteboard-client/src/main/java/com/distributed/project/whiteboard/client/gui/DrawArea.java:121-122 | A DRAW event carries the current user, the tool, the given points, the selected colour and the optional text, and nothing else. |
| Board.ReleaseEvent | whiteboard-client/src/main/java/com/distributed/project/whiteboard/client/gui/DrawArea.java:156-188 | A mouse release sends an event exactly for the four shape tools. |
| Board.ReleaseEventStarts | whiteboard-client/src/main/java/com/distributed/project/whiteboard/client/gui/DrawArea.java:156-188 | Every release event starts where the gesture began and carries the tool and selected colour; the pencil, eraser and text tools send nothing on release. |
| Board.Sent | whiteboard-client/src/main/java/com/distributed/project/whiteboard/client/gui/DrawArea.java:352-356 | An event is queued only when it exists and the UI is enabled. |
| Board.DrawArea.constructor | whiteboard-client/src/main/java/com/distributed/project/whiteboard/client/gui/DrawArea.java:43-63 | The canvas starts at the origin with the pencil, black ink and the thin stroke, and it is disabled. |
| Board.DrawArea.SendEvent | whiteboard-client/src/main/java/com/distributed/project/whiteboard/client/gui/DrawArea.java:352-356 | The event is queued exactly when the UI is enabled. |
| Board.DrawArea.EnableUIAfterVerification | whiteboard-client/src/main/java/com/distributed/project/whiteboard/client/gui/DrawArea.java:361-364 | The canvas starts sending its events. |
| Board.DrawArea.SetSelectedTool | whiteboard-client/src/main/java/com/distributed/project/whiteboard/client/gui/DrawArea.java:370-372 | The tool becomes the given one. |
| Board.DrawArea.SetPen | whiteboard-client/src/main/java/com/distributed/project/whiteboard/client/gui/DrawArea.java:385 | Graphics2D.setColor takes a given colour and ignores null. |
| Board.DrawArea.SetSelectedColor | whiteboard-client/src/main/java/com/distributed/project/whiteboard/client/gui/DrawArea.java:378-381 | The selected colour becomes the given one, and so does the pen's colour when it is not null. |
| Board.DrawArea.SetSecondaryColor | whiteboard-client/src/main/java/com/distributed/project/whiteboard/client/gui/DrawArea.java:383-387 | A remote event's colour, when it has one, replaces the pen's colour. |
| Board.DrawArea.RestorePen | whiteboard-client/src/main/java/com/distributed/project/whiteboard/client/gui/DrawArea.java:204 | After a drawing call the pen is back to the selected colour. |
| Board.DrawArea.CreateLine | whiteboard-client/src/main/java/com/distributed/project/whiteboard/client/gui/DrawArea.java:198-205 | The segment between the two points is drawn in the event's colour, or the pen's; the pen then returns to the selected colour. A missing point draws nothing. |
| Board.DrawArea.CreateRectangle | whiteboard-client/src/main/java/com/distributed/project/whiteboard/client/gui/DrawArea.java:215-227 | Draws the rectangle of RectangleBox in the event's colour, or the pen's; a missing point draws nothing. |
| Board.DrawArea.CreateCircle | whiteboard-client/src/main/java/com/distributed/project/whiteboard/client/gui/DrawArea.java:236-246 | Draws the oval of CircleBox in the event's colour, or the pen's; a missing point draws nothing. |
| Board.DrawArea.CreateTriangle | whiteboard-client/src/main/java/com/distributed/project/whiteboard/client/gui/DrawArea.java:257-273 | Draws the polygon of TriangleShape in the event's colour, or the pen's; a missing point draws nothing. |
| Board.DrawArea.CreateText | whiteboard-client/src/main/java/com/distributed/project/whiteboard/client/gui/DrawArea.java:283-290 | The text is drawn at the point; a missing text or point draws nothing. |
| Board.DrawArea.EraserAction | whiteboard-client/src/main/java/com/distributed/project/whiteboard/client/gui/DrawArea.java:315-324 | Draws a wide white segment, then returns to the selected colour and the thin stroke. |
| Board.DrawArea.Clear | whiteboard-client/src/main/java/com/distributed/project/whiteboard/client/gui/DrawArea.java:329-334 | Painting the board white leaves the pen white; it returns to the selected colour only when one is selected. |
| Board.DrawArea.MouseDragged | whiteboard-client/src/main/java/com/distributed/project/whiteboard/client/gui/DrawArea.java:108-127 | With a free-hand tool, draws and sends the segment from the old point to the drag point, which becomes the old point, so consecutive segments join. Other tools draw and send nothing. |
| Board.DrawArea.MousePressed | whiteboard-client/src/main/java/com/distributed/project/whiteboard/client/gui/DrawArea.java:133-150 | The press point becomes the old point. The eraser switches to wide white, and the text tool draws and sends a non-empty answer. A null tool fails. |
| Board.DrawArea.InsertText | whiteboard-client/src/main/java/com/distributed/project/whiteboard/client/gui/DrawArea.java:297-306 | A non-empty answer is drawn at the old point and sent; an empty or cancelled answer does nothing. |
| Board.DrawArea.MouseReleased | whiteboard-client/src/main/java/com/distributed/project/whiteboard/client/gui/DrawArea.java:156-188 | Each shape tool finishes its shape from the old point and queues ReleaseEvent, after which the pen is back at the selected colour (kept when none is selected); the eraser restores the pen and stroke. A null tool fails with nothing changed. |
| Files.PngPath | whiteboard-client/src/main/java/com/distributed/project/whiteboard/client/gui/FileFunctionPanel.java:279-284 | The saved path ends in ".png", ignoring case, and extends the chosen path by at most four characters. |
| Files.PngPathKeeps | whiteboard-client/src/main/java/com/distributed/project/whiteboard/client/gui/FileFunctionPanel.java:279-284 | The path is kept as it is exactly when it already ends in ".png", ignoring case. |
| Files.PngPathIdempotent | whiteboard-client/src/main/java/com/distributed/project/whiteboard/client/gui/FileFunctionPanel.java:279-284 | Applying the rule twice gives the same path as applying it once. |
| Files.ClearEvent | whiteboard-client/src/main/java/com/distributed/project/whiteboard/client/gui/FileFunctionPanel.java:312 | CLEAR is sent by the current user to everybody. |
| Files.LoadImageEvent | whiteboard-client/src/main/java/com/distributed/project/whiteboard/client/gui/FileFunctionPanel.java:200-202 | LOAD_IMAGE carries the encoded image and no selected user, so it goes to everybody. |
| Files.FileFunctionPanel.constructor | whiteboard-client/src/main/java/com/distributed/project/whiteboard/client/gui/FileFunctionPanel.java:71-76 | No file is current, the buttons are off, and the hidden label reads MANAGER. |
| Files.FileFunctionPanel.EnableUIAfterVerification | whiteboard-client/src/main/java/com/distributed/project/whiteboard/client/gui/FileFunctionPanel.java:329-349 | The manager gets the buttons, everyone else the GUEST label, and the label is shown either way. |
| Files.FileFunctionPanel.NewFile | whiteboard-client/src/main/java/com/distributed/project/whiteboard/client/gui/FileFunctionPanel.java:307-322 | Queues one CLEAR, notes it in the chat box, clears the board (the pen white unless a colour is selected) and forgets the current file. |
| Files.FileFunctionPanel.LoadFile | whiteboard-client/src/main/java/com/distributed/project/whiteboard/client/gui/FileFunctionPanel.java:171-223 | A cancel changes nothing. A successful read keeps the path, clears the board, queues one LOAD_IMAGE and notes it; a failed read empties the path, queues nothing, leaves the pen and reports the error. |
| Files.FileFunctionPanel.SaveFileAsImage | whiteboard-client/src/main/java/com/distributed/project/whiteboard/client/gui/FileFunctionPanel.java:259-300 | A cancel changes nothing. Otherwise the path made to end in ".png" becomes current, or is emptied when the write fails, and the chat box reports which. |
| Files.FileFunctionPanel.SaveToCurrentFile | whiteboard-client/src/main/java/com/distributed/project/whiteboard/client/gui/FileFunctionPanel.java:231-252 | Without a current file this is save-as; with one, the path is kept and the chat box reports whether the write worked. |
| Files.FileFunctionPanel.ActionPerformed | whiteboard-client/src/main/java/com/distributed/project/whiteboard/client/gui/FileFunctionPanel.java:144-163 | Disabled buttons and unknown commands change nothing. NEW, OPEN, SAVE and SAVE AS each have exactly the effect of their own method: NEW and OPEN queue as those do, and the two saves queue nothing and keep the pen. |
| ImageFilter.AcceptIsRegex | whiteboard-client/src/main/java/com/distributed/project/whiteboard/client/gui/ImageSelectionFilter.java:28 | A file is accepted exactly when its whole name matches the regular expression .*(.png). |
| ImageFilter.DirectoriesAccepted | whiteboard-client/src/main/java/com/distributed/project/whiteboard/client/gui/ImageSelectionFilter.java:23-25 | Directories are always shown. |
| ImageFilter.AcceptExamples | whiteboard-client/src/main/java/com/distributed/project/whiteboard/client/gui/ImageSelectionFilter.java:21-29 | "a.png" and "xpng" are accepted. "png" is too short, "A.PNG" fails because matching is case-sensitive, and a line terminator before "png" is refused. |
| ImageFilter.Description | whiteboard-client/src/main/java/com/distributed/project/whiteboard/client/gui/ImageSelectionFilter.java:31-34 | The description is not empty. |
| Ui.LoginName | whiteboard-client/src/main/java/com/distributed/project/whiteboard/client/WhiteBoardUI.java:115-129 | A login answer is accepted exactly when it is not null and not empty, and it is then trimmed. |
| Ui.BlankLoginAccepted | whiteboard-client/src/main/java/com/distributed/project/whiteboard/client/WhiteBoardUI.java:121-123 | An answer of spaces only is accepted and becomes the empty name. |
| Ui.PermissionEvents | whiteboard-client/src/main/java/com/distributed/project/whiteboard/client/WhiteBoardUI.java:146-181 | Accepting queues NEW_USER_ACCEPT and then LOAD_IMAGE with the board; rejecting queues one NEW_USER_REJECT. Each event comes from the manager and names the requester. |
| Ui.AcceptImageDirected | whiteboard-client/src/main/java/com/distributed/project/whiteboard/client/WhiteBoardUI.java:155-162 | The board image sent on acceptance names the requester, so the server delivers it to the requester alone. |
| Ui.WhiteBoardUI.constructor | whiteboard-client/src/main/java/com/distributed/project/whiteboard/client/WhiteBoardUI.java:63-66 | The panels share one client and one chat box. A non-empty login sets the user and queues one join request; anything else ends the process with status 0. |
| Ui.WhiteBoardUI.UserLogin | whiteboard-client/src/main/java/com/distributed/project/whiteboard/client/WhiteBoardUI.java:115-129 | A non-empty answer sets the trimmed name and queues one join request; otherwise the process ends with status 0 and nothing else changes. |
| Ui.WhiteBoardUI.ShowErrorMessage | whiteboard-client/src/main/java/com/distributed/project/whiteboard/client/WhiteBoardUI.java:202-210 | A critical error ends the process with status 1; any other error changes nothing. |
| Ui.WhiteBoardUI.UserPermission | whiteboard-client/src/main/java/com/distributed/project/whiteboard/client/WhiteBoardUI.java:138-182 | Queues exactly PermissionEvents. On accept the requester joins the list and, unless the concurrent map refuses its null UID, the map, and the chat box announces them. A missing requester fails with nothing changed; a refused UID or a missing name fails after the queueing. |
| Ui.WhiteBoardUI.EnableUserUI | whiteboard-client/src/main/java/com/distributed/project/whiteboard/client/WhiteBoardUI.java:216-224 | Every panel switches itself on by its own role rule; the header panel's last step, which reads the current user's name, fails exactly when the client has no user. |
| Ui.WhiteBoardUI.LoadImageFromServer | whiteboard-client/src/main/java/com/distributed/project/whiteboard/client/WhiteBoardUI.java:270-291 | Fails exactly when the current user is missing. An image read back replaces the board, which first clears it and so leaves the pen white unless a colour is selected; anything else leaves the board and the pen alone. |
| Listener.RouteOf | whiteboard-client/src/main/java/com/distributed/project/whiteboard/client/listeners/EventListener.java:84-120 | Blank lines are skipped. The fast path takes exactly the DRAW events, in any letter case, whose tool is the pencil. Anything passed on carries its own action. |
| Listener.FastPathExactly | whiteboard-client/src/main/java/com/distributed/project/whiteboard/client/listeners/EventListener.java:97-115 | The eraser path takes exactly the DRAW events with the eraser tool, ignoring case, and everything else reaches eventSeggregrator. |
| Listener.HandlersCover | whiteboard-client/src/main/java/com/distributed/project/whiteboard/client/listeners/EventListener.java:128-177 | The client acts on exactly eleven tags, matched exactly. SYSTEM_CHAT, NEW_USER_ACCEPT, EXIT and other letter cases are ignored. |
| Listener.ShapeOf | whiteboard-client/src/main/java/com/distributed/project/whiteboard/client/listeners/EventListener.java:186-220 | drawAction draws only for the five exact shape tool names. |
| Listener.DrawActionTools | whiteboard-client/src/main/java/com/distributed/project/whiteboard/client/listeners/EventListener.java:97-115 | A DRAW that reaches drawAction has a tool, and it is neither the pencil nor the eraser in any case. |
| Listener.ExitEvent | whiteboard-client/src/main/java/com/distributed/project/whiteboard/client/listeners/EventListener.java:319-330 | The EXIT a client queues carries the given user, with no selection and no user list. |
| Listener.EventListener.constructor | whiteboard-client/src/main/java/com/distributed/project/whiteboard/client/listeners/EventListener.java:57-67 | The listener works on the given client and frame. |
| Listener.EventListener.HandleFreeHand | whiteboard-client/src/main/java/com/distributed/project/whiteboard/client/listeners/EventListener.java:97-104 | A missing sender stops the listener with nothing drawn. With both points the segment is drawn in the event's colour, or the pen's, and the pen returns to the selected colour; a missing point stops it with the pen left in the event's colour. Only the pen changes. |
| Listener.EventListener.HandleErase | whiteboard-client/src/main/java/com/distributed/project/whiteboard/client/listeners/EventListener.java:105-111 | A missing sender stops the listener. With both points a wide white segment is drawn, then the thin stroke and the selected colour, or white, come back; a missing point stops it with the pen white and the stroke wide. Only pen and stroke change. |
| Listener.EventListener.DrawAction | whiteboard-client/src/main/java/com/distributed/project/whiteboard/client/listeners/EventListener.java:186-220 | A missing sender stops the listener. The exact tool name selects the line, rectangle, oval, triangle or text, drawn in the event's colour or the pen's, and the pen is restored after a shape is drawn; a missing point, drag point or text stops it. An unknown tool draws nothing. Only the pen changes. |
| Listener.EventListener.HandleChat | whiteboard-client/src/main/java/com/distributed/project/whiteboard/client/gui/ChatBoxPanel.java:153-167 | A sender or UID that is missing stops the listener, because the text is decrypted with the sender's UID. Otherwise a decrypted text that is not blank is shown under the sender's name ("null" when missing); only the chat box changes. |
| Listener.EventListener.HandleManagerAssign | whiteboard-client/src/main/java/com/distributed/project/whiteboard/client/listeners/EventListener.java:229-243 | The client becomes the manager with the assigned user and its panels open, and the roster takes the event's list exactly as refreshUserList does; an event without a user stops the listener in enableUserUI with the roster untouched, and a list that cannot be mapped stops it too. |
| Listener.EventListener.HandlePermission | whiteboard-client/src/main/java/com/distributed/project/whiteboard/client/listeners/EventListener.java:141-144 | Runs userPermission with the manager's answer; its failure ends only that task. Only the queue, the roster and the chat box change. |
| Listener.EventListener.HandleUserAdded | whiteboard-client/src/main/java/com/distributed/project/whiteboard/client/listeners/EventListener.java:269-292 | Missing data fails before any change. The roster takes the event's list. If the new user has this client's name, ignoring case, the client takes that user and opens its panels; otherwise the panels and identity stay. The chat box announces the user unless the list cannot be mapped. |
| Listener.EventListener.HandleRefreshUserList | whiteboard-client/src/main/java/com/distributed/project/whiteboard/client/listeners/EventListener.java:301-311 | The roster takes the event's list, and the chat box names the user who left; missing data stops the listener. |
| Listener.EventListener.HandleUserRejected | whiteboard-client/src/main/java/com/distributed/project/whiteboard/client/listeners/EventListener.java:319-330 | Queues one EXIT for the rejected user, then ends the process with status 1. |
| Listener.EventListener.HandleKickUserEvent | whiteboard-client/src/main/java/com/distributed/project/whiteboard/client/listeners/EventListener.java:341-364 | Missing data stops the listener with nothing changed. A kick of this client, by name ignoring case, queues one EXIT and ends the process. A kick of anyone else removes them from the roster and says so, or stops the listener when the concurrent map refuses their null UID. |
| Listener.EventListener.HandleLoadImageEvent | whiteboard-client/src/main/java/com/distributed/project/whiteboard/client/listeners/EventListener.java:375-389 | A missing sender stops the listener with nothing changed. The image is loaded as loadImageFromServer does, which states the board and the pen; a missing current user stops the listener. Only an image meant for everybody is announced in the chat box. |
| Listener.EventListener.HandleClear | whiteboard-client/src/main/java/com/distributed/project/whiteboard/client/listeners/EventListener.java:162-169 | A missing sender stops the listener with nothing changed. Otherwise the chat box says the board was cleared, and the pen is white unless a colour is selected. |
| Listener.EventListener.HandleForceQuit | whiteboard-client/src/main/java/com/distributed/project/whiteboard/client/listeners/EventListener.java:396-407 | Queues one EXIT for this client's own user, then ends the process with status 1. |
| Listener.EventListener.ListenEvent | whiteboard-client/src/main/java/com/distributed/project/whiteboard/client/listeners/EventListener.java:84-120 | Blank lines are skipped and unreadable lines stop the listener, both with nothing changed. A pencil or eraser stroke has exactly the free-hand or eraser effect, and any other event exactly the effect of the handler eventSeggregrator selects, never touching the stroke width. |
| Listener.EventListener.EventSeggregrator | whiteboard-client/src/main/java/com/distributed/project/whiteboard/client/listeners/EventListener.java:128-177 | Each of the eleven exact tags has exactly its handler's effect and reaction, the DRAW reaction included; only DRAW draws. An unknown tag changes nothing. |

## Behaviour the model follows as the code has it

- A line that does not decode, or has no action, makes `run` throw, which ends the handler thread (`Routing.MalformedFails`); it is not dropped.
- The manager UID is set on every join that finds the admitted map empty. After every admitted user has left, the next joiner becomes manager again (`Routing.JoinFirst`).
- The end of a connection's stream leaves that client's entries in both maps; only an EXIT removes them.
- The server does not check that accept, reject, kick or load-image come from the manager.
- A connection that asks to join twice ends up in both maps (`Routing.RepeatedJoinBreaksDisjointness`). The invariant therefore holds only for connections whose only join is their first line (`Routing.RunPreserves`).
- A login answer of spaces only passes the emptiness check and becomes the empty name (`Ui.BlankLoginAccepted`).
- The client's switch has no case for SYSTEM_CHAT, NEW_USER_ACCEPT or EXIT, so those events are ignored (`Listener.HandlersCover`).
- The oval is drawn from the first drag point, not normalised like the rectangle (`Board.CircleNotNormalised`).

## Left out

- Sockets, readers and writers: a received line and its decoded value are inputs, and each write is a `Delivery` in the server's `outbox`. The JSON encoding (`TypeConversionUtils`) is not modelled; `decoded` stands for its result.
- Threads and executors: each server handler runs one connection's lines in sequence, and interleavings of handlers on the shared maps are not modelled. The client's executor hand-offs in `eventSeggregrator` (lines 143 and 148 of `EventListener.java`) run inline; a failure inside one is `TaskFailed`.
- `EventListener.run`: its endless loop of `listenEvents` calls has no termination measure; `ListenEvent` models one pass.
- `EventDispatcher`: its busy loop is not modelled; only its `poll` of the queue is (`Client.WhiteboardClient.Poll`).
- AES encryption (`AESUtils`): what `decryptString` gives for a received chat text is the `decrypted` field of `Listener.Answers` (the empty string when decryption fails). The chat box's scroll bar and text colours are not modelled.
- Images, Base64 and temporary files: the board image is an opaque string, and whether it was read back is the `readBack` parameter. `convertDrawAreaToStringBytes` and `convertDrawAreaToFile` are not modelled; their result or success is a parameter.
- Swing: the panels' widgets, repainting and the pixels of the canvas are not modelled. Drawing calls report the shape and the colour they would use, and the canvas's `Graphics2D` is assumed to exist.
- Dialogs (`JOptionPane`, `JFileChooser`): their answers are parameters. `showSuccessMessage` keeps no state and is not modelled.
- `ToolPanel.setEditor`, `HeaderPanel` and `CoordinateBar` are not part of this model; the only effect modelled for `setEditor` is the failure when its argument, the sender's name, is read from a missing sender, and the only effect modelled for `HeaderPanel.enableUIAfterVerification` is the failure when the client has no user (`Ui.WhiteBoardUI.EnableUserUI`).
- The client's own `ActionMessageDto` is not part of this model; it has the server's fields, so `Dto.Message` stands for both.
- Logging is not modelled.
- Random UIDs: the UID a handler gets is a parameter of `Server.WhiteboardServer.AcceptConnection` in [100000, 999999). Two handlers drawing the same UID is not excluded, but the well-formedness lemmas assume a join from a connection in neither map.
- `Routing.Roster`: `new ArrayList<>(map.values())` follows the hash map's iteration order, which is unspecified; the model lists users in ascending UID order. Every stated property (each user once, nothing else) holds in any order.
- `Server.WhiteboardHandler.HandleBroadcastMessages`: the order in which recipients are written is left open (any order of the keys); only which lines are written, and to whom, is stated.
- `Text.EqualsIgnoreCase` and `Text.ToLower`: case folding covers ASCII letters only, not Java's full Unicode case mapping.
- `Files.FileFunctionPanel.SaveFileAsImage`: `File.getAbsolutePath` is taken as given by the dialog; path normalisation is not modelled.
- `Board.ApexBetween`, `Board.RectangleSpans` and `Board.CircleSides` hold only when the two coordinates are less than 2^31 apart. `Board.ApexOverflow` shows what happens beyond that.
- `Text.IsDigit`: the decimal digits are the basic-plane runs of Unicode category Nd as of Unicode 7 and later, one UTF-16 unit at a time. Digits outside the basic plane, which Java sees as surrogate pairs, are not digits here either.
- `Listener.EventListener.ListenEvent` and `Listener.EventListener.EventSeggregrator`: the executor hand-offs run inline, so the effect of a join request or a user-added event is stated as if that task ran at once.
