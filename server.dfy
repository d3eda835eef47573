/**
 * `WhiteboardServer` and `WhiteboardHandler` as classes. The server object owns the two
 * registry maps and the manager UID; every handler holds a reference to it, its own
 * `clientUID` and the `userInfo` it assigns on joining. Writes on the sockets are
 * recorded, in order, in the server's `outbox`; a connection in `broken` is one whose
 * writes throw, which the code catches and logs.
 */
module Server {
  import opened Wrappers
  import opened Text
  import opened JavaInt
  import opened ServerConstants
  import opened Dto
  import opened Routing

  /** One line written on the connection of client `to`. */
  datatype Delivery = Delivery(to: int, payload: Payload)

  /** The recipients of a run of deliveries. */
  function Tos(c: seq<Delivery>): set<int>
    decreases |c|
  {
    if c == [] then {} else Tos(c[..|c| - 1]) + {c[|c| - 1].to}
  }

  lemma TosAppend(c: seq<Delivery>, d: Delivery)
    ensures Tos(c + [d]) == Tos(c) + {d.to}
  {
    assert (c + [d])[..|c|] == c;
  }

  lemma {:induction false} TosMember(c: seq<Delivery>, i: int)
    requires 0 <= i < |c|
    ensures c[i].to in Tos(c)
    decreases |c|
  {
    if i < |c| - 1 {
      TosMember(c[..|c| - 1], i);
    }
  }

  /** There are never more recipients than deliveries, and as many only when no
      recipient is written to twice. */
  lemma {:induction false} TosCount(c: seq<Delivery>)
    ensures |Tos(c)| <= |c|
    ensures |Tos(c)| == |c| ==> forall i, j | 0 <= i < j < |c| :: c[i].to != c[j].to
    decreases |c|
  {
    if c != [] {
      var c' := c[..|c| - 1];
      var d := c[|c| - 1];
      assert c == c' + [d];
      TosCount(c');
      if d.to !in Tos(c') {
        forall i | 0 <= i < |c'| ensures c'[i].to != d.to {
          TosMember(c', i);
        }
      }
    }
  }

  // Sequence facts, stated once over any element type.

  lemma AppendAssoc<T>(a: seq<T>, b: seq<T>, c: seq<T>)
    ensures a + (b + c) == (a + b) + c
  {
  }

  lemma EmptyAppend<T>(b: seq<T>)
    ensures [] + b == b
  {
  }

  lemma Whole<T>(c: seq<T>)
    ensures c[..|c|] == c && c[|c|..] == [] && c[0..] == c
  {
  }

  lemma AppendEmpty<T>(a: seq<T>)
    ensures a + [] == a
  {
  }

  lemma DropFront<T>(s: seq<T>, i: nat)
    requires i < |s|
    ensures s[i..][0] == s[i] && s[i..][1..] == s[i + 1..]
  {
  }

  /** `after` extends `mid`, which extends `before`. */
  lemma Extends<T>(before: seq<T>, mid: seq<T>, after: seq<T>)
    requires |before| <= |mid| <= |after|
    requires mid[..|before|] == before && after[..|mid|] == mid
    ensures after[..|before|] == before
    ensures after[|before|..] == mid[|before|..] + after[|mid|..]
  {
  }

  lemma SameLength<T>(a: seq<T>, b: seq<T>)
    requires |a| == |b| && b[..|a|] == a
    ensures b == a
  {
  }

  lemma AppendSlices<T>(a: seq<T>, b: seq<T>)
    ensures (a + b)[..|a|] == a && (a + b)[|a|..] == b
  {
  }

  lemma AppendAfter<T>(t: seq<T>, c: seq<T>, w: nat)
    requires w <= |t|
    ensures (t + c)[..w] == t[..w] && (t + c)[w..] == t[w..] + c
  {
  }

  lemma SnocFront<T>(s: seq<T>, x: T)
    requires s != []
    ensures (s + [x])[0] == s[0] && (s + [x])[1..] == s[1..] + [x]
  {
  }

  /** Whom a send reaches: its recipients whose connection works. */
  function Written(s: Send, broken: set<int>): set<int> {
    match s
    case Direct(to, _) => {to} - broken
    case Broadcast(recipients, _) => recipients - broken
  }

  /** `c` carries payload `p` once to each of `to`, to no one else. */
  predicate Covers(c: seq<Delivery>, to: set<int>, p: Payload) {
    && Tos(c) == to
    && |c| == |to|
    && forall i | 0 <= i < |c| :: c[i].payload == p
  }

  lemma CoversAppend(c: seq<Delivery>, to: set<int>, p: Payload, k: int)
    requires Covers(c, to, p) && k !in to
    ensures Covers(c + [Delivery(k, p)], to + {k}, p)
  {
    TosAppend(c, Delivery(k, p));
  }

  /** A run of deliveries that carries out `s`: the send's payload, once to each working
      recipient, to no one else. */
  predicate Chunk(c: seq<Delivery>, s: Send, broken: set<int>) {
    Covers(c, Written(s, broken), s.payload)
  }

  /** Each working recipient of a send gets exactly one line. */
  lemma ChunkOnce(c: seq<Delivery>, s: Send, broken: set<int>)
    requires Chunk(c, s, broken)
    ensures forall i, j | 0 <= i < j < |c| :: c[i].to != c[j].to
    ensures forall k | k in Written(s, broken) :: exists i | 0 <= i < |c| :: c[i].to == k
  {
    TosCount(c);
    forall k | k in Written(s, broken) ensures exists i | 0 <= i < |c| :: c[i].to == k {
      TosCover(c, k);
    }
  }

  lemma {:induction false} TosCover(c: seq<Delivery>, k: int)
    requires k in Tos(c)
    ensures exists i | 0 <= i < |c| :: c[i].to == k
    decreases |c|
  {
    if c[|c| - 1].to != k {
      TosCover(c[..|c| - 1], k);
      var i :| 0 <= i < |c| - 1 && c[..|c| - 1][i].to == k;
      assert c[i].to == k;
    }
  }

  /** `after` is `before` followed by the deliveries of `send` (nothing when absent). */
  predicate Emitted(before: seq<Delivery>, after: seq<Delivery>, send: Option<Send>, broken: set<int>) {
    && |before| <= |after|
    && after[..|before|] == before
    && (send.None? ==> |after| == |before|)
    && (send.Some? ==> Chunk(after[|before|..], send.value, broken))
  }

  /** `tail` is the deliveries of `sends`, one send after another. */
  predicate Realises(tail: seq<Delivery>, sends: seq<Send>, broken: set<int>)
    decreases |sends|
  {
    if sends == [] then tail == []
    else
      var w := |Written(sends[0], broken)|;
      && w <= |tail|
      && Chunk(tail[..w], sends[0], broken)
      && Realises(tail[w..], sends[1..], broken)
  }

  lemma {:induction false} RealisesAppend(tail: seq<Delivery>, sends: seq<Send>, c: seq<Delivery>, s: Send, broken: set<int>)
    requires Realises(tail, sends, broken) && Chunk(c, s, broken)
    ensures Realises(tail + c, sends + [s], broken)
    decreases |sends|
  {
    if sends == [] {
      EmptyAppend(c);
      EmptyAppend([s]);
      Whole(c);
      Whole([s][1..]);
    } else {
      var w := |Written(sends[0], broken)|;
      SnocFront(sends, s);
      AppendAfter(tail, c, w);
      RealisesAppend(tail[w..], sends[1..], c, s, broken);
    }
  }

  /** `after` is `before` followed by the deliveries of `sends`, in order. */
  predicate Logged(before: seq<Delivery>, after: seq<Delivery>, sends: seq<Send>, broken: set<int>) {
    && |before| <= |after|
    && after[..|before|] == before
    && Realises(after[|before|..], sends, broken)
  }

  /** One more handled line extends the log by what it sent. */
  lemma LoggedStep(before: seq<Delivery>, mid: seq<Delivery>, after: seq<Delivery>, sends: seq<Send>,
                   send: Option<Send>, broken: set<int>)
    requires Logged(before, mid, sends, broken) && Emitted(mid, after, send, broken)
    ensures Logged(before, after, sends + SendList(send), broken)
  {
    Extends(before, mid, after);
    if send.Some? {
      RealisesAppend(mid[|before|..], sends, after[|mid|..], send.value, broken);
    } else {
      SameLength(mid, after);
      AppendEmpty(sends);
    }
  }

  /** The process exit or the state `main` ends in. */
  datatype Startup = Refused | Crashed | Stopped | Listening(port: int)

  /** `WhiteboardServer.main`: refuse a missing or non-numeric port; `Integer.parseInt`
      throws past `int`, which the outer handler reports; `new ServerSocket` throws past
      65535, which `serverConfigurations` logs and leaves. */
  function ServerStartup(args: Option<seq<string>>): (s: Startup)
    ensures s.Refused? <==> args.None? || |args.value| == 0 || !IsNumeric(args.value[0])
    ensures s.Listening? ==> 0 <= s.port <= 65535 && ParseInt(args.value[0]) == Some(s.port)
    ensures !s.Refused? && DigitsValue(args.value[0]) <= 65535 ==> s == Listening(DigitsValue(args.value[0]))
  {
    if args.None? || |args.value| == 0 || !IsNumeric(args.value[0]) then Refused
    else
      var port := DigitsValue(args.value[0]);
      if port > 0x7FFF_FFFF then Crashed
      else if port > 65535 then Stopped
      else
        NumericParses(args.value[0]);
        Listening(port)
  }

  /** A port written in Arabic-Indic digits passes the check and is parsed like ASCII
      digits. */
  lemma UnicodePortAccepted()
    ensures ServerStartup(Some(["\U{0668}\U{0660}\U{0668}\U{0660}"])) == Listening(8080)
  {
    ArabicIndicDigits();
  }

  /** The broadcast loop after visiting `done` of `keys`: `sent` holds one delivery to
      each visited working UID other than the sender's. */
  predicate BroadcastProgress(keys: set<int>, todo: set<int>, done: set<int>, sent: seq<Delivery>,
                              self: int, broken: set<int>, p: Payload) {
    && todo + done == keys && todo !! done
    && Covers(sent, done - {self} - broken, p)
  }

  /** Visiting `k` without writing: it is the sender's own UID or a broken connection. */
  lemma BroadcastSkip(keys: set<int>, todo: set<int>, done: set<int>, sent: seq<Delivery>,
                      self: int, broken: set<int>, p: Payload, k: int)
    requires BroadcastProgress(keys, todo, done, sent, self, broken, p) && k in todo
    requires k == self || k in broken
    ensures BroadcastProgress(keys, todo - {k}, done + {k}, sent, self, broken, p)
  {
    assert (todo - {k}) + (done + {k}) == todo + done;
    assert (done + {k}) - {self} - broken == done - {self} - broken;
  }

  /** Visiting `k` and writing to it. */
  lemma BroadcastWrite(keys: set<int>, todo: set<int>, done: set<int>, sent: seq<Delivery>,
                       self: int, broken: set<int>, p: Payload, k: int)
    requires BroadcastProgress(keys, todo, done, sent, self, broken, p) && k in todo
    requires k != self && k !in broken
    ensures BroadcastProgress(keys, todo - {k}, done + {k}, sent + [Delivery(k, p)], self, broken, p)
  {
    assert (todo - {k}) + (done + {k}) == todo + done;
    CoversAppend(sent, done - {self} - broken, p, k);
    assert (done + {k}) - {self} - broken == (done - {self} - broken) + {k};
  }

  /** The loop has visited every key. */
  lemma BroadcastDone(keys: set<int>, todo: set<int>, done: set<int>, sent: seq<Delivery>,
                      self: int, broken: set<int>, p: Payload)
    requires BroadcastProgress(keys, todo, done, sent, self, broken, p) && todo == {}
    ensures Covers(sent, keys - {self} - broken, p)
  {
    assert done == keys;
  }

  /** An event as the handlers build it: `new ActionMessageDto(user, action)`, then the
      setters for the selected user and the user list where they are given. */
  method NewEvent(user: Option<User>, action: string, selected: Option<User>, roster: Option<seq<User>>)
    returns (m: Message)
    ensures m.user == user && m.action == Some(action)
    ensures m.selectedUser == selected && m.activeUserList == roster
    ensures m == Message2(user, Some(action)).(selectedUser := selected, activeUserList := roster)
  {
    var event := new ActionMessageDto.Of(user, Some(action));
    if selected.Some? {
      event.SetSelectedUser(selected);
    }
    if roster.Some? {
      event.SetActiveUserList(roster);
    }
    m := event.Snapshot();
  }

  class WhiteboardServer {
    var clientInfoMap: map<int, User>
    var unverifiedClients: map<int, User>
    var managerClientUID: Option<int>
    /** The `noOfClients` counter of the accept loop, a Java `int`. */
    var noOfClients: Int32
    var outbox: seq<Delivery>
    const broken: set<int>

    function State(): Registry
      reads this`clientInfoMap, this`unverifiedClients, this`managerClientUID
    {
      Registry(clientInfoMap, unverifiedClients, managerClientUID)
    }

    constructor (broken: set<int>)
      ensures State() == InitialRegistry()
      ensures noOfClients == 0 && outbox == [] && this.broken == broken
    {
      clientInfoMap, unverifiedClients, managerClientUID := map[], map[], None;
      noOfClients, outbox := 0, [];
      this.broken := broken;
    }

    method SetManagerClientUID(uid: int)
      modifies this`managerClientUID
      ensures managerClientUID == Some(uid)
    {
      managerClientUID := Some(uid);
    }

    /** `getManagerClientUID`; `None` where the code dereferences a null `AtomicLong`. */
    method GetManagerClientUID() returns (uid: Option<int>)
      ensures uid == managerClientUID
    {
      uid := managerClientUID;
    }

    /** One turn of the accept loop: count the connection and start its handler with a
        UID drawn from [100000, 999999). */
    method AcceptConnection(uid: int) returns (h: WhiteboardHandler)
      requires 100000 <= uid < 999999
      modifies this
      ensures fresh(h) && h.server == this && h.clientUID == uid && h.userInfo.None?
      ensures noOfClients == Wrap(old(noOfClients) as int + 1)
      ensures State() == old(State()) && outbox == old(outbox)
    {
      noOfClients := Wrap(noOfClients as int + 1);
      h := new WhiteboardHandler(this, uid);
    }
  }

  class WhiteboardHandler {
    const server: WhiteboardServer
    const clientUID: int
    var userInfo: Option<User>

    constructor (server: WhiteboardServer, clientUID: int)
      ensures this.server == server && this.clientUID == clientUID && userInfo.None?
    {
      this.server := server;
      this.clientUID := clientUID;
      userInfo := None;
    }

    /** The handler is where `e` says, and wrote what `e` says after `before`. */
    predicate Took(before: seq<Delivery>, e: Effect, outcome: Outcome)
      reads this, server
    {
      && server.State() == e.registry
      && userInfo == e.userInfo
      && outcome == e.outcome
      && Emitted(before, server.outbox, e.send, server.broken)
    }

    /** `sendMessage`: one line to the connection of `to`; a failing write is caught. */
    method SendMessage(p: Payload, to: int)
      modifies server`outbox
      ensures Emitted(old(server.outbox), server.outbox, Some(Direct(to, p)), server.broken)
      ensures server.State() == old(server.State())
    {
      if to !in server.broken {
        AppendSlices(server.outbox, [Delivery(to, p)]);
        server.outbox := server.outbox + [Delivery(to, p)];
      } else {
        Whole(server.outbox);
      }
    }

    /** `handleBroadcastMessages`: one line to every admitted client but this one, in the
        map's iteration order; a failing write is caught and the loop goes on. */
    method HandleBroadcastMessages(p: Payload)
      modifies server`outbox
      ensures Emitted(old(server.outbox), server.outbox, Some(Broadcast(Others(server.State(), clientUID), p)), server.broken)
    {
      ghost var sent := WriteToOthers(p);
      AppendSlices(old(server.outbox), sent);
    }

    /** The loop of `handleBroadcastMessages`, over the keys of `clientInfoMap`. */
    method WriteToOthers(p: Payload) returns (ghost sent: seq<Delivery>)
      modifies server`outbox
      ensures server.outbox == old(server.outbox) + sent
      ensures Covers(sent, server.clientInfoMap.Keys - {clientUID} - server.broken, p)
    {
      var srv: WhiteboardServer := server;
      ghost var before := srv.outbox;
      ghost var done: set<int> := {};
      sent := [];
      var keys := srv.clientInfoMap.Keys;
      var todo := keys;
      while todo != {}
        invariant BroadcastProgress(keys, todo, done, sent, clientUID, srv.broken, p)
        invariant srv.outbox == before + sent
        decreases |todo|
      {
        HasElement(todo);
        var k :| k in todo;
        ghost var d := WriteIfOther(p, k, keys, todo, done, sent);
        AppendAssoc(before, sent, d);
        sent := sent + d;
        done := done + {k};
        todo := todo - {k};
      }
      BroadcastDone(keys, todo, done, sent, clientUID, srv.broken, p);
    }

    /** One turn of that loop: write to `k` unless it is this client or its connection
        is broken. */
    method WriteIfOther(p: Payload, k: int, ghost keys: set<int>, ghost todo: set<int>,
                        ghost done: set<int>, ghost sent: seq<Delivery>) returns (ghost d: seq<Delivery>)
      modifies server`outbox
      requires BroadcastProgress(keys, todo, done, sent, clientUID, server.broken, p) && k in todo
      ensures server.outbox == old(server.outbox) + d
      ensures BroadcastProgress(keys, todo - {k}, done + {k}, sent + d, clientUID, server.broken, p)
    {
      if k != clientUID && k !in server.broken {
        BroadcastWrite(keys, todo, done, sent, clientUID, server.broken, p, k);
        server.outbox := server.outbox + [Delivery(k, p)];
        d := [Delivery(k, p)];
      } else {
        BroadcastSkip(keys, todo, done, sent, clientUID, server.broken, p, k);
        d := [];
        assert sent + d == sent;
      }
    }

    /** `sendMessageToManager`; `false` where the code throws (no manager UID, or the
        manager no longer admitted). */
    method SendMessageToManager(p: Payload) returns (ok: bool)
      modifies server`outbox
      ensures var m := old(server.managerClientUID);
        ok <==> m.Some? && m.value in old(server.clientInfoMap)
      ensures ok ==> Emitted(old(server.outbox), server.outbox, Some(Direct(old(server.managerClientUID).value, p)), server.broken)
      ensures !ok ==> server.outbox == old(server.outbox)
      ensures server.State() == old(server.State())
    {
      var m := server.GetManagerClientUID();
      if m.None? || m.value !in server.clientInfoMap {
        return false;
      }
      SendMessage(p, m.value);
      return true;
    }

    method HandleUserAllocation(request: Message) returns (outcome: Outcome)
      modifies this`userInfo, server`clientInfoMap, server`unverifiedClients, server`managerClientUID, server`outbox
      ensures Took(old(server.outbox), Allocation(old(server.State()), old(userInfo), clientUID, request), outcome)
    {
      if request.user.None? {
        return Failed;
      }
      if |server.clientInfoMap| == 0 {
        AssignManager(request);
        return Continue;
      }
      outcome := AskManager(request);
    }

    /** The first user in: admitted as the manager and told so with the roster. */
    method AssignManager(request: Message)
      requires request.user.Some? && |server.clientInfoMap| == 0
      modifies this`userInfo, server`clientInfoMap, server`managerClientUID, server`outbox
      ensures Took(old(server.outbox), Allocation(old(server.State()), old(userInfo), clientUID, request), Continue)
    {
      ghost var e := Allocation(server.State(), userInfo, clientUID, request);
      var managerUser := User(Some(clientUID), request.user.value.name, true);
      userInfo := Some(managerUser);
      server.clientInfoMap := server.clientInfoMap[clientUID := managerUser];
      server.SetManagerClientUID(clientUID);
      var event := NewEvent(Some(managerUser), ACTION_ASSIGN_MANAGER, None, Some(Roster(server.clientInfoMap)));
      assert server.State() == e.registry && userInfo == e.userInfo;
      assert e.send == Some(Direct(clientUID, Encoded(event)));
      SendMessage(Encoded(event), clientUID);
    }

    /** A later user: parked as unverified while the manager is asked. */
    method AskManager(request: Message) returns (outcome: Outcome)
      requires request.user.Some? && |server.clientInfoMap| != 0
      modifies this`userInfo, server`unverifiedClients, server`outbox
      ensures Took(old(server.outbox), Allocation(old(server.State()), old(userInfo), clientUID, request), outcome)
    {
      ghost var e := Allocation(server.State(), userInfo, clientUID, request);
      var clientUser := User(Some(clientUID), request.user.value.name, false);
      userInfo := Some(clientUser);
      server.unverifiedClients := server.unverifiedClients[clientUID := clientUser];
      var event := NewEvent(Some(clientUser), ACTION_NEW_USER_PERMISSION, Some(clientUser), None);
      assert server.State() == e.registry && userInfo == e.userInfo;
      assert e.send.Some? ==> e.send == Some(Direct(server.managerClientUID.value, Encoded(event)));
      var ok := SendMessageToManager(Encoded(event));
      outcome := if ok then Continue else Failed;
    }

    method HandleUserAccept(request: Message) returns (outcome: Outcome)
      modifies this`userInfo, server`clientInfoMap, server`unverifiedClients, server`managerClientUID, server`outbox
      ensures Took(old(server.outbox), Accept(old(server.State()), old(userInfo), clientUID, request), outcome)
    {
      if request.selectedUser.None? || request.selectedUser.value.uid.None? {
        return Failed;
      }
      var k := request.selectedUser.value.uid.value;
      if k !in server.unverifiedClients || server.unverifiedClients[k].uid.None? {
        return Failed;
      }
      ghost var e := Accept(server.State(), userInfo, clientUID, request);
      var acceptedUser := server.unverifiedClients[k];
      var j := acceptedUser.uid.value;
      server.clientInfoMap := server.clientInfoMap[j := acceptedUser];
      server.unverifiedClients := server.unverifiedClients - {j};
      var event := NewEvent(userInfo, ACTION_NEW_USER_ADDED, Some(acceptedUser), Some(Roster(server.clientInfoMap)));
      assert server.State() == e.registry;
      ghost var s := Broadcast(Others(server.State(), clientUID), Encoded(event));
      assert e.send == Some(s);
      assert server.outbox == old(server.outbox);
      HandleBroadcastMessages(Encoded(event));
      assert Others(server.State(), clientUID) == s.recipients;
      assert Emitted(old(server.outbox), server.outbox, Some(s), server.broken);
      return Continue;
    }

    method HandleUserReject(request: Message) returns (outcome: Outcome)
      modifies this`userInfo, server`clientInfoMap, server`unverifiedClients, server`managerClientUID, server`outbox
      ensures Took(old(server.outbox), Reject(old(server.State()), old(userInfo), clientUID, request), outcome)
    {
      if request.selectedUser.None? || request.selectedUser.value.uid.None? {
        return Failed;
      }
      var k := request.selectedUser.value.uid.value;
      if k !in server.unverifiedClients || server.unverifiedClients[k].uid.None? {
        return Failed;
      }
      var rejectedUser := server.unverifiedClients[k];
      server.unverifiedClients := server.unverifiedClients - {rejectedUser.uid.value};
      SendMessage(Encoded(request), k);
      return Continue;
    }

    method HandleUserKick(request: Message) returns (outcome: Outcome)
      modifies this`userInfo, server`clientInfoMap, server`unverifiedClients, server`managerClientUID, server`outbox
      ensures Took(old(server.outbox), Kick(old(server.State()), old(userInfo), clientUID, request), outcome)
    {
      var kickedUser := request.selectedUser;
      HandleBroadcastMessages(Encoded(request));
      if kickedUser.None? || kickedUser.value.uid.None? {
        return Failed;
      }
      server.clientInfoMap := server.clientInfoMap - {kickedUser.value.uid.value};
      return Continue;
    }

    method HandleUserExit(request: Message) returns (outcome: Outcome)
      modifies this`userInfo, server`clientInfoMap, server`unverifiedClients, server`managerClientUID, server`outbox
      ensures Took(old(server.outbox), Exit(old(server.State()), old(userInfo), clientUID, request), outcome)
    {
      if request.user.None? {
        return Failed;
      }
      var manager := server.GetManagerClientUID();
      if manager.None? {
        return Failed;
      }
      var uid := request.user.value.uid;
      if uid == manager {
        server.clientInfoMap := server.clientInfoMap - {manager.value};
        var event := NewEvent(userInfo, ACTION_FORCE_QUIT, None, None);
        HandleBroadcastMessages(Encoded(event));
        return Exited;
      } else if uid.None? {
        return Failed;
      } else if uid.value in server.clientInfoMap {
        server.clientInfoMap := server.clientInfoMap - {uid.value};
        var event := NewEvent(userInfo, ACTION_REFRESH_USER_LIST, request.user, Some(Roster(server.clientInfoMap)));
        HandleBroadcastMessages(Encoded(event));
        return Exited;
      }
      return Exited;
    }

    method HandleLoadImage(request: Message) returns (outcome: Outcome)
      modifies this`userInfo, server`clientInfoMap, server`unverifiedClients, server`managerClientUID, server`outbox
      ensures Took(old(server.outbox), LoadImage(old(server.State()), old(userInfo), clientUID, request), outcome)
    {
      if request.selectedUser.Some? {
        var uid := request.selectedUser.value.uid;
        if uid.None? || uid.value !in server.clientInfoMap {
          return Failed;
        }
        SendMessage(Encoded(request), uid.value);
        return Continue;
      }
      HandleBroadcastMessages(Encoded(request));
      return Continue;
    }

    method HandleAdminLogic(request: Message) returns (outcome: Outcome)
      modifies this`userInfo, server`clientInfoMap, server`unverifiedClients, server`managerClientUID, server`outbox
      ensures Took(old(server.outbox), AdminLogic(old(server.State()), old(userInfo), clientUID, request), outcome)
    {
      if request.action.None? {
        return Failed;
      }
      var action := request.action.value;
      if action == ACTION_NEW_USER_PERMISSION {
        outcome := HandleUserAllocation(request);
      } else if action == ACTION_NEW_USER_ACCEPT {
        outcome := HandleUserAccept(request);
      } else if action == ACTION_NEW_USER_REJECT {
        outcome := HandleUserReject(request);
      } else if action == ACTION_USER_KICK {
        outcome := HandleUserKick(request);
      } else if action == ACTION_LOAD_IMAGE {
        outcome := HandleLoadImage(request);
      } else {
        outcome := Continue;
      }
    }

    /** The body of the read loop in `run` for one received line. */
    method Step(input: Received) returns (outcome: Outcome)
      modifies this`userInfo, server`clientInfoMap, server`unverifiedClients, server`managerClientUID, server`outbox
      ensures Took(old(server.outbox), Dispatch(old(server.State()), old(userInfo), clientUID, input), outcome)
    {
      if input.request.None? {
        return Failed;
      }
      var request := input.request.value;
      if request.action.Some? && IsUrgent(request.action.value) {
        HandleBroadcastMessages(Verbatim(input.line));
        return Continue;
      } else if EqualsIgnoreCaseOpt(ACTION_EXIT, request.action) {
        outcome := HandleUserExit(request);
      } else {
        outcome := HandleAdminLogic(request);
      }
    }

    /** `run`: handle lines until one ends the loop or the stream ends. */
    method Run(inputs: seq<Received>) returns (outcome: Outcome)
      modifies this`userInfo, server`clientInfoMap, server`unverifiedClients, server`managerClientUID, server`outbox
      ensures var run := RunFrom(old(server.State()), old(userInfo), clientUID, inputs);
        && server.State() == run.registry
        && userInfo == run.userInfo
        && outcome == run.outcome
        && Logged(old(server.outbox), server.outbox, run.sends, server.broken)
    {
      ghost var r0, u0, before := server.State(), userInfo, server.outbox;
      ghost var sends: seq<Send> := [];
      var i := 0;
      outcome := Continue;
      Whole(before);
      while i < |inputs| && outcome == Continue
        invariant 0 <= i <= |inputs|
        invariant Logged(before, server.outbox, sends, server.broken)
        invariant outcome == Continue ==> RunsOn(r0, u0, clientUID, inputs, i, sends, server.State(), userInfo)
        invariant outcome != Continue ==>
          RunFrom(r0, u0, clientUID, inputs) == Session(server.State(), userInfo, sends, outcome, i)
        decreases |inputs| - i
      {
        ghost var e := Dispatch(server.State(), userInfo, clientUID, inputs[i]);
        ghost var mid := server.outbox;
        RunStep(r0, u0, clientUID, inputs, i, sends, server.State(), userInfo);
        outcome := Step(inputs[i]);
        LoggedStep(before, mid, server.outbox, sends, e.send, server.broken);
        sends := sends + SendList(e.send);
        i := i + 1;
      }
      if outcome == Continue {
        RunEnd(r0, u0, clientUID, inputs, sends, server.State(), userInfo);
      }
    }
  }
}
