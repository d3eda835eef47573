/**
 * What one `WhiteboardHandler` does with one received line, as a function of the shared
 * registry: the two UID-keyed maps, the manager UID, and the handler's own `clientUID`
 * and `userInfo`. The class `Server.WhiteboardHandler` is proved to do exactly this.
 *
 * A handler step ends in one of three ways: the read loop goes on (`Continue`), it
 * leaves through `break` after an EXIT (`Exited`), or an unchecked exception (nearly
 * always a null dereference) ends the handler thread (`Failed`).
 */
module Routing {
  import opened Wrappers
  import opened Text
  import opened ServerConstants
  import opened Dto

  /** The server's shared state: `clientInfoMap`, `unverifiedClients`, `managerClientUID`. */
  datatype Registry = Registry(admitted: map<int, User>, pending: map<int, User>, manager: Option<int>)

  /** What is written on a connection: the received line itself, or a serialised event.
      Every write appends a line feed, which the model leaves implicit. */
  datatype Payload = Verbatim(line: string) | Encoded(event: Message)

  /** A directed write (`sendMessage`) or a `handleBroadcastMessages` call. */
  datatype Send = Direct(to: int, payload: Payload) | Broadcast(recipients: set<int>, payload: Payload)

  datatype Outcome = Continue | Exited | Failed

  /** The state after one step, the write it makes (at most one) and how it ends. */
  datatype Effect = Effect(registry: Registry, userInfo: Option<User>, send: Option<Send>, outcome: Outcome)

  /** A received line and what decoding it gave (`convertToCustomClass` yields null on
      malformed input). */
  datatype Received = Received(line: string, request: Option<Message>)

  // ---- registry invariants ----

  /** Every stored user carries the UID it is stored under. */
  predicate KeyedBy(m: map<int, User>) {
    forall k | k in m :: m[k].uid == Some(k)
  }

  /** The invariant the handlers keep: both maps keyed by UID, no UID in both, nobody
      pending is a manager, and the only admitted user flagged manager is the manager. */
  predicate WellFormed(r: Registry) {
    && KeyedBy(r.admitted)
    && KeyedBy(r.pending)
    && r.admitted.Keys !! r.pending.Keys
    && (forall k | k in r.pending :: !r.pending[k].isManager)
    && (forall k | k in r.admitted :: r.admitted[k].isManager ==> r.manager == Some(k))
  }

  /** `new WhiteboardServer()`: both maps empty, no manager UID. */
  function InitialRegistry(): (r: Registry)
    ensures r.admitted == map[] && r.pending == map[] && r.manager.None?
    ensures WellFormed(r)
  {
    Registry(map[], map[], None)
  }

  // ---- the roster sent with ASSIGN_MANAGER, NEW_USER_ADDED and REFRESH_USER_LIST ----

  /** A set other than the empty one has an element. */
  lemma HasElement(s: set<int>)
    requires s != {}
    ensures exists k :: k in s
  {
    if !exists k :: k in s {
      assert false;
    }
  }

  lemma {:induction false} MinExists(s: set<int>)
    requires s != {}
    ensures exists k :: k in s && forall j | j in s :: k <= j
    decreases |s|
  {
    HasElement(s);
    var x :| x in s;
    if s == {x} {
      assert forall j | j in s :: x <= j;
    } else {
      MinExists(s - {x});
      var y :| y in s - {x} && forall j | j in s - {x} :: y <= j;
      var m := if y < x then y else x;
      forall j | j in s ensures m <= j {
        if j != x { assert j in s - {x}; }
      }
      assert m in s;
    }
  }

  /** The least element of a non-empty set. */
  function MinOf(s: set<int>): (k: int)
    requires s != {}
    ensures k in s && forall j | j in s :: k <= j
  {
    MinExists(s);
    var k :| k in s && forall j | j in s :: k <= j;
    k
  }

  /** Removing a present key shrinks a map by one. */
  lemma RemoveShrinks(m: map<int, User>, k: int)
    requires k in m
    ensures |m - {k}| == |m| - 1
  {
    assert (m - {k}).Keys == m.Keys - {k};
  }

  /** `new ArrayList<>(clientInfoMap.values())`, taken in ascending UID order. */
  function Roster(m: map<int, User>): seq<User>
    decreases |m|
  {
    if |m| == 0 then []
    else
      var k := MinOf(m.Keys);
      RemoveShrinks(m, k);
      [m[k]] + Roster(m - {k})
  }

  /** The roster lists each stored user once: exactly the map's values, and, when every
      user carries its key, in strictly ascending UID order. */
  lemma {:induction false} RosterSpec(m: map<int, User>)
    ensures |Roster(m)| == |m|
    ensures forall u :: u in Roster(m) <==> u in m.Values
    ensures KeyedBy(m) ==> forall i, j | 0 <= i < j < |Roster(m)| ::
      Roster(m)[i].uid.Some? && Roster(m)[j].uid.Some? && Roster(m)[i].uid.value < Roster(m)[j].uid.value
    decreases |m|
  {
    if |m| != 0 {
      var k := MinOf(m.Keys);
      var rest := m - {k};
      RemoveShrinks(m, k);
      RosterSpec(rest);
      var us := Roster(m);
      assert us == [m[k]] + Roster(rest);
      forall u ensures u in us <==> u in m.Values {
        if u in m.Values {
          var j :| j in m && m[j] == u;
          if j != k {
            assert rest[j] == u;
          }
        }
        if u in Roster(rest) {
          var j :| j in rest && rest[j] == u;
          assert m[j] == u;
        }
      }
      if KeyedBy(m) {
        assert KeyedBy(rest);
        forall i, j | 0 <= i < j < |us|
          ensures us[i].uid.Some? && us[j].uid.Some? && us[i].uid.value < us[j].uid.value
        {
          assert us[j] == Roster(rest)[j - 1];
          if i == 0 {
            assert us[j] in Roster(rest);
            var j' :| j' in rest && rest[j'] == us[j];
            assert j' in m.Keys && j' != k;
          } else {
            assert us[i] == Roster(rest)[i - 1];
          }
        }
      }
    }
  }

  lemma RosterOfOne(k: int, u: User)
    ensures Roster(map[k := u]) == [u]
  {
    RosterSpec(map[k := u]);
    var us := Roster(map[k := u]);
    assert |us| == 1;
    assert us[0] in map[k := u].Values;
  }

  // ---- recipients ----

  /** Who `handleBroadcastMessages` writes to: every admitted UID but the handler's own. */
  function Others(r: Registry, self: int): set<int> {
    r.admitted.Keys - {self}
  }

  // ---- the handler methods ----

  /** `handleUserAllocation`: the first user to ask becomes the manager; later users wait
      in `unverifiedClients` while the manager is asked. */
  function Allocation(r: Registry, info: Option<User>, self: int, request: Message): Effect {
    if request.user.None? then Effect(r, info, None, Failed)
    else
      var name := request.user.value.name;
      if |r.admitted| == 0 then
        var u := User(Some(self), name, true);
        var admitted := r.admitted[self := u];
        var event := Message2(Some(u), Some(ACTION_ASSIGN_MANAGER)).(activeUserList := Some(Roster(admitted)));
        Effect(r.(admitted := admitted, manager := Some(self)), Some(u), Some(Direct(self, Encoded(event))), Continue)
      else
        var u := User(Some(self), name, false);
        var r' := r.(pending := r.pending[self := u]);
        var event := Message2(Some(u), Some(ACTION_NEW_USER_PERMISSION)).(selectedUser := Some(u));
        // `sendMessageToManager`: the manager UID must be set and still admitted
        if r.manager.None? || r.manager.value !in r.admitted then Effect(r', Some(u), None, Failed)
        else Effect(r', Some(u), Some(Direct(r.manager.value, Encoded(event))), Continue)
  }

  /** `handleUserAccept`: move the selected user from pending to admitted, then broadcast
      NEW_USER_ADDED with the new roster. */
  function Accept(r: Registry, info: Option<User>, self: int, request: Message): Effect {
    if request.selectedUser.None? || request.selectedUser.value.uid.None? then Effect(r, info, None, Failed)
    else
      var k := request.selectedUser.value.uid.value;
      if k !in r.pending || r.pending[k].uid.None? then Effect(r, info, None, Failed)
      else
        var u := r.pending[k];
        var j := u.uid.value;
        var r' := r.(admitted := r.admitted[j := u], pending := r.pending - {j});
        var event := Message2(info, Some(ACTION_NEW_USER_ADDED)).(selectedUser := Some(u), activeUserList := Some(Roster(r'.admitted)));
        Effect(r', info, Some(Broadcast(Others(r', self), Encoded(event))), Continue)
  }

  /** `handleUserReject`: drop the selected user from pending and forward the request to it. */
  function Reject(r: Registry, info: Option<User>, self: int, request: Message): Effect {
    if request.selectedUser.None? || request.selectedUser.value.uid.None? then Effect(r, info, None, Failed)
    else
      var k := request.selectedUser.value.uid.value;
      if k !in r.pending || r.pending[k].uid.None? then Effect(r, info, None, Failed)
      else
        var r' := r.(pending := r.pending - {r.pending[k].uid.value});
        Effect(r', info, Some(Direct(k, Encoded(request))), Continue)
  }

  /** `handleUserKick`: broadcast the request first, then remove the selected user. */
  function Kick(r: Registry, info: Option<User>, self: int, request: Message): Effect {
    var send := Broadcast(Others(r, self), Encoded(request));
    if request.selectedUser.None? || request.selectedUser.value.uid.None? then Effect(r, info, Some(send), Failed)
    else Effect(r.(admitted := r.admitted - {request.selectedUser.value.uid.value}), info, Some(send), Continue)
  }

  /** `handleUserExit` together with the log line before it, which already needs the user.
      Every way through ends the read loop. */
  function Exit(r: Registry, info: Option<User>, self: int, request: Message): Effect {
    if request.user.None? || r.manager.None? then Effect(r, info, None, Failed)
    else
      var uid := request.user.value.uid;
      if uid == r.manager then
        var r' := r.(admitted := r.admitted - {r.manager.value});
        var event := Message2(info, Some(ACTION_FORCE_QUIT));
        Effect(r', info, Some(Broadcast(Others(r', self), Encoded(event))), Exited)
      else if uid.None? then Effect(r, info, None, Failed)
      else if uid.value in r.admitted then
        var r' := r.(admitted := r.admitted - {uid.value});
        var event := Message2(info, Some(ACTION_REFRESH_USER_LIST))
          .(activeUserList := Some(Roster(r'.admitted)), selectedUser := request.user);
        Effect(r', info, Some(Broadcast(Others(r', self), Encoded(event))), Exited)
      else Effect(r, info, None, Exited)
  }

  /** `handleLoadImage`: to the selected (just admitted) user alone, or to everyone. */
  function LoadImage(r: Registry, info: Option<User>, self: int, request: Message): Effect {
    if request.selectedUser.Some? then
      var uid := request.selectedUser.value.uid;
      if uid.None? || uid.value !in r.admitted then Effect(r, info, None, Failed)
      else Effect(r, info, Some(Direct(uid.value, Encoded(request))), Continue)
    else Effect(r, info, Some(Broadcast(Others(r, self), Encoded(request))), Continue)
  }

  /** `handleAdminLogic`: a `switch` on the action, which compares exactly and throws on null. */
  function AdminLogic(r: Registry, info: Option<User>, self: int, request: Message): Effect {
    if request.action.None? then Effect(r, info, None, Failed)
    else
      var a := request.action.value;
      if a == ACTION_NEW_USER_PERMISSION then Allocation(r, info, self, request)
      else if a == ACTION_NEW_USER_ACCEPT then Accept(r, info, self, request)
      else if a == ACTION_NEW_USER_REJECT then Reject(r, info, self, request)
      else if a == ACTION_USER_KICK then Kick(r, info, self, request)
      else if a == ACTION_LOAD_IMAGE then LoadImage(r, info, self, request)
      else Effect(r, info, None, Continue)
  }

  /** One pass of the read loop in `run`. */
  function Dispatch(r: Registry, info: Option<User>, self: int, input: Received): Effect {
    if input.request.None? then Effect(r, info, None, Failed)
    else
      var request := input.request.value;
      if request.action.Some? && IsUrgent(request.action.value) then
        Effect(r, info, Some(Broadcast(Others(r, self), Verbatim(input.line))), Continue)
      else if EqualsIgnoreCaseOpt(ACTION_EXIT, request.action) then Exit(r, info, self, request)
      else AdminLogic(r, info, self, request)
  }

  /** The whole read loop over the lines received before the end of the stream. The
      result's `send` is unused; `sends` lists every write in order. */
  datatype Session = Session(registry: Registry, userInfo: Option<User>, sends: seq<Send>, outcome: Outcome, steps: nat)

  function SendList(s: Option<Send>): seq<Send> {
    if s.Some? then [s.value] else []
  }

  function RunFrom(r: Registry, info: Option<User>, self: int, inputs: seq<Received>): (run: Session)
    ensures run.steps <= |inputs|
    ensures run.outcome == Continue ==> run.steps == |inputs|
    decreases |inputs|
  {
    if inputs == [] then Session(r, info, [], Continue, 0)
    else
      var e := Dispatch(r, info, self, inputs[0]);
      if e.outcome != Continue then Session(e.registry, e.userInfo, SendList(e.send), e.outcome, 1)
      else
        var rest := RunFrom(e.registry, e.userInfo, self, inputs[1..]);
        Session(rest.registry, rest.userInfo, SendList(e.send) + rest.sends, rest.outcome, rest.steps + 1)
  }

  /** After `i` lines of `inputs` a run from `(r0, u0)` has sent `sends` and stands at
      `(r, u)`: the rest of the run is the run of the remaining lines from there. */
  predicate RunsOn(r0: Registry, u0: Option<User>, self: int, inputs: seq<Received>, i: nat,
                   sends: seq<Send>, r: Registry, u: Option<User>)
    requires i <= |inputs|
  {
    var rest := RunFrom(r, u, self, inputs[i..]);
    RunFrom(r0, u0, self, inputs) == Session(rest.registry, rest.userInfo, sends + rest.sends, rest.outcome, i + rest.steps)
  }

  /** Handling line `i` moves a run on by one step, or ends it there. */
  lemma RunStep(r0: Registry, u0: Option<User>, self: int, inputs: seq<Received>, i: nat,
                sends: seq<Send>, r: Registry, u: Option<User>)
    requires i < |inputs| && RunsOn(r0, u0, self, inputs, i, sends, r, u)
    ensures var e := Dispatch(r, u, self, inputs[i]);
      && (e.outcome == Continue ==> RunsOn(r0, u0, self, inputs, i + 1, sends + SendList(e.send), e.registry, e.userInfo))
      && (e.outcome != Continue ==>
            RunFrom(r0, u0, self, inputs) == Session(e.registry, e.userInfo, sends + SendList(e.send), e.outcome, i + 1))
  {
    assert inputs[i..][0] == inputs[i] && inputs[i..][1..] == inputs[i + 1..];
    var e := Dispatch(r, u, self, inputs[i]);
    if e.outcome == Continue {
      var rest := RunFrom(e.registry, e.userInfo, self, inputs[i + 1..]);
      assert sends + (SendList(e.send) + rest.sends) == (sends + SendList(e.send)) + rest.sends;
    }
  }

  /** A run that reaches the end of its lines has sent what it sent so far. */
  lemma RunEnd(r0: Registry, u0: Option<User>, self: int, inputs: seq<Received>,
               sends: seq<Send>, r: Registry, u: Option<User>)
    requires RunsOn(r0, u0, self, inputs, |inputs|, sends, r, u)
    ensures RunFrom(r0, u0, self, inputs) == Session(r, u, sends, Continue, |inputs|)
  {
    assert inputs[|inputs|..] == [];
    assert sends + [] == sends;
  }

  // ---- properties ----

  predicate IsJoin(input: Received) {
    input.request.Some? && input.request.value.action == Some(ACTION_NEW_USER_PERMISSION)
  }

  /** A tag of a length other than four cannot be EXIT in any letter case. */
  lemma NotExit(a: string)
    requires |a| != 4
    ensures !EqualsIgnoreCase(ACTION_EXIT, a)
  {
    assert |ToLower(ACTION_EXIT)| == 4;
  }

  /** An administrative tag skips the verbatim broadcast and the exit path. */
  lemma AdminRoute(r: Registry, info: Option<User>, self: int, line: string, request: Message)
    requires request.action.Some?
    requires request.action.value in [ACTION_NEW_USER_PERMISSION, ACTION_NEW_USER_ACCEPT, ACTION_NEW_USER_REJECT, ACTION_USER_KICK, ACTION_LOAD_IMAGE]
    ensures Dispatch(r, info, self, Received(line, Some(request))) == AdminLogic(r, info, self, request)
  {
    NotExit(request.action.value);
    NonUrgentTags();
  }

  /** The first join: the requester becomes the admitted manager and alone receives
      ASSIGN_MANAGER with a one-user roster. */
  lemma JoinFirst(r: Registry, info: Option<User>, self: int, line: string, request: Message)
    requires request.action == Some(ACTION_NEW_USER_PERMISSION) && request.user.Some?
    requires r.admitted == map[]
    ensures var e := Dispatch(r, info, self, Received(line, Some(request)));
      var u := User(Some(self), request.user.value.name, true);
      && e.registry == Registry(map[self := u], r.pending, Some(self))
      && e.userInfo == Some(u)
      && e.outcome == Continue
      && e.send.Some? && e.send.value.Direct? && e.send.value.to == self
      && e.send.value.payload.Encoded?
      && e.send.value.payload.event.action == Some(ACTION_ASSIGN_MANAGER)
      && e.send.value.payload.event.activeUserList == Some([u])
  {
    AdminRoute(r, info, self, line, request);
    RosterOfOne(self, User(Some(self), request.user.value.name, true));
  }

  /** A later join waits in pending, and only the manager is asked, with the requester as
      the selected user. */
  lemma JoinLater(r: Registry, info: Option<User>, self: int, line: string, request: Message)
    requires request.action == Some(ACTION_NEW_USER_PERMISSION) && request.user.Some?
    requires r.admitted != map[]
    ensures var e := Dispatch(r, info, self, Received(line, Some(request)));
      var u := User(Some(self), request.user.value.name, false);
      && e.registry == r.(pending := r.pending[self := u])
      && e.userInfo == Some(u)
      && (if r.manager.Some? && r.manager.value in r.admitted then
            && e.outcome == Continue
            && e.send == Some(Direct(r.manager.value, Encoded(
                 Message2(Some(u), Some(ACTION_NEW_USER_PERMISSION)).(selectedUser := Some(u)))))
          else e.outcome == Failed && e.send.None?)
  {
    AdminRoute(r, info, self, line, request);
    assert |r.admitted| != 0;
  }

  /** Accepting a pending user moves it to admitted and tells every other admitted user,
      the newcomer included, with the roster after the move. */
  lemma AcceptMoves(r: Registry, info: Option<User>, self: int, line: string, request: Message)
    requires WellFormed(r)
    requires request.action == Some(ACTION_NEW_USER_ACCEPT)
    requires request.selectedUser.Some? && request.selectedUser.value.uid.Some?
    requires request.selectedUser.value.uid.value in r.pending
    ensures var k := request.selectedUser.value.uid.value;
      var e := Dispatch(r, info, self, Received(line, Some(request)));
      && e.registry == r.(admitted := r.admitted[k := r.pending[k]], pending := r.pending - {k})
      && e.registry.admitted.Keys !! e.registry.pending.Keys
      && e.outcome == Continue
      && e.send.Some? && e.send.value.Broadcast?
      && e.send.value.recipients == e.registry.admitted.Keys - {self}
      && (k != self ==> k in e.send.value.recipients)
      && e.send.value.payload.Encoded?
      && e.send.value.payload.event.selectedUser == Some(r.pending[k])
      && e.send.value.payload.event.activeUserList == Some(Roster(e.registry.admitted))
      && (forall v :: v in e.send.value.payload.event.activeUserList.value <==> v in e.registry.admitted.Values)
  {
    AdminRoute(r, info, self, line, request);
    var k := request.selectedUser.value.uid.value;
    assert r.pending[k].uid == Some(k);
    assert AdminLogic(r, info, self, request) == Accept(r, info, self, request);
    var e := Accept(r, info, self, request);
    assert e.registry == r.(admitted := r.admitted[k := r.pending[k]], pending := r.pending - {k});
    RosterSpec(e.registry.admitted);
  }

  /** Rejecting drops the user from pending, leaves admitted alone and writes to the
      rejected user only. */
  lemma RejectDrops(r: Registry, info: Option<User>, self: int, line: string, request: Message)
    requires WellFormed(r)
    requires request.action == Some(ACTION_NEW_USER_REJECT)
    requires request.selectedUser.Some? && request.selectedUser.value.uid.Some?
    requires request.selectedUser.value.uid.value in r.pending
    ensures var k := request.selectedUser.value.uid.value;
      var e := Dispatch(r, info, self, Received(line, Some(request)));
      && e.registry == r.(pending := r.pending - {k})
      && e.outcome == Continue
      && e.send == Some(Direct(k, Encoded(request)))
  {
    AdminRoute(r, info, self, line, request);
    var k := request.selectedUser.value.uid.value;
    assert r.pending[k].uid == Some(k);
    assert AdminLogic(r, info, self, request) == Reject(r, info, self, request);
  }

  /** Accept and reject of a UID that is not pending end the handler with nothing changed
      and nothing written. */
  lemma DecisionOnMissing(r: Registry, info: Option<User>, self: int, line: string, request: Message)
    requires request.action == Some(ACTION_NEW_USER_ACCEPT) || request.action == Some(ACTION_NEW_USER_REJECT)
    requires request.selectedUser.None? || request.selectedUser.value.uid.None? || request.selectedUser.value.uid.value !in r.pending
    ensures Dispatch(r, info, self, Received(line, Some(request))) == Effect(r, info, None, Failed)
  {
    AdminRoute(r, info, self, line, request);
  }

  /** The kick is broadcast while the kicked user is still admitted, so it is among the
      recipients; afterwards it is gone. */
  lemma KickBroadcastsFirst(r: Registry, info: Option<User>, self: int, line: string, request: Message)
    requires request.action == Some(ACTION_USER_KICK)
    requires request.selectedUser.Some? && request.selectedUser.value.uid.Some?
    ensures var k := request.selectedUser.value.uid.value;
      var e := Dispatch(r, info, self, Received(line, Some(request)));
      && e.registry == r.(admitted := r.admitted - {k})
      && k !in e.registry.admitted
      && e.outcome == Continue
      && e.send == Some(Broadcast(Others(r, self), Encoded(request)))
      && (k in r.admitted && k != self ==> k in e.send.value.recipients)
  {
    AdminRoute(r, info, self, line, request);
  }

  /** The three exits. Each ends the loop. */
  lemma ExitByManager(r: Registry, info: Option<User>, self: int, line: string, request: Message)
    requires request.action == Some(ACTION_EXIT) && request.user.Some?
    requires r.manager.Some? && request.user.value.uid == r.manager
    ensures var e := Dispatch(r, info, self, Received(line, Some(request)));
      && e.registry == r.(admitted := r.admitted - {r.manager.value})
      && e.outcome == Exited
      && e.send == Some(Broadcast(e.registry.admitted.Keys - {self}, Encoded(Message2(info, Some(ACTION_FORCE_QUIT)))))
  {
    NonUrgentTags();
  }

  lemma ExitByMember(r: Registry, info: Option<User>, self: int, line: string, request: Message)
    requires request.action == Some(ACTION_EXIT) && request.user.Some?
    requires r.manager.Some? && request.user.value.uid != r.manager
    requires request.user.value.uid.Some? && request.user.value.uid.value in r.admitted
    ensures var k := request.user.value.uid.value;
      var e := Dispatch(r, info, self, Received(line, Some(request)));
      && e.registry == r.(admitted := r.admitted - {k})
      && e.outcome == Exited
      && e.send.Some? && e.send.value.Broadcast?
      && e.send.value.recipients == e.registry.admitted.Keys - {self}
      && e.send.value.payload.Encoded?
      && e.send.value.payload.event.action == Some(ACTION_REFRESH_USER_LIST)
      && e.send.value.payload.event.selectedUser == request.user
      && (KeyedBy(r.admitted) ==> forall v :: v in e.send.value.payload.event.activeUserList.value ==> v.uid != Some(k))
  {
    NonUrgentTags();
    var k := request.user.value.uid.value;
    var after := r.admitted - {k};
    RosterSpec(after);
    if KeyedBy(r.admitted) {
      forall v | v in Roster(after) ensures v.uid != Some(k) {
        var j :| j in after && after[j] == v;
      }
    }
  }

  lemma ExitByStranger(r: Registry, info: Option<User>, self: int, line: string, request: Message)
    requires request.action == Some(ACTION_EXIT) && request.user.Some?
    requires r.manager.Some? && request.user.value.uid != r.manager
    requires request.user.value.uid.Some? && request.user.value.uid.value !in r.admitted
    ensures Dispatch(r, info, self, Received(line, Some(request))) == Effect(r, info, None, Exited)
  {
    NonUrgentTags();
  }

  /** EXIT, in any letter case, never lets the loop continue. */
  lemma ExitStops(r: Registry, info: Option<User>, self: int, line: string, request: Message)
    requires request.action.Some? && EqualsIgnoreCase(ACTION_EXIT, request.action.value)
    ensures Dispatch(r, info, self, Received(line, Some(request))).outcome != Continue
  {
  }

  /** DRAW, CHAT, SYSTEM_CHAT and CLEAR go out as received to every other admitted user. */
  lemma UrgentVerbatim(r: Registry, info: Option<User>, self: int, line: string, request: Message)
    requires request.action.Some? && IsUrgent(request.action.value)
    ensures Dispatch(r, info, self, Received(line, Some(request)))
      == Effect(r, info, Some(Broadcast(r.admitted.Keys - {self}, Verbatim(line))), Continue)
  {
  }

  /** LOAD_IMAGE goes to the selected admitted user alone, or to all others when none is
      selected. */
  lemma LoadImageRoute(r: Registry, info: Option<User>, self: int, line: string, request: Message)
    requires request.action == Some(ACTION_LOAD_IMAGE)
    ensures var e := Dispatch(r, info, self, Received(line, Some(request)));
      && e.registry == r
      && (request.selectedUser.None? ==> e.send == Some(Broadcast(r.admitted.Keys - {self}, Encoded(request))) && e.outcome == Continue)
      && (request.selectedUser.Some? && request.selectedUser.value.uid.Some? && request.selectedUser.value.uid.value in r.admitted ==>
            e.send == Some(Direct(request.selectedUser.value.uid.value, Encoded(request))) && e.outcome == Continue)
  {
    AdminRoute(r, info, self, line, request);
  }

  /** A tag the switch does not know changes nothing and writes nothing. */
  lemma UnknownIgnored(r: Registry, info: Option<User>, self: int, line: string, request: Message)
    requires request.action.Some? && request.action.value !in ACTIONS
    requires !EqualsIgnoreCase(ACTION_EXIT, request.action.value)
    ensures Dispatch(r, info, self, Received(line, Some(request))) == Effect(r, info, None, Continue)
  {
  }

  /** A line that does not decode, or an event without an action that reaches the switch,
      ends the handler thread. */
  lemma MalformedFails(r: Registry, info: Option<User>, self: int, line: string, request: Option<Message>)
    requires request.None? || request.value.action.None?
    ensures Dispatch(r, info, self, Received(line, request)) == Effect(r, info, None, Failed)
  {
  }

  /** Pending users never receive a broadcast: every broadcast goes to admitted UIDs. */
  lemma BroadcastsReachAdmittedOnly(r: Registry, info: Option<User>, self: int, input: Received)
    requires WellFormed(r)
    ensures var e := Dispatch(r, info, self, input);
      e.send.Some? && e.send.value.Broadcast? ==>
        && e.send.value.recipients <= r.admitted.Keys + e.registry.admitted.Keys
        && e.send.value.recipients !! e.registry.pending.Keys
        && self !in e.send.value.recipients
  {
    if IsJoin(input) {
      // a join only ever writes to the joiner or to the manager
      AdminRoute(r, info, self, input.line, input.request.value);
      assert AdminLogic(r, info, self, input.request.value) == Allocation(r, info, self, input.request.value);
    } else {
      DispatchPreserves(r, info, self, input);
      DispatchBroadcast(r, info, self, input);
    }
  }

  /** The property of a step that broadcasts: recipients are the others admitted before
      or after it, and nobody joins pending. */
  predicate BroadcastShape(r: Registry, self: int, e: Effect) {
    e.send.Some? && e.send.value.Broadcast? ==>
      && (e.send.value.recipients == Others(r, self) || e.send.value.recipients == Others(e.registry, self))
      && e.registry.pending.Keys <= r.pending.Keys
  }

  lemma ExitBroadcast(r: Registry, info: Option<User>, self: int, request: Message)
    ensures BroadcastShape(r, self, Exit(r, info, self, request))
  {
  }

  lemma AdminBroadcast(r: Registry, info: Option<User>, self: int, request: Message)
    ensures BroadcastShape(r, self, AdminLogic(r, info, self, request))
  {
    var a := request.action;
    if a == Some(ACTION_NEW_USER_PERMISSION) {
      assert AdminLogic(r, info, self, request) == Allocation(r, info, self, request);
    } else if a == Some(ACTION_NEW_USER_ACCEPT) {
      assert AdminLogic(r, info, self, request) == Accept(r, info, self, request);
    } else if a == Some(ACTION_NEW_USER_REJECT) {
      assert AdminLogic(r, info, self, request) == Reject(r, info, self, request);
    } else if a == Some(ACTION_USER_KICK) {
      assert AdminLogic(r, info, self, request) == Kick(r, info, self, request);
    } else if a == Some(ACTION_LOAD_IMAGE) {
      assert AdminLogic(r, info, self, request) == LoadImage(r, info, self, request);
    }
  }

  /** A broadcast goes to the others admitted before or after the step, and a step that
      broadcasts adds nobody to pending. */
  lemma DispatchBroadcast(r: Registry, info: Option<User>, self: int, input: Received)
    ensures BroadcastShape(r, self, Dispatch(r, info, self, input))
  {
    if input.request.Some? {
      var request := input.request.value;
      if request.action.Some? && IsUrgent(request.action.value) {
      } else if EqualsIgnoreCaseOpt(ACTION_EXIT, request.action) {
        ExitBroadcast(r, info, self, request);
      } else {
        AdminBroadcast(r, info, self, request);
      }
    }
  }

  lemma AllocationPreserves(r: Registry, info: Option<User>, self: int, request: Message)
    requires WellFormed(r) && self !in r.admitted && self !in r.pending
    ensures WellFormed(Allocation(r, info, self, request).registry)
  {
    var e := Allocation(r, info, self, request);
    if request.user.Some? {
      if |r.admitted| == 0 {
        assert r.admitted == map[];
        assert e.registry.admitted.Keys == {self};
      } else {
        assert e.registry.admitted == r.admitted;
        assert e.registry.manager == r.manager;
      }
    }
  }

  lemma AcceptPreserves(r: Registry, info: Option<User>, self: int, request: Message)
    requires WellFormed(r)
    ensures WellFormed(Accept(r, info, self, request).registry)
  {
    if request.selectedUser.Some? && request.selectedUser.value.uid.Some? {
      var k := request.selectedUser.value.uid.value;
      if k in r.pending {
        assert Accept(r, info, self, request).registry.admitted == r.admitted[k := r.pending[k]];
      }
    }
  }

  lemma ExitPreserves(r: Registry, info: Option<User>, self: int, request: Message)
    requires WellFormed(r)
    ensures WellFormed(Exit(r, info, self, request).registry)
  {
  }

  lemma AdminPreserves(r: Registry, info: Option<User>, self: int, request: Message)
    requires WellFormed(r)
    requires request.action == Some(ACTION_NEW_USER_PERMISSION) ==> self !in r.admitted && self !in r.pending
    ensures WellFormed(AdminLogic(r, info, self, request).registry)
  {
    if request.action == Some(ACTION_NEW_USER_PERMISSION) {
      AllocationPreserves(r, info, self, request);
    } else if request.action == Some(ACTION_NEW_USER_ACCEPT) {
      AcceptPreserves(r, info, self, request);
    }
  }

  /** The step keeps the registry well formed, as long as a join comes from a connection
      that is in neither map. */
  lemma DispatchPreserves(r: Registry, info: Option<User>, self: int, input: Received)
    requires WellFormed(r)
    requires IsJoin(input) ==> self !in r.admitted && self !in r.pending
    ensures WellFormed(Dispatch(r, info, self, input).registry)
  {
    if input.request.Some? {
      var request := input.request.value;
      if request.action.Some? && IsUrgent(request.action.value) {
      } else if EqualsIgnoreCaseOpt(ACTION_EXIT, request.action) {
        ExitPreserves(r, info, self, request);
      } else {
        AdminPreserves(r, info, self, request);
      }
    }
  }

  /** The same connection asking to join twice puts its UID in both maps. */
  lemma RepeatedJoinBreaksDisjointness(u: User, line: string)
    requires u.uid == Some(100000) && u.isManager
    ensures var r := Registry(map[100000 := u], map[], Some(100000));
      var e := Dispatch(r, Some(u), 100000, Received(line, Some(Message2(Some(u), Some(ACTION_NEW_USER_PERMISSION)))));
      WellFormed(r) && !WellFormed(e.registry)
  {
    var r := Registry(map[100000 := u], map[], Some(100000));
    var request := Message2(Some(u), Some(ACTION_NEW_USER_PERMISSION));
    assert 100000 in r.admitted;
    JoinLater(r, Some(u), 100000, line, request);
    var e := Dispatch(r, Some(u), 100000, Received(line, Some(request)));
    assert 100000 in e.registry.admitted && 100000 in e.registry.pending;
  }

  /** Lines after the one that ends the loop are never read. */
  lemma {:induction false} RunStopsEarly(r: Registry, info: Option<User>, self: int, a: seq<Received>, b: seq<Received>)
    requires RunFrom(r, info, self, a).outcome != Continue
    ensures RunFrom(r, info, self, a + b) == RunFrom(r, info, self, a)
    decreases |a|
  {
    if a == [] {
    } else {
      assert (a + b)[0] == a[0];
      assert (a + b)[1..] == a[1..] + b;
      var e := Dispatch(r, info, self, a[0]);
      if e.outcome == Continue {
        RunStopsEarly(e.registry, e.userInfo, self, a[1..], b);
      }
    }
  }

  /** Over a whole connection, the registry stays well formed when the only join is the
      first line and comes from a connection in neither map. */
  lemma {:induction false} RunPreserves(r: Registry, info: Option<User>, self: int, inputs: seq<Received>)
    requires WellFormed(r)
    requires forall i | 0 <= i < |inputs| :: IsJoin(inputs[i]) ==> i == 0 && self !in r.admitted && self !in r.pending
    ensures WellFormed(RunFrom(r, info, self, inputs).registry)
    decreases |inputs|
  {
    if inputs != [] {
      DispatchPreserves(r, info, self, inputs[0]);
      var e := Dispatch(r, info, self, inputs[0]);
      if e.outcome == Continue {
        forall i | 0 <= i < |inputs[1..]| ensures !IsJoin(inputs[1..][i]) {
          assert inputs[1..][i] == inputs[i + 1];
        }
        RunPreserves(e.registry, e.userInfo, self, inputs[1..]);
      }
    }
  }
}
