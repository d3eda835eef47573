/**
 * `UserPanel`: the client's roster of active users. The visible list model and the map
 * `activeClientMap` from UID to user are replaced, appended to and removed from in place;
 * the manager kicks a selected user from here.
 */
module Users {
  import opened Wrappers
  import opened Text
  import opened Dto
  import opened ClientConstants
  import opened Client

  /** No two users of the list carry the same UID (an absent UID counts as one value). */
  predicate DistinctUids(l: seq<User>) {
    forall i, j | 0 <= i < j < |l| :: l[i].uid != l[j].uid
  }

  /** Every user of the map is stored under its own UID. */
  predicate KeyedBy(m: map<Option<int>, User>) {
    forall k | k in m :: m[k].uid == k
  }

  /** `Collectors.toMap(UserDto::getClientUID, c -> c)`: the map from each UID to its user,
      or nothing when two users share a UID (`toMap` throws IllegalStateException). */
  function UidMap(l: seq<User>): (r: Option<map<Option<int>, User>>)
    ensures r.Some? <==> DistinctUids(l)
    ensures r.Some? ==> KeyedBy(r.value)
    ensures r.Some? ==> forall k :: k in r.value <==> exists i :: 0 <= i < |l| && l[i].uid == k
    ensures r.Some? ==> forall i | 0 <= i < |l| :: l[i].uid in r.value && r.value[l[i].uid] == l[i]
    decreases |l|
  {
    if |l| == 0 then Some(map[])
    else
      var front := l[..|l| - 1];
      var last := l[|l| - 1];
      assert forall i | 0 <= i < |front| :: front[i] == l[i];
      match UidMap(front)
      case None => None
      case Some(m) =>
        if last.uid in m then None
        else Some(m[last.uid := last])
  }

  /** The users of a UID-keyed map have distinct UIDs, so listing them in any order and
      mapping them back by UID gives the map again. */
  lemma ValuesRebuild(m: map<Option<int>, User>, vs: seq<User>)
    requires KeyedBy(m) && DistinctUids(vs)
    requires forall u :: u in vs <==> u in m.Values
    ensures UidMap(vs) == Some(m)
  {
    var r := UidMap(vs).value;
    forall k | k in m ensures k in r && r[k] == m[k] {
      assert m[k] in m.Values;
      var i :| 0 <= i < |vs| && vs[i] == m[k];
      assert vs[i].uid == k;
    }
    forall k | k in r ensures k in m {
      var i :| 0 <= i < |vs| && vs[i].uid == k;
      assert vs[i] in vs;
      var k' :| k' in m && m[k'] == vs[i];
    }
    assert r == m;
  }

  /** `UserPanel`, without its Swing widgets. */
  class UserPanel {
    const client: WhiteboardClient
    const chat: ChatBox
    /** The `DefaultListModel` shown in the list, in display order. */
    var listModel: seq<User>
    var activeClientMap: map<Option<int>, User>
    /** Whether `activeClientMap` is still the `ConcurrentHashMap` the field starts with,
        which refuses a null key; the first refresh that completes replaces it with the
        `HashMap` that `Collectors.toMap` builds, which takes one. */
    var concurrentMap: bool
    var removeEnabled: bool

    /** The map stores each user under its own UID, and while it is concurrent it holds no
        null UID. */
    predicate Valid()
      reads this`activeClientMap, this`concurrentMap
    {
      KeyedBy(activeClientMap) && (concurrentMap ==> None !in activeClientMap)
    }

    /** A put, get or remove of this UID throws `NullPointerException`. */
    predicate RefusesKey(uid: Option<int>)
      reads this`concurrentMap
    {
      concurrentMap && uid.None?
    }

    constructor (client: WhiteboardClient, chat: ChatBox)
      ensures this.client == client && this.chat == chat
      ensures listModel == [] && activeClientMap == map[] && concurrentMap && !removeEnabled
      ensures Valid()
    {
      this.client := client;
      this.chat := chat;
      listModel := [];
      activeClientMap := map[];
      concurrentMap := true;
      removeEnabled := false;
    }

    /** The remove button is switched on for the manager; nothing switches it off. */
    method EnableUIAfterVerification()
      modifies this`removeEnabled
      ensures removeEnabled == (old(removeEnabled) || client.isManager)
    {
      if client.isManager {
        removeEnabled := true;
      }
    }

    /** `refreshUserList(clientList)`: the list model is cleared and refilled from the
        argument in order, then the map is cleared and rebuilt from it. A null argument
        stops after the clear; a repeated UID leaves the map empty. */
    twostate predicate Refreshed(clientList: Option<seq<User>>, r: Outcome)
      reads this`listModel, this`activeClientMap, this`concurrentMap
    {
      && (r.Done? <==> clientList.Some? && DistinctUids(clientList.value))
      && (clientList.None? ==> listModel == [] && activeClientMap == old(activeClientMap))
      && (clientList.Some? ==> listModel == clientList.value)
      && (r.Done? ==> Some(activeClientMap) == UidMap(clientList.value) && !concurrentMap)
      && (clientList.Some? && r.Failed? ==> activeClientMap == map[])
      && (r.Failed? ==> concurrentMap == old(concurrentMap))
    }

    /** `refreshUserList`. */
    method RefreshUserList(clientList: Option<seq<User>>) returns (r: Outcome)
      modifies this`listModel, this`activeClientMap, this`concurrentMap
      ensures Refreshed(clientList, r)
      ensures old(Valid()) ==> Valid()
    {
      listModel := [];
      if clientList.None? {
        return Failed;
      }
      var l := clientList.value;
      for i := 0 to |l|
        modifies this`listModel
        invariant listModel == l[..i]
      {
        listModel := listModel + [l[i]];
      }
      assert l[..|l|] == l;
      activeClientMap := map[];
      match UidMap(l)
      case None =>
        r := Failed;
      case Some(m) =>
        activeClientMap := m;
        concurrentMap := false;
        r := Done;
    }

    /** `addUserToList`: appended to the list model and stored under its UID; a null UID
        that the concurrent map refuses throws after the list model has taken the user. */
    method AddUserToList(u: User) returns (r: Outcome)
      modifies this`listModel, this`activeClientMap
      requires Valid()
      ensures listModel == old(listModel) + [u]
      ensures r.Failed? <==> RefusesKey(u.uid)
      ensures r.Failed? ==> activeClientMap == old(activeClientMap)
      ensures r.Done? ==> activeClientMap == old(activeClientMap)[u.uid := u]
      ensures Valid()
    {
      listModel := listModel + [u];
      if RefusesKey(u.uid) {
        return Failed;
      }
      activeClientMap := activeClientMap[u.uid := u];
      r := Done;
    }

    /** `new ArrayList<>(activeClientMap.values())`: the users of the map, once each, in
        the map's own iteration order. */
    method MapValues() returns (vs: seq<User>)
      requires Valid()
      ensures DistinctUids(vs)
      ensures forall u :: u in vs <==> u in activeClientMap.Values
    {
      var m := activeClientMap;
      var todo := m.Keys;
      vs := [];
      while todo != {}
        invariant todo <= m.Keys
        invariant forall i | 0 <= i < |vs| :: vs[i].uid in m && vs[i].uid !in todo && vs[i] == m[vs[i].uid]
        invariant forall k | k in m && k !in todo :: m[k] in vs
        invariant DistinctUids(vs)
        decreases |todo|
      {
        HasKey(todo);
        var k :| k in todo;
        vs := vs + [m[k]];
        todo := todo - {k};
      }
      forall u | u in activeClientMap.Values ensures u in vs {
        var k :| k in m && m[k] == u;
      }
    }

    /** `removeUserFromList(selectedUser)`: the UID is deleted from the map and the list
        model is rebuilt from the users left in it, which replaces the map by a `HashMap`. A
        missing user, or a null UID the concurrent map refuses, throws first. */
    twostate predicate Removed(selected: Option<User>, r: Outcome)
      reads this`listModel, this`activeClientMap, this`concurrentMap
    {
      && (r.Failed? <==> selected.None? || old(RefusesKey(selected.value.uid)))
      && (r.Failed? ==> unchanged(this`listModel, this`activeClientMap, this`concurrentMap))
      && (r.Done? ==> activeClientMap == old(activeClientMap) - {selected.value.uid} && !concurrentMap)
      && (r.Done? ==> DistinctUids(listModel) && forall u :: u in listModel <==> u in activeClientMap.Values)
    }

    /** `removeUserFromList`. */
    method RemoveUserFromList(selected: Option<User>) returns (r: Outcome)
      modifies this`listModel, this`activeClientMap, this`concurrentMap
      requires Valid()
      ensures Removed(selected, r)
      ensures Valid()
    {
      if selected.None? || RefusesKey(selected.value.uid) {
        return Failed;
      }
      activeClientMap := activeClientMap - {selected.value.uid};
      var vs := MapValues();
      ValuesRebuild(activeClientMap, vs);
      r := RefreshUserList(Some(vs));
    }

    /** `actionPerformed` of the remove button: with a selection other than the current
        user, queue one kick for the map's entry of that UID, drop the user locally and say
        so in the chat box. The current user's own UID is compared with `Long.equals`, so a
        missing user or UID throws; so does looking up a null UID in the concurrent map. */
    method KickSelected(selected: Option<User>) returns (r: Outcome)
      modifies this`listModel, this`activeClientMap, this`concurrentMap, client`actionList, chat`lines
      requires Valid()
      ensures Valid()
      ensures !KickGoesOut(selected, client.userInfo) ==>
        listModel == old(listModel) && activeClientMap == old(activeClientMap) && concurrentMap == old(concurrentMap)
        && client.actionList == old(client.actionList) && chat.lines == old(chat.lines)
      ensures !KickGoesOut(selected, client.userInfo) ==>
        (r.Failed? <==> selected.Some? && (client.userInfo.None? || client.userInfo.value.uid.None?))
      ensures KickGoesOut(selected, client.userInfo) && old(RefusesKey(selected.value.uid)) ==>
        && r.Failed? && unchanged(this`listModel, this`activeClientMap, this`concurrentMap)
        && client.actionList == old(client.actionList) && chat.lines == old(chat.lines)
      ensures KickGoesOut(selected, client.userInfo) && !old(RefusesKey(selected.value.uid)) ==>
        && client.actionList == old(client.actionList) + [KickEvent(client.userInfo, old(activeClientMap), selected.value)]
        && activeClientMap == old(activeClientMap) - {selected.value.uid} && !concurrentMap
        && (forall u :: u in listModel <==> u in activeClientMap.Values)
      ensures KickGoesOut(selected, client.userInfo) && !old(RefusesKey(selected.value.uid)) && selected.value.name.Some? ==>
        r.Done? && chat.lines == old(chat.lines) + [Fill(MSG_KICK_USER, selected.value.name.value)]
      ensures KickGoesOut(selected, client.userInfo) && !old(RefusesKey(selected.value.uid)) && selected.value.name.None? ==>
        r.Failed? && chat.lines == old(chat.lines)
    {
      if selected.None? {
        return Done;
      }
      var me := client.userInfo;
      if me.None? || me.value.uid.None? {
        return Failed;
      }
      if me.value.uid == selected.value.uid {
        return Done;
      }
      if RefusesKey(selected.value.uid) {
        return Failed;
      }
      var picked := if selected.value.uid in activeClientMap then Some(activeClientMap[selected.value.uid]) else None;
      client.Enqueue(Message2(me, Some(ACTION_USER_KICK)).(selectedUser := picked));
      r := RemoveUserFromList(selected);
      if selected.value.name.None? {
        return Failed;
      }
      chat.Append(Fill(MSG_KICK_USER, selected.value.name.value));
    }
  }

  lemma HasKey(s: set<Option<int>>)
    requires s != {}
    ensures exists k :: k in s
  {
    var k :| k in s;
  }

  /** The remove button acts only on a selection whose UID differs from the current user's
      own, which must be known. */
  predicate KickGoesOut(selected: Option<User>, me: Option<User>) {
    selected.Some? && me.Some? && me.value.uid.Some? && me.value.uid != selected.value.uid
  }

  /** The kick event: sent by the current user, naming the roster's entry for the UID. */
  function KickEvent(me: Option<User>, roster: map<Option<int>, User>, selected: User): (m: Message)
    ensures m.action == Some(ACTION_USER_KICK) && m.user == me
    ensures m.selectedUser == if selected.uid in roster then Some(roster[selected.uid]) else None
  {
    Message2(me, Some(ACTION_USER_KICK)).(selectedUser := if selected.uid in roster then Some(roster[selected.uid]) else None)
  }

  /** A manager never kicks itself: selecting one's own UID queues nothing. */
  lemma NoSelfKick(me: User, selected: User)
    requires me.uid == selected.uid
    ensures !KickGoesOut(Some(selected), Some(me))
  {
  }

  /** In a UID-keyed roster, the kick names the very user that was selected when the
      selection is one of the roster's users. */
  lemma KickNamesSelected(me: Option<User>, roster: map<Option<int>, User>, selected: User)
    requires KeyedBy(roster) && selected in roster.Values
    ensures KickEvent(me, roster, selected).selectedUser == Some(selected)
  {
    var k :| k in roster && roster[k] == selected;
  }
}
