/** The action tags shared by server and clients, and the tags the server relays verbatim. */
module ServerConstants {
  const ACTION_DRAW: string := "DRAW"
  const ACTION_CHAT: string := "CHAT"
  const ACTION_SYSTEM_CHAT: string := "SYSTEM_CHAT"
  const ACTION_NEW_USER_PERMISSION: string := "NEW_USER_PERMISSION"
  const ACTION_NEW_USER_ACCEPT: string := "NEW_USER_ACCEPT"
  const ACTION_NEW_USER_REJECT: string := "NEW_USER_REJECT"
  const ACTION_USER_KICK: string := "USER_KICK"
  const ACTION_ASSIGN_MANAGER: string := "ASSIGN_MANAGER"
  const ACTION_NEW_USER_ADDED: string := "NEW_USER_ADDED"
  const ACTION_EXIT: string := "EXIT"
  const ACTION_REFRESH_USER_LIST: string := "REFRESH_USER_LIST"
  const ACTION_LOAD_IMAGE: string := "LOAD_IMAGE"
  const ACTION_CLEAR: string := "CLEAR"
  const ACTION_FORCE_QUIT: string := "FORCE_QUIT"

  /** The fourteen tags in declaration order. */
  const ACTIONS: seq<string> := [
    ACTION_DRAW, ACTION_CHAT, ACTION_SYSTEM_CHAT, ACTION_NEW_USER_PERMISSION,
    ACTION_NEW_USER_ACCEPT, ACTION_NEW_USER_REJECT, ACTION_USER_KICK, ACTION_ASSIGN_MANAGER,
    ACTION_NEW_USER_ADDED, ACTION_EXIT, ACTION_REFRESH_USER_LIST, ACTION_LOAD_IMAGE,
    ACTION_CLEAR, ACTION_FORCE_QUIT]

  /** `URGENT_BROADCAST_ACTIONS`: relayed as received, without any processing. */
  const URGENT_BROADCAST_ACTIONS: seq<string> := [ACTION_DRAW, ACTION_CHAT, ACTION_SYSTEM_CHAT, ACTION_CLEAR]

  /** `ImmutableList.contains`, which compares with `equals` (case matters). */
  predicate IsUrgent(action: string) {
    action in URGENT_BROADCAST_ACTIONS
  }

  lemma UrgentExactly(a: string)
    ensures IsUrgent(a) <==> a == "DRAW" || a == "CHAT" || a == "SYSTEM_CHAT" || a == "CLEAR"
  {
  }

  /** EXIT and the administrative tags take the slow path. */
  lemma NonUrgentTags()
    ensures !IsUrgent(ACTION_EXIT)
    ensures !IsUrgent(ACTION_NEW_USER_PERMISSION) && !IsUrgent(ACTION_NEW_USER_ACCEPT)
    ensures !IsUrgent(ACTION_NEW_USER_REJECT) && !IsUrgent(ACTION_USER_KICK)
    ensures !IsUrgent(ACTION_LOAD_IMAGE)
  {
  }

  lemma TagsDistinct()
    ensures |ACTIONS| == 14
    ensures forall i, j | 0 <= i < j < |ACTIONS| :: ACTIONS[i] != ACTIONS[j]
  {
  }
}
