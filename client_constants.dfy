/**
 * The client's `Constants`: file commands, drawing tools, the action tags it shares with
 * the server, and the system-message templates shown in the chat box. A template carries
 * the placeholder `<<USER>>` where `String.replace` later puts a user name.
 */
module ClientConstants {
  import opened Text
  import ServerConstants

  const FILE_NEW: string := "NEW"
  const FILE_OPEN: string := "OPEN"
  const FILE_SAVE: string := "SAVE"
  const FILE_SAVE_AS: string := "SAVE AS"

  const TOOL_PENCIL: string := "PENCIL"
  const TOOL_ERASER: string := "ERASER"
  const TOOL_LINE: string := "LINE"
  const TOOL_CIRCLE: string := "CIRCLE"
  const TOOL_RECTANGLE: string := "RECTANGLE"
  const TOOL_TRIANGLE: string := "TRIANGLE"
  const TOOL_TEXT: string := "TEXT"
  const TOOL_COLOR: string := "COLOR"

  const TOOLS: seq<string> := [TOOL_PENCIL, TOOL_ERASER, TOOL_LINE, TOOL_CIRCLE, TOOL_RECTANGLE,
                               TOOL_TRIANGLE, TOOL_TEXT, TOOL_COLOR]

  /** The tools that draw while the mouse is dragged. */
  const FREE_HAND_TOOLS: seq<string> := [TOOL_PENCIL, TOOL_ERASER]

  const ACTION_DRAW: string := "DRAW"
  const ACTION_CHAT: string := "CHAT"
  const ACTION_SYSTEM_CHAT: string := "SYSTEM_CHAT"
  const ACTION_NEW_USER_PERMISSION: string := "NEW_USER_PERMISSION"
  const ACTION_NEW_USER_ACCEPT: string := "NEW_USER_ACCEPT"
  const ACTION_NEW_USER_REJECT: string := "NEW_USER_REJECT"
  const ACTION_USER_KICK: string := "USER_KICK"
  const ACTION_ASSIGN_MANAGER: string := "ASSIGN_MANAGER"
  const ACTION_NEW_USER_ADDED: string := "NEW_USER_ADDED"
  const ACTION_EXIT: string := "EXIT"
  const ACTION_REFRESH_USER_LIST: string := "REFRESH_USER_LIST"
  const ACTION_LOAD_IMAGE: string := "LOAD_IMAGE"
  const ACTION_CLEAR: string := "CLEAR"
  const ACTION_FORCE_QUIT: string := "FORCE_QUIT"

  const ACTIONS: seq<string> := [
    ACTION_DRAW, ACTION_CHAT, ACTION_SYSTEM_CHAT, ACTION_NEW_USER_PERMISSION,
    ACTION_NEW_USER_ACCEPT, ACTION_NEW_USER_REJECT, ACTION_USER_KICK, ACTION_ASSIGN_MANAGER,
    ACTION_NEW_USER_ADDED, ACTION_EXIT, ACTION_REFRESH_USER_LIST, ACTION_LOAD_IMAGE,
    ACTION_CLEAR, ACTION_FORCE_QUIT
  ]

  /** The placeholder for a user name in a template. */
  const USER: string := "<<USER>>"

  /** `StringUtils.LF`. */
  const LF: string := "\n"

  const KICK_SUFFIX: string := " has been removed by the manager" + LF
  const ADDED_SUFFIX: string := " has joined the whiteboard" + LF
  const EXIT_SUFFIX: string := " has exited the whiteboard" + LF

  const MSG_LOAD_IMAGE: string := "Manager has loaded a new image on the whiteboard" + LF
  const MSG_LOAD_IMAGE_ERROR: string := "Unable to load image. Please check the file and try again!!" + LF
  const MSG_KICK_USER: string := USER + KICK_SUFFIX
  const MSG_USER_ADDED: string := USER + ADDED_SUFFIX
  const MSG_USER_EXIT: string := USER + EXIT_SUFFIX
  const MSG_CLEAR: string := "Manager has cleared the whiteboard" + LF
  const MSG_FILE_SAVED: string := "Draw area saved to file" + LF
  const MSG_FILE_SAVED_ERROR: string := "Unable to save draw area to file. Please try again!!" + LF

  const SYSTEM_MESSAGES: seq<string> := [
    MSG_LOAD_IMAGE, MSG_LOAD_IMAGE_ERROR, MSG_KICK_USER, MSG_USER_ADDED, MSG_USER_EXIT,
    MSG_CLEAR, MSG_FILE_SAVED, MSG_FILE_SAVED_ERROR
  ]

  /** `template.replace(USER, name)`. */
  function Fill(template: string, name: string): string {
    Replace(template, USER, name)
  }

  /** `FREE_HAND_TOOLS.contains(t)` holds for the pencil and the eraser and nothing else. */
  lemma FreeHandExactly(t: string)
    ensures t in FREE_HAND_TOOLS <==> t == TOOL_PENCIL || t == TOOL_ERASER
  {
  }

  /** The client's tags are the server's, in the same order. */
  lemma ActionsMatchServer()
    ensures ACTIONS == ServerConstants.ACTIONS
    ensures ACTION_DRAW == ServerConstants.ACTION_DRAW && ACTION_CHAT == ServerConstants.ACTION_CHAT
    ensures ACTION_SYSTEM_CHAT == ServerConstants.ACTION_SYSTEM_CHAT
    ensures ACTION_NEW_USER_PERMISSION == ServerConstants.ACTION_NEW_USER_PERMISSION
    ensures ACTION_NEW_USER_ACCEPT == ServerConstants.ACTION_NEW_USER_ACCEPT
    ensures ACTION_NEW_USER_REJECT == ServerConstants.ACTION_NEW_USER_REJECT
    ensures ACTION_USER_KICK == ServerConstants.ACTION_USER_KICK
    ensures ACTION_ASSIGN_MANAGER == ServerConstants.ACTION_ASSIGN_MANAGER
    ensures ACTION_NEW_USER_ADDED == ServerConstants.ACTION_NEW_USER_ADDED
    ensures ACTION_EXIT == ServerConstants.ACTION_EXIT
    ensures ACTION_REFRESH_USER_LIST == ServerConstants.ACTION_REFRESH_USER_LIST
    ensures ACTION_LOAD_IMAGE == ServerConstants.ACTION_LOAD_IMAGE
    ensures ACTION_CLEAR == ServerConstants.ACTION_CLEAR
    ensures ACTION_FORCE_QUIT == ServerConstants.ACTION_FORCE_QUIT
  {
  }

  /** No two tool commands are the same string. */
  lemma ToolsDistinct()
    ensures |TOOLS| == 8
    ensures forall i, j | 0 <= i < j < |TOOLS| :: TOOLS[i] != TOOLS[j]
  {
  }

  /** Every system message is a line of its own. */
  lemma MessagesEndWithLF()
    ensures forall m | m in SYSTEM_MESSAGES :: EndsWith(m, LF)
  {
  }

  /** The three user templates begin with the placeholder and hold it once: filling one in
      gives the name followed by the template's fixed suffix. */
  lemma FillNotices(name: string)
    ensures StartsWith(MSG_KICK_USER, USER) && StartsWith(MSG_USER_ADDED, USER)
    ensures StartsWith(MSG_USER_EXIT, USER)
    ensures Fill(MSG_KICK_USER, name) == name + KICK_SUFFIX
    ensures Fill(MSG_USER_ADDED, name) == name + ADDED_SUFFIX
    ensures Fill(MSG_USER_EXIT, name) == name + EXIT_SUFFIX
  {
    assert USER[0] == '<';
    assert USER[0] !in KICK_SUFFIX && USER[0] !in ADDED_SUFFIX && USER[0] !in EXIT_SUFFIX;
    ReplaceLeading(USER, KICK_SUFFIX, name);
    ReplaceLeading(USER, ADDED_SUFFIX, name);
    ReplaceLeading(USER, EXIT_SUFFIX, name);
  }
}
