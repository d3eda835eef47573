/**
 * `FileFunctionPanel`: the manager's NEW, OPEN, SAVE and SAVE AS buttons. The panel keeps
 * the path of the current file across the four commands; NEW clears every board and OPEN
 * sends the opened image to every other client. The file dialogs and the file system are
 * parameters: a `Choice` is what the dialog returned, and the outcome of reading or
 * writing a file is given with it.
 */
module Files {
  import opened Wrappers
  import opened Text
  import opened Dto
  import opened ClientConstants
  import opened Client
  import opened Board

  /** What a file dialog returned: cancelled, or approved with the chosen file's absolute path. */
  datatype Choice = Cancel | Approve(path: string)

  /** How reading the chosen image went: `ImageIO.read` threw, or it worked and then
      `Files.readAllBytes` threw, or both worked and the bytes have this Base64 text. */
  datatype FileRead = ImageFailed | BytesFailed | Read(encoded: string)

  /** The save-as rule: ".png" is appended unless the lower-cased path already ends in it. */
  function PngPath(path: string): (p: string)
    ensures EndsWith(ToLower(p), ".png")
    ensures StartsWith(p, path) && |p| <= |path| + 4
  {
    if EndsWith(ToLower(path), ".png") then path
    else
      ToLowerAppend(path, ".png");
      assert ToLower(".png") == ".png";
      var p := path + ".png";
      assert p[..|path|] == path;
      p
  }

  /** A path already ending in ".png", whatever its case, is kept as it is. */
  lemma PngPathKeeps(path: string)
    ensures PngPath(path) == path <==> EndsWith(ToLower(path), ".png")
  {
  }

  /** Applying the rule twice gives what applying it once gives. */
  lemma PngPathIdempotent(path: string)
    ensures PngPath(PngPath(path)) == PngPath(path)
  {
    PngPathKeeps(PngPath(path));
  }

  /** The events this panel queues. */
  function ClearEvent(user: Option<User>): (m: Message)
    ensures m.action == Some(ACTION_CLEAR) && m.user == user && m.selectedUser.None?
  {
    Message2(user, Some(ACTION_CLEAR))
  }

  function LoadImageEvent(user: Option<User>, encoded: string): (m: Message)
    ensures m.action == Some(ACTION_LOAD_IMAGE) && m.user == user
    ensures m.drawboardImage == Some(encoded) && m.selectedUser.None?
  {
    Message2(user, Some(ACTION_LOAD_IMAGE)).(drawboardImage := Some(encoded))
  }

  class FileFunctionPanel {
    const client: WhiteboardClient
    const drawArea: DrawArea
    const chat: ChatBox
    /** `currentSelectedFilePath`: null until a file is chosen or the board is cleared. */
    var currentSelectedFilePath: Option<string>
    /** The four buttons, which a Swing button only fires while enabled. */
    var buttonsEnabled: bool
    var userTypeLabel: string
    var labelVisible: bool

    constructor (client: WhiteboardClient, drawArea: DrawArea, chat: ChatBox)
      ensures this.client == client && this.drawArea == drawArea && this.chat == chat
      ensures currentSelectedFilePath.None? && !buttonsEnabled
      ensures userTypeLabel == "MANAGER" && !labelVisible
    {
      this.client := client;
      this.drawArea := drawArea;
      this.chat := chat;
      currentSelectedFilePath := None;
      buttonsEnabled := false;
      userTypeLabel := "MANAGER";
      labelVisible := false;
    }

    /** `enableUIAfterVerification`: the buttons for the manager, the "GUEST" label for
        everyone else; the label is shown either way. */
    method EnableUIAfterVerification()
      modifies this`buttonsEnabled, this`userTypeLabel, this`labelVisible
      ensures buttonsEnabled == (old(buttonsEnabled) || client.isManager)
      ensures userTypeLabel == if client.isManager then old(userTypeLabel) else "GUEST"
      ensures labelVisible
    {
      if client.isManager {
        buttonsEnabled := true;
      } else {
        userTypeLabel := "GUEST";
      }
      labelVisible := true;
    }

    /** What NEW does: the board is cleared, one CLEAR is queued and noted, and the
        current file is forgotten. */
    twostate predicate NewFileDone()
      reads client`actionList, client`userInfo, chat`lines, drawArea`pen, drawArea`selectedColor
      reads this`currentSelectedFilePath
    {
      && client.actionList == old(client.actionList) + [ClearEvent(client.userInfo)]
      && chat.lines == old(chat.lines) + [MSG_CLEAR]
      && drawArea.pen == ClearedPen(drawArea.selectedColor)
      && currentSelectedFilePath == Some("")
    }

    /** `newFile`. */
    method NewFile()
      modifies drawArea`pen, client`actionList, chat`lines, this`currentSelectedFilePath
      ensures NewFileDone()
    {
      drawArea.Clear();
      client.Enqueue(Message2(client.userInfo, Some(ACTION_CLEAR)));
      chat.Append(MSG_CLEAR);
      currentSelectedFilePath := Some("");
    }

    /** What OPEN does: a cancelled dialog changes nothing; otherwise the chosen path is
        kept, the image that was read replaces the board and is queued for the others as one
        LOAD_IMAGE for everyone. An IOException empties the path again and is reported; the
        board is cleared only once `ImageIO.read` has worked. */
    twostate predicate LoadFileDone(choice: Choice, read: FileRead)
      reads client`actionList, client`userInfo, chat`lines, drawArea`pen, drawArea`selectedColor
      reads this`currentSelectedFilePath
    {
      && (choice.Cancel? ==>
            && currentSelectedFilePath == old(currentSelectedFilePath)
            && client.actionList == old(client.actionList) && chat.lines == old(chat.lines)
            && drawArea.pen == old(drawArea.pen))
      && (choice.Approve? && read.Read? ==>
            && currentSelectedFilePath == Some(choice.path)
            && client.actionList == old(client.actionList) + [LoadImageEvent(client.userInfo, read.encoded)]
            && chat.lines == old(chat.lines) + [MSG_LOAD_IMAGE])
      && (choice.Approve? && !read.Read? ==>
            && currentSelectedFilePath == Some("")
            && client.actionList == old(client.actionList)
            && chat.lines == old(chat.lines) + [MSG_LOAD_IMAGE_ERROR])
      && (choice.Approve? ==>
            drawArea.pen == if read.ImageFailed? then old(drawArea.pen) else ClearedPen(drawArea.selectedColor))
    }

    /** `loadFile`. */
    method LoadFile(choice: Choice, read: FileRead)
      modifies drawArea`pen, client`actionList, chat`lines, this`currentSelectedFilePath
      ensures LoadFileDone(choice, read)
    {
      if choice.Cancel? {
        return;
      }
      currentSelectedFilePath := Some(choice.path);
      if read.ImageFailed? {
        currentSelectedFilePath := Some("");
        chat.Append(MSG_LOAD_IMAGE_ERROR);
        return;
      }
      drawArea.Clear();
      if read.BytesFailed? {
        currentSelectedFilePath := Some("");
        chat.Append(MSG_LOAD_IMAGE_ERROR);
        return;
      }
      var loadFileEvent := Message2(client.userInfo, Some(ACTION_LOAD_IMAGE));
      loadFileEvent := loadFileEvent.(drawboardImage := Some(read.encoded));
      client.Enqueue(loadFileEvent);
      chat.Append(MSG_LOAD_IMAGE);
    }

    /** `saveFileAsImage`: a cancelled dialog changes nothing; otherwise the chosen path,
        made to end in ".png", becomes the current file, and a failed write empties it. */
    twostate predicate SaveAsDone(choice: Choice, written: bool)
      reads chat`lines, this`currentSelectedFilePath
    {
      && (choice.Cancel? ==> currentSelectedFilePath == old(currentSelectedFilePath) && chat.lines == old(chat.lines))
      && (choice.Approve? && written ==>
            currentSelectedFilePath == Some(PngPath(choice.path)) && chat.lines == old(chat.lines) + [MSG_FILE_SAVED])
      && (choice.Approve? && !written ==>
            currentSelectedFilePath == Some("") && chat.lines == old(chat.lines) + [MSG_FILE_SAVED_ERROR])
    }

    /** `saveFileAsImage`. */
    method SaveFileAsImage(choice: Choice, written: bool)
      modifies chat`lines, this`currentSelectedFilePath
      ensures SaveAsDone(choice, written)
    {
      if choice.Cancel? {
        return;
      }
      var saveFile := choice.path;
      if !EndsWith(ToLower(saveFile), ".png") {
        saveFile := saveFile + ".png";
      }
      currentSelectedFilePath := Some(saveFile);
      if written {
        chat.Append(MSG_FILE_SAVED);
      } else {
        currentSelectedFilePath := Some("");
        chat.Append(MSG_FILE_SAVED_ERROR);
      }
    }

    /** What SAVE does: without a current file it is save-as; with one it writes there
        and keeps the path whether or not the write works, and reports the result. */
    twostate predicate SaveDone(choice: Choice, written: bool)
      reads chat`lines, this`currentSelectedFilePath
    {
      && (IsBlank(old(currentSelectedFilePath)) ==> SaveAsDone(choice, written))
      && (!IsBlank(old(currentSelectedFilePath)) ==>
            && currentSelectedFilePath == old(currentSelectedFilePath)
            && chat.lines == old(chat.lines) + [if written then MSG_FILE_SAVED else MSG_FILE_SAVED_ERROR])
    }

    /** `saveToCurrentFile`. */
    method SaveToCurrentFile(choice: Choice, written: bool)
      modifies chat`lines, this`currentSelectedFilePath
      ensures SaveDone(choice, written)
    {
      if IsBlank(currentSelectedFilePath) {
        SaveFileAsImage(choice, written);
      } else if written {
        chat.Append(MSG_FILE_SAVED);
      } else {
        chat.Append(MSG_FILE_SAVED_ERROR);
      }
    }

    /** `actionPerformed`: the button's command picks the operation by its exact name; a
        disabled button does not fire, and any other command does nothing. */
    method ActionPerformed(command: string, choice: Choice, read: FileRead, written: bool)
      modifies drawArea`pen, client`actionList, chat`lines, this`currentSelectedFilePath
      ensures buttonsEnabled && command == FILE_NEW ==> NewFileDone()
      ensures buttonsEnabled && command == FILE_OPEN ==> LoadFileDone(choice, read)
      ensures buttonsEnabled && command == FILE_SAVE ==>
        SaveDone(choice, written) && unchanged(drawArea`pen, client`actionList)
      ensures buttonsEnabled && command == FILE_SAVE_AS ==>
        SaveAsDone(choice, written) && unchanged(drawArea`pen, client`actionList)
      ensures !buttonsEnabled || command !in {FILE_NEW, FILE_OPEN, FILE_SAVE, FILE_SAVE_AS} ==>
        unchanged(drawArea`pen, client`actionList, chat`lines, this`currentSelectedFilePath)
    {
      if !buttonsEnabled {
        return;
      }
      if command == FILE_NEW {
        NewFile();
      } else if command == FILE_OPEN {
        LoadFile(choice, read);
      } else if command == FILE_SAVE {
        SaveToCurrentFile(choice, written);
      } else if command == FILE_SAVE_AS {
        SaveFileAsImage(choice, written);
      }
    }
  }
}
