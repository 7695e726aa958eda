/** The values the chat client exchanges with its server and with the page. */
module Protocol {

  datatype Option<+T> = None | Some(value: T)

  /** A frame the client writes to the socket. */
  datatype Frame =
    | NickFrame(nick: string)                 // {type: "nick", nick}
    | ChatFrame(nick: string, text: string)   // {type: "chat", nick, text}

  /** One inbound socket message after `JSON.parse`, by its `type` field.
      `Malformed` is a payload that is not JSON; `UnknownMsg` is JSON whose
      `type` matches none of the handled cases. A `minutes` field is kept as
      the text the page interpolates into its notice. */
  datatype Inbound =
    | Malformed(raw: string)
    | ErrorMsg(message: string)
    | NickMsg
    | ChatMsg(nick: string, text: string, timestamp: string)
    | UsersMsg(users: seq<string>)
    | HighlightMsg(text: string)
    | ClearMsg
    | KickMsg(minutes: string)
    | BanMsg(minutes: string)
    | UnknownMsg(kind: string)

  /** The module-level `ws` and its `readyState`: no socket yet, or a socket
      that is CONNECTING, OPEN, CLOSING or CLOSED. */
  datatype Conn = NoSocket | Connecting | Open | Closing | Closed

  /** The arguments of one `displayMessage` call. */
  datatype Message = Message(nick: string, text: string, timestamp: string, isSystem: bool, isHighlight: bool)

  /** How the roster marks an entry: the administrator `nimda`, this client, or anyone else. */
  datatype Role = Administrator | You | Member

  datatype RosterEntry = RosterEntry(nick: string, role: Role, mutedMark: bool)

  /** What a handler asks the page to do, in order. */
  datatype ViewEffect =
    | ShowPrompt(title: string, notice: string, askNick: bool)   // showModal
    | HidePrompt                                                  // hideModal
    | Display(msg: Message)                                       // displayMessage
    | ClearTranscript                                             // messageArea emptied
    | Roster(entries: seq<RosterEntry>)                           // user list rebuilt
    | InputState(disabled: bool, placeholder: string)             // updateInputState
    | ClearChatInput                                              // chatInput.value = ''

  /** The sender name that marks a server notice. */
  const SystemNick := "SYSTEM"

  /** Milliseconds before a reconnect attempt. */
  const ReconnectDelay: nat := 3000
}
