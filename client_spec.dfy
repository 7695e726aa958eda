/** The client's session state and, for each handler, the state it leaves
    behind. The socket, the timer and the page are not called: what the
    handlers do to them is appended to logs in the state. */
module ClientSpec {
  import opened Strings
  import opened Protocol

  datatype Client = Client(
    nick: Option<string>,   // currentNick
    muted: bool,            // isMuted
    banned: bool,           // isBanned
    conn: Conn,             // ws and ws.readyState
    sent: seq<Frame>,       // every ws.send, in order
    timers: seq<nat>,       // the delay of every setTimeout(connectWebSocket, ...)
    fired: nat,             // how many of those timers have fired
    closes: nat,            // how many times ws.close() was called
    sockets: nat,           // how many sockets were created
    view: seq<ViewEffect>)  // what the handlers asked the page to show

  /** The globals as the script declares them, before the page has loaded. */
  const Initial := Client(None, false, false, NoSocket, [], [], 0, 0, 0, [])

  /** JavaScript truthiness of `currentNick`: set and not the empty string. */
  predicate HasNick(nick: Option<string>) {
    nick.Some? && nick.value != ""
  }

  /** The disabled state of the chat input and send button: sending is
      enabled exactly when a socket exists and is open, a nick is set, and the
      client is neither muted nor banned. Wherever the placeholder chain is
      defined, the input is disabled exactly when that chain does not end in
      the default text. */
  function InputDisabled(c: Client): (disabled: bool)
    ensures PlaceholderDefined(c) ==> (disabled <==> Placeholder(c) != DefaultPlaceholder)
  {
    c.conn != Open || !HasNick(c.nick) || c.muted || c.banned
  }

  const DefaultPlaceholder := "Type a message or command (e.g., /help)"
  const BannedPlaceholder := "You are currently banned and cannot send messages."
  const MutedPlaceholder := "You are currently muted and cannot send messages."
  const NoNickPlaceholder := "Please set your nickname to chat."
  const LostPlaceholder := "Connection lost. Please refresh or check status."

  /** The placeholder chain reads `ws.readyState` in its last test, which
      throws when no socket exists yet. */
  predicate PlaceholderDefined(c: Client) {
    c.banned || c.muted || !HasNick(c.nick) || c.conn != NoSocket
  }

  /** The chat input's placeholder: banned first, then muted, then no nick,
      then a socket that is not open. */
  function Placeholder(c: Client): (p: string)
    requires PlaceholderDefined(c)
    ensures p == BannedPlaceholder <==> c.banned
    ensures p == MutedPlaceholder <==> !c.banned && c.muted
    ensures p == NoNickPlaceholder <==> !c.banned && !c.muted && !HasNick(c.nick)
    ensures p == LostPlaceholder <==> !c.banned && !c.muted && HasNick(c.nick) && c.conn != Open
  {
    if c.banned then BannedPlaceholder
    else if c.muted then MutedPlaceholder
    else if !HasNick(c.nick) then NoNickPlaceholder
    else if c.conn != Open then LostPlaceholder
    else DefaultPlaceholder
  }

  function Show(c: Client, v: ViewEffect): Client {
    c.(view := c.view + [v])
  }

  /** updateInputState: records the input's disabled flag and placeholder. */
  function UpdateInput(c: Client): Client
    requires PlaceholderDefined(c)
  {
    Show(c, InputState(InputDisabled(c), Placeholder(c)))
  }

  /** connectWebSocket: a new socket replaces `ws`, in the CONNECTING state. */
  function Connect(c: Client): Client {
    c.(conn := Connecting, sockets := c.sockets + 1)
  }

  /** ws.close(): a connecting or open socket starts closing; a closing or
      closed one is left as it is. */
  function CloseSocket(c: Client): Client {
    c.(closes := c.closes + 1,
       conn := if c.conn == Connecting || c.conn == Open then Closing else c.conn)
  }

  const SetNickTitle := "Set Nickname"
  const SetNickNotice := "Please choose a nickname to join the chat."

  /** ws.onopen: re-send a stored nick unless banned; with no nick and no
      ban, ask for one. */
  function OnOpen(c: Client): Client
    requires c.conn != NoSocket
  {
    var d := c.(conn := Open);
    if HasNick(c.nick) && !c.banned then
      UpdateInput(d.(sent := d.sent + [NickFrame(c.nick.value)]))
    else if !c.banned then
      UpdateInput(Show(d, ShowPrompt(SetNickTitle, SetNickNotice, true)))
    else
      UpdateInput(d)
  }

  /** The roster entry the users handler builds for one nick. */
  function EntryFor(c: Client, n: string): RosterEntry {
    RosterEntry(n,
      if ToLowerAscii(n) == "nimda" then Administrator else if c.nick == Some(n) then You else Member,
      c.muted && c.nick == Some(n))
  }

  /** The users handler's list: one entry per element of `users`, in order,
      duplicates kept. */
  function RosterOf(c: Client, users: seq<string>): (r: seq<RosterEntry>)
    ensures |r| == |users|
    ensures forall i | 0 <= i < |r| :: r[i].nick == users[i]
  {
    seq(|users|, i requires 0 <= i < |users| => EntryFor(c, users[i]))
  }

  const AnnouncementPrefix := "Admin Announcement: "

  /** kick and ban: the client marks itself banned and not muted, shows a
      notice without the nick form, closes the socket and disables input. */
  function Suspend(c: Client, title: string, notice: string): Client
    requires c.conn != NoSocket
  {
    UpdateInput(CloseSocket(Show(c.(banned := true, muted := false), ShowPrompt(title, notice, false))))
  }

  /** ws.onmessage, for a message already decoded; `now` is the local time
      string a highlight is stamped with. */
  function OnMessage(c: Client, m: Inbound, now: string): Client
    requires c.conn != NoSocket
  {
    match m
    case Malformed(_) => c
    case ErrorMsg(text) => Show(c, ShowPrompt("Error", text, true))
    case NickMsg => c
    case ChatMsg(n, text, ts) => Show(c, Display(Message(n, text, ts, n == SystemNick, false)))
    case UsersMsg(users) => Show(c, Roster(RosterOf(c, users)))
    case HighlightMsg(text) => Show(c, Display(Message(SystemNick, AnnouncementPrefix + text, now, true, true)))
    case ClearMsg => Show(c, ClearTranscript)
    case KickMsg(minutes) => Suspend(c, "Kicked", "You have been kicked for " + minutes + " minutes.")
    case BanMsg(minutes) => Suspend(c, "Banned", "You have been banned for " + minutes + " minutes.")
    case UnknownMsg(_) => c
  }

  const LostNotice := "Connection lost. Attempting to reconnect..."

  /** ws.onclose: with a nick and no ban, announce the loss and schedule a
      reconnect; every such close schedules one more. */
  function OnClose(c: Client, now: string): Client
    requires c.conn != NoSocket
  {
    var d := c.(conn := Closed);
    if HasNick(c.nick) && !c.banned then
      UpdateInput(Show(d, Display(Message(SystemNick, LostNotice, now, true, false))).(timers := d.timers + [ReconnectDelay]))
    else
      UpdateInput(d)
  }

  /** ws.onerror: close the socket and refresh the input. */
  function OnError(c: Client): Client
    requires c.conn != NoSocket
  {
    UpdateInput(CloseSocket(c))
  }

  /** A scheduled reconnect fires and calls connectWebSocket. */
  function OnTimer(c: Client): Client
    requires c.fired < |c.timers|
  {
    Connect(c.(fired := c.fired + 1))
  }

  /** The nick form's submit handler as the script writes it: a non-blank
      trimmed nick is stored and sent on an open socket, or a connection is
      started; the input state is not refreshed. */
  function SubmitNickAsWritten(c: Client, input: string): (d: Client)
    ensures Trim(input) == "" ==> d == c
    ensures Trim(input) != "" ==> d.nick == Some(Trim(input)) && d.view == c.view + [HidePrompt]
  {
    var t := Trim(input);
    if t == "" then c
    else
      var d := Show(c.(nick := Some(t)), HidePrompt);
      if c.conn == Open then d.(sent := d.sent + [NickFrame(t)]) else Connect(d)
  }

  /** The nick form's submit handler with the input state refreshed at the
      end, as every other handler that changes a gating field does. This is
      the corrected handler of the README's Findings; `Step` uses the handler
      as written. */
  function SubmitNickFixed(c: Client, input: string): Client {
    if Trim(input) == "" then c else UpdateInput(SubmitNickAsWritten(c, input))
  }

  const HelpText := "Available Admin Commands (Requires Nick 'nimda'): /ban [nick], /kick [nick], /mute [nick], /unmute [nick], /rename [old_nick] [new_nick], /freeze, /unfreeze, /clear, /highlight [text]."

  /** The chat form's submit handler: with a nick and an open socket, a
      trimmed non-blank text is answered locally if it is `/help` and sent
      otherwise; `now` stamps the local help message. */
  function SubmitChat(c: Client, input: string, now: string): Client {
    var t := Trim(input);
    if t == "" then c
    else if HasNick(c.nick) && c.conn == Open then
      var d := if IsHelpCommand(t) then Show(c, Display(Message(SystemNick, HelpText, now, true, false)))
               else c.(sent := c.sent + [ChatFrame(c.nick.value, t)]);
      Show(d, ClearChatInput)
    else c
  }

  /** Everything that can happen to the client. */
  datatype Event =
    | PageLoad
    | TransportOpen
    | TransportMessage(m: Inbound, now: string)
    | TransportClose(now: string)
    | TransportError
    | ReconnectTimer
    | NickSubmit(input: string)
    | ChatSubmit(input: string, now: string)

  /** Socket events only reach an existing socket; a timer fires only once it
      has been scheduled. */
  predicate Enabled(c: Client, e: Event) {
    match e
    case TransportOpen => c.conn != NoSocket
    case TransportMessage(_, _) => c.conn != NoSocket
    case TransportClose(_) => c.conn != NoSocket
    case TransportError => c.conn != NoSocket
    case ReconnectTimer => c.fired < |c.timers|
    case _ => true
  }

  /** One event, dispatched to its handler. No event lifts a ban, and none
      sets isMuted. */
  function Step(c: Client, e: Event): (d: Client)
    requires Enabled(c, e)
    ensures c.banned ==> d.banned
    ensures !c.muted ==> !d.muted
  {
    match e
    case PageLoad => Connect(c)
    case TransportOpen => OnOpen(c)
    case TransportMessage(m, now) => OnMessage(c, m, now)
    case TransportClose(now) => OnClose(c, now)
    case TransportError => OnError(c)
    case ReconnectTimer => OnTimer(c)
    case NickSubmit(input) => SubmitNickAsWritten(c, input)
    case ChatSubmit(input, now) => SubmitChat(c, input, now)
  }

  /** `Step` with the corrected nick handler. */
  function StepFixed(c: Client, e: Event): Client
    requires Enabled(c, e)
  {
    if e.NickSubmit? then SubmitNickFixed(c, e.input) else Step(c, e)
  }

  predicate Admissible(c: Client, es: seq<Event>)
    decreases |es|
  {
    es == [] || (Enabled(c, es[0]) && Admissible(Step(c, es[0]), es[1..]))
  }

  function Run(c: Client, es: seq<Event>): Client
    requires Admissible(c, es)
    decreases |es|
  {
    if es == [] then c else Run(Step(c, es[0]), es[1..])
  }
}
