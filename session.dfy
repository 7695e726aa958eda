/** The client script's globals and handlers as one object. Each handler
    updates the fields in place, as the script updates its module-level
    variables, and is proved to leave the state its specification in
    ClientSpec describes. */
module Session {
  import opened Strings
  import opened Protocol
  import ClientSpec

  class ChatSession {
    var nick: Option<string>
    var muted: bool
    var banned: bool
    var conn: Conn
    var sent: seq<Frame>
    var timers: seq<nat>
    var fired: nat
    var closes: nat
    var sockets: nat
    var view: seq<ViewEffect>

    /** The object's fields as a specification value. */
    function State(): ClientSpec.Client
      reads this
    {
      ClientSpec.Client(nick, muted, banned, conn, sent, timers, fired, closes, sockets, view)
    }

    /** The globals as declared: no socket, no nick, neither muted nor banned. */
    constructor ()
      ensures State() == ClientSpec.Initial
    {
      nick, muted, banned, conn := None, false, false, NoSocket;
      sent, timers, fired, closes, sockets, view := [], [], 0, 0, 0, [];
    }

    method UpdateInputState()
      requires ClientSpec.PlaceholderDefined(State())
      modifies this
      ensures State() == ClientSpec.UpdateInput(old(State()))
    {
      var disabled := ClientSpec.InputDisabled(State());
      var placeholder := ClientSpec.Placeholder(State());
      view := view + [InputState(disabled, placeholder)];
    }

    method ConnectWebSocket()
      modifies this
      ensures State() == ClientSpec.Connect(old(State()))
    {
      conn := Connecting;
      sockets := sockets + 1;
    }

    method CloseSocket()
      modifies this
      ensures State() == ClientSpec.CloseSocket(old(State()))
    {
      closes := closes + 1;
      if conn == Connecting || conn == Open {
        conn := Closing;
      }
    }

    method OnOpen()
      requires conn != NoSocket
      modifies this
      ensures State() == ClientSpec.OnOpen(old(State()))
    {
      conn := Open;
      if ClientSpec.HasNick(nick) && !banned {
        sent := sent + [NickFrame(nick.value)];
      } else if !banned {
        view := view + [ShowPrompt(ClientSpec.SetNickTitle, ClientSpec.SetNickNotice, true)];
      }
      UpdateInputState();
    }

    /** The users handler's loop: one roster entry per listed name, in order. */
    method RosterFor(users: seq<string>) returns (entries: seq<RosterEntry>)
      ensures entries == ClientSpec.RosterOf(State(), users)
    {
      entries := [];
      var i := 0;
      while i < |users|
        invariant 0 <= i <= |users|
        invariant |entries| == i
        invariant forall k | 0 <= k < i :: entries[k] == ClientSpec.EntryFor(State(), users[k])
      {
        entries := entries + [ClientSpec.EntryFor(State(), users[i])];
        i := i + 1;
      }
    }

    method Suspend(title: string, notice: string)
      requires conn != NoSocket
      modifies this
      ensures State() == ClientSpec.Suspend(old(State()), title, notice)
    {
      banned := true;
      muted := false;
      view := view + [ShowPrompt(title, notice, false)];
      CloseSocket();
      UpdateInputState();
    }

    method OnMessage(m: Inbound, now: string)
      requires conn != NoSocket
      modifies this
      ensures State() == ClientSpec.OnMessage(old(State()), m, now)
    {
      match m {
        case Malformed(_) =>
        case ErrorMsg(text) =>
          view := view + [ShowPrompt("Error", text, true)];
        case NickMsg =>
        case ChatMsg(n, text, ts) =>
          var isSystem := n == SystemNick;
          view := view + [Display(Message(n, text, ts, isSystem, false))];
        case UsersMsg(users) =>
          var entries := RosterFor(users);
          view := view + [Roster(entries)];
        case HighlightMsg(text) =>
          view := view + [Display(Message(SystemNick, ClientSpec.AnnouncementPrefix + text, now, true, true))];
        case ClearMsg =>
          view := view + [ClearTranscript];
        case KickMsg(minutes) =>
          Suspend("Kicked", "You have been kicked for " + minutes + " minutes.");
        case BanMsg(minutes) =>
          Suspend("Banned", "You have been banned for " + minutes + " minutes.");
        case UnknownMsg(_) =>
      }
    }

    method OnClose(now: string)
      requires conn != NoSocket
      modifies this
      ensures State() == ClientSpec.OnClose(old(State()), now)
    {
      conn := Closed;
      if ClientSpec.HasNick(nick) && !banned {
        view := view + [Display(Message(SystemNick, ClientSpec.LostNotice, now, true, false))];
        timers := timers + [ReconnectDelay];
      }
      UpdateInputState();
    }

    method OnError()
      requires conn != NoSocket
      modifies this
      ensures State() == ClientSpec.OnError(old(State()))
    {
      CloseSocket();
      UpdateInputState();
    }

    /** A pending reconnect timer fires. */
    method OnTimer()
      requires fired < |timers|
      modifies this
      ensures State() == ClientSpec.OnTimer(old(State()))
    {
      fired := fired + 1;
      ConnectWebSocket();
    }

    /** The nick form's submit handler; like the script, it does not refresh
        the input state. */
    method SubmitNick(input: string)
      modifies this
      ensures State() == ClientSpec.SubmitNickAsWritten(old(State()), input)
    {
      var newNick := Trim(input);
      if newNick != "" {
        nick := Some(newNick);
        view := view + [HidePrompt];
        if conn == Open {
          sent := sent + [NickFrame(newNick)];
        } else {
          ConnectWebSocket();
        }
      }
    }

    method SubmitChat(input: string, now: string)
      modifies this
      ensures State() == ClientSpec.SubmitChat(old(State()), input, now)
    {
      var text := Trim(input);
      if text == "" {
        return;
      }
      if ClientSpec.HasNick(nick) && conn == Open {
        if IsHelpCommand(text) {
          view := view + [Display(Message(SystemNick, ClientSpec.HelpText, now, true, false))];
        } else {
          sent := sent + [ChatFrame(nick.value, text)];
        }
        view := view + [ClearChatInput];
      }
    }

    /** One event, dispatched to its handler. */
    method Handle(e: ClientSpec.Event)
      requires ClientSpec.Enabled(State(), e)
      modifies this
      ensures State() == ClientSpec.Step(old(State()), e)
    {
      match e {
        case PageLoad => ConnectWebSocket();
        case TransportOpen => OnOpen();
        case TransportMessage(m, now) => OnMessage(m, now);
        case TransportClose(now) => OnClose(now);
        case TransportError => OnError();
        case ReconnectTimer => OnTimer();
        case NickSubmit(input) => SubmitNick(input);
        case ChatSubmit(input, now) => SubmitChat(input, now);
      }
    }
  }
}
