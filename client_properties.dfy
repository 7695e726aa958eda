/** What the handlers promise, one handler at a time and over every sequence
    of events. */
module ClientProperties {
  import opened Strings
  import opened Protocol
  import opened ClientSpec

  predicate Prompted(vs: seq<ViewEffect>) {
    exists k | 0 <= k < |vs| :: vs[k].ShowPrompt?
  }

  /** The gating fields and the socket are as they were. */
  predicate SameSession(c: Client, d: Client) {
    d.nick == c.nick && d.muted == c.muted && d.banned == c.banned && d.conn == c.conn
  }

  // ---------------------------------------------------------------------------
  // One handler at a time
  // ---------------------------------------------------------------------------

  /** On open, a stored nick is re-sent as exactly one nick frame unless the
      client is banned; with no nick and no ban the nick prompt is shown and
      nothing is sent; a banned client sends nothing and sees no prompt. */
  lemma OpenReRegisters(c: Client)
    requires c.conn != NoSocket
    ensures var d := OnOpen(c);
      d.conn == Open && d.nick == c.nick && d.muted == c.muted && d.banned == c.banned
      && d.timers == c.timers && d.closes == c.closes && c.view <= d.view
      && (HasNick(c.nick) && !c.banned ==>
            d.sent == c.sent + [NickFrame(c.nick.value)] && !Prompted(d.view[|c.view|..]))
      && (!HasNick(c.nick) && !c.banned ==>
            d.sent == c.sent && ShowPrompt(SetNickTitle, SetNickNotice, true) in d.view[|c.view|..])
      && (c.banned ==> d.sent == c.sent && !Prompted(d.view[|c.view|..]))
  {
    var d := OnOpen(c);
    if HasNick(c.nick) || c.banned {
      assert |d.view| == |c.view| + 1 && d.view[|c.view|].InputState?;
    } else {
      assert d.view[|c.view|] == ShowPrompt(SetNickTitle, SetNickNotice, true);
    }
  }

  /** A payload that is not JSON, or JSON of a type no case handles, changes nothing. */
  lemma IgnoredMessagesChangeNothing(c: Client, m: Inbound, now: string)
    requires c.conn != NoSocket
    requires m.Malformed? || m.UnknownMsg?
    ensures OnMessage(c, m, now) == c
  {
  }

  /** error, nick, chat, users, highlight and clear touch neither the gating
      fields nor the socket, send nothing, and add at most one view effect; an
      inbound chat is a system message exactly when its sender is SYSTEM, and
      the roster keeps every name the server listed, duplicates included. */
  lemma PassiveMessages(c: Client, m: Inbound, now: string)
    requires c.conn != NoSocket
    requires m.ErrorMsg? || m.NickMsg? || m.ChatMsg? || m.UsersMsg? || m.HighlightMsg? || m.ClearMsg?
    ensures var d := OnMessage(c, m, now);
      SameSession(c, d) && d.sent == c.sent && d.timers == c.timers && d.closes == c.closes
      && d.sockets == c.sockets && c.view <= d.view && |d.view| <= |c.view| + 1
      && (m.ErrorMsg? ==> d.view == c.view + [ShowPrompt("Error", m.message, true)])
      && (m.ChatMsg? ==> d.view == c.view + [Display(Message(m.nick, m.text, m.timestamp, m.nick == "SYSTEM", false))])
      && (m.UsersMsg? ==> exists r: seq<RosterEntry> :: d.view == c.view + [Roster(r)] && |r| == |m.users|
                                 && forall i | 0 <= i < |r| :: r[i].nick == m.users[i])
      && (m.HighlightMsg? ==> d.view[|c.view|].Display? && d.view[|c.view|].msg.isSystem && d.view[|c.view|].msg.isHighlight)
      && (m.ClearMsg? ==> d.view == c.view + [ClearTranscript])
  {
    if m.UsersMsg? {
      var r := RosterOf(c, m.users);
      assert OnMessage(c, m, now).view == c.view + [Roster(r)];
    }
  }

  /** kick and ban mark the client banned and not muted, keep its nick,
      request exactly one close, send nothing, disable input, and the close
      that follows schedules no reconnect. */
  lemma ModerationSuspends(c: Client, m: Inbound, now: string, later: string)
    requires c.conn != NoSocket
    requires m.KickMsg? || m.BanMsg?
    ensures var d := OnMessage(c, m, now);
      d.banned && !d.muted && d.nick == c.nick && d.sent == c.sent && d.closes == c.closes + 1
      && d.conn != Open && InputDisabled(d) && d.timers == c.timers
      && OnClose(d, later).timers == c.timers
  {
  }

  /** A close schedules one reconnect of 3000 ms exactly when a nick is set
      and the client is not banned, and changes no gating field. */
  lemma ClosePolicy(c: Client, now: string)
    requires c.conn != NoSocket
    ensures var d := OnClose(c, now);
      d.conn == Closed && d.nick == c.nick && d.muted == c.muted && d.banned == c.banned
      && d.sent == c.sent && d.fired == c.fired
      && d.timers == c.timers + (if HasNick(c.nick) && !c.banned then [ReconnectDelay] else [])
  {
  }

  /** Nothing stops a second close from scheduling a second reconnect while
      the first is still pending. */
  lemma EveryCloseSchedules(c: Client, now1: string, now2: string)
    requires c.conn != NoSocket && HasNick(c.nick) && !c.banned
    ensures var d := OnClose(Connect(OnClose(c, now1)), now2);
      d.timers == c.timers + [ReconnectDelay, ReconnectDelay] && d.fired == c.fired
  {
  }

  /** A blank nick changes nothing; otherwise the trimmed nick becomes the
      current nick and is sent at once on an open socket, or a connection is
      started, whose open will send it. */
  lemma NickSubmitCases(c: Client, input: string)
    ensures var t, d := Trim(input), SubmitNickAsWritten(c, input);
      (t == "" ==> d == c)
      && (t != "" ==> d.nick == Some(t) && HasNick(d.nick) && d.muted == c.muted && d.banned == c.banned
                      && d.timers == c.timers && d.closes == c.closes)
      && (t != "" && c.conn == Open ==> d.sent == c.sent + [NickFrame(t)] && d.conn == Open && d.sockets == c.sockets)
      && (t != "" && c.conn != Open ==> d.sent == c.sent && d.conn == Connecting && d.sockets == c.sockets + 1)
  {
  }

  /** A chat submit sends exactly one frame, Chat(currentNick, trimmed), when
      the trimmed text is non-blank and not /help, a nick is set and the
      socket is open, and sends nothing otherwise; /help is answered with a
      local system message; no gating field changes. */
  lemma ChatSubmitCases(c: Client, input: string, now: string)
    ensures var t, d := Trim(input), SubmitChat(c, input, now);
      SameSession(c, d) && d.timers == c.timers && d.closes == c.closes && c.view <= d.view
      && (d.sent != c.sent <==> t != "" && HasNick(c.nick) && c.conn == Open && !IsHelpCommand(t))
      && (d.sent != c.sent ==> d.sent == c.sent + [ChatFrame(c.nick.value, t)])
      && (IsHelpCommand(t) && HasNick(c.nick) && c.conn == Open ==>
            Display(Message(SystemNick, HelpText, now, true, false)) in d.view[|c.view|..])
  {
    var t, d := Trim(input), SubmitChat(c, input, now);
    if IsHelpCommand(t) && HasNick(c.nick) && c.conn == Open {
      HelpCommandSpelling(t);
      assert d.view[|c.view|] == Display(Message(SystemNick, HelpText, now, true, false));
    }
  }

  /** The submit handler itself never reads isMuted or isBanned: the frames it
      sends are the same whatever the moderation flags. Gating against a muted
      or banned client is left to the disabled input (`RunGated`). */
  lemma ChatSubmitIgnoresModeration(c: Client, input: string, now: string, muted: bool, banned: bool)
    ensures SubmitChat(c.(muted := muted, banned := banned), input, now).sent == SubmitChat(c, input, now).sent
  {
  }

  /** Whenever the chat input is enabled, submitting a non-blank text other
      than /help sends it under the current nick. */
  lemma EnabledInputSends(c: Client, input: string, now: string)
    requires !InputDisabled(c) && Trim(input) != "" && !IsHelpCommand(Trim(input))
    ensures SubmitChat(c, input, now).sent == c.sent + [ChatFrame(c.nick.value, Trim(input))]
  {
  }

  // ---------------------------------------------------------------------------
  // Over sequences of events
  // ---------------------------------------------------------------------------

  /** The logs only grow, the timer count never passes the schedule, and a ban
      is never lifted. */
  predicate Extends(c: Client, d: Client) {
    c.sent <= d.sent && c.view <= d.view && c.timers <= d.timers && c.fired <= d.fired
    && c.closes <= d.closes && c.sockets <= d.sockets && (c.banned ==> d.banned)
  }

  lemma MessageExtends(c: Client, m: Inbound, now: string)
    requires c.conn != NoSocket
    ensures Extends(c, OnMessage(c, m, now))
  {
    match m
    case KickMsg(minutes) =>
    case BanMsg(minutes) =>
    case _ =>
  }

  lemma OpenExtends(c: Client)
    requires c.conn != NoSocket
    ensures Extends(c, OnOpen(c))
  {
  }

  lemma CloseExtends(c: Client, now: string)
    requires c.conn != NoSocket
    ensures Extends(c, OnClose(c, now))
  {
  }

  lemma ErrorExtends(c: Client)
    requires c.conn != NoSocket
    ensures Extends(c, OnError(c))
  {
  }

  lemma NickSubmitExtends(c: Client, input: string)
    ensures Extends(c, SubmitNickAsWritten(c, input))
  {
  }

  lemma ChatSubmitExtends(c: Client, input: string, now: string)
    ensures Extends(c, SubmitChat(c, input, now))
  {
  }

  lemma StepExtends(c: Client, e: Event)
    requires Enabled(c, e)
    ensures Extends(c, Step(c, e))
  {
    match e
    case PageLoad =>
    case TransportOpen => OpenExtends(c);
    case TransportMessage(m, now) => MessageExtends(c, m, now);
    case TransportClose(now) => CloseExtends(c, now);
    case TransportError => ErrorExtends(c);
    case ReconnectTimer =>
    case NickSubmit(input) => NickSubmitExtends(c, input);
    case ChatSubmit(input, now) => ChatSubmitExtends(c, input, now);
  }

  lemma {:induction false} RunExtends(c: Client, es: seq<Event>)
    requires Admissible(c, es)
    ensures Extends(c, Run(c, es))
    decreases |es|
  {
    if es != [] {
      StepExtends(c, es[0]);
      RunExtends(Step(c, es[0]), es[1..]);
    }
  }

  /** isBanned only becomes true on a kick or ban message. */
  lemma BanOnlyByModeration(c: Client, e: Event)
    requires Enabled(c, e) && !c.banned && Step(c, e).banned
    ensures e.TransportMessage? && (e.m.KickMsg? || e.m.BanMsg?)
  {
  }

  /** Once banned, no event schedules another reconnect. */
  lemma {:induction false} BannedSchedulesNoReconnect(c: Client, es: seq<Event>)
    requires Admissible(c, es) && c.banned
    ensures Run(c, es).timers == c.timers && Run(c, es).banned
    decreases |es|
  {
    if es != [] {
      StepExtends(c, es[0]);
      BannedSchedulesNoReconnect(Step(c, es[0]), es[1..]);
    }
  }

  /** A trimmed, non-blank text other than /help, submitted with a nick on an
      open socket, is sent as one chat frame. */
  lemma EnabledChatSends(c: Client, text: string, now: string)
    requires c.conn == Open && HasNick(c.nick)
    requires Trim(text) == text && text != "" && !IsHelpCommand(text)
    ensures SubmitChat(c, text, now).sent == c.sent + [ChatFrame(c.nick.value, text)]
  {
  }

  /** A dropped connection with a nick set schedules one reconnect; when it
      fires and the new socket opens, the nick is sent again before the next
      chat frame. */
  lemma {:induction false} ReconnectResendsNickFirst(c: Client, text: string, t1: string, t2: string)
    requires c.conn == Open && HasNick(c.nick) && !c.banned && !c.muted && c.fired == |c.timers|
    requires Trim(text) == text && text != "" && !IsHelpCommand(text)
    ensures var es := [TransportClose(t1), ReconnectTimer, TransportOpen, ChatSubmit(text, t2)];
      Admissible(c, es)
      && Run(c, es).sent == c.sent + [NickFrame(c.nick.value), ChatFrame(c.nick.value, text)]
      && Run(c, es).timers == c.timers + [ReconnectDelay]
  {
    var c1 := OnClose(c, t1);
    var c2 := OnTimer(c1);
    var c3 := OnOpen(c2);
    var c4 := SubmitChat(c3, text, t2);
    assert c3.sent == c.sent + [NickFrame(c.nick.value)] && c3.conn == Open && c3.nick == c.nick;
    EnabledChatSends(c3, text, t2);
    RunCons(c3, ChatSubmit(text, t2), []);
    RunCons(c2, TransportOpen, [ChatSubmit(text, t2)]);
    RunCons(c1, ReconnectTimer, [TransportOpen, ChatSubmit(text, t2)]);
    RunCons(c, TransportClose(t1), [ReconnectTimer, TransportOpen, ChatSubmit(text, t2)]);
  }

  /** Running one more event first. */
  lemma RunCons(c: Client, e: Event, es: seq<Event>)
    requires Enabled(c, e) && Admissible(Step(c, e), es)
    ensures Admissible(c, [e] + es) && Run(c, [e] + es) == Run(Step(c, e), es)
  {
    assert ([e] + es)[1..] == es;
  }

  /** A ban does not cancel a reconnect scheduled before it. After a drop
      that scheduled a reconnect, the nick is submitted again and opens a new
      socket, and the client is kicked on it; the timer then still fires and
      opens another socket for the banned client. */
  lemma PendingTimerOutlivesBan(c: Client, n: string, minutes: string, now: string)
    requires ValidNick(n) && c.nick == Some(n) && !c.banned && c.conn == Closed
    requires c.fired < |c.timers|
    ensures var es := [NickSubmit(n), TransportOpen, TransportMessage(KickMsg(minutes), now), ReconnectTimer];
      Admissible(c, es) && Run(c, es).banned && Run(c, es).conn == Connecting
      && Run(c, es).sockets == c.sockets + 2
  {
    var c1 := Step(c, NickSubmit(n));
    assert c1.conn == Connecting && !c1.banned && c1.timers == c.timers && c1.fired == c.fired && c1.sockets == c.sockets + 1;
    var c2 := Step(c1, TransportOpen);
    assert c2.timers == c.timers && c2.fired == c.fired && c2.sockets == c1.sockets;
    var c3 := Step(c2, TransportMessage(KickMsg(minutes), now));
    assert c3.banned && c3.timers == c.timers && c3.fired == c.fired && c3.sockets == c1.sockets;
    var c4 := Step(c3, ReconnectTimer);
    assert c4.banned && c4.conn == Connecting && c4.sockets == c.sockets + 2;
    RunCons(c3, ReconnectTimer, []);
    RunCons(c2, TransportMessage(KickMsg(minutes), now), [ReconnectTimer]);
    RunCons(c1, TransportOpen, [TransportMessage(KickMsg(minutes), now), ReconnectTimer]);
    RunCons(c, NickSubmit(n), [TransportOpen, TransportMessage(KickMsg(minutes), now), ReconnectTimer]);
  }

  /** A valid nick is non-blank and already trimmed. */
  predicate ValidNick(n: string) {
    n != "" && Trim(n) == n
  }

  predicate ValidFrame(f: Frame) {
    match f
    case NickFrame(n) => ValidNick(n)
    case ChatFrame(n, t) => ValidNick(n) && ValidNick(t) && !IsHelpCommand(t)
  }

  /** What holds in every state the client can reach: the nick is trimmed and
      non-blank, isMuted is false, no more timers fired than were scheduled,
      every delay is 3000 ms, and no frame on the wire is blank, untrimmed or
      /help. */
  predicate WellFormed(c: Client) {
    (c.nick.Some? ==> ValidNick(c.nick.value))
    && !c.muted
    && c.fired <= |c.timers|
    && (forall k | 0 <= k < |c.timers| :: c.timers[k] == ReconnectDelay)
    && (forall k | 0 <= k < |c.sent| :: ValidFrame(c.sent[k]))
  }

  /** Appending a valid frame keeps every frame valid. */
  lemma SendValid(sent: seq<Frame>, f: Frame)
    requires forall k | 0 <= k < |sent| :: ValidFrame(sent[k])
    requires ValidFrame(f)
    ensures forall k | 0 <= k < |sent + [f]| :: ValidFrame((sent + [f])[k])
  {
  }

  lemma MessageWellFormed(c: Client, m: Inbound, now: string)
    requires WellFormed(c) && c.conn != NoSocket
    ensures WellFormed(OnMessage(c, m, now))
  {
    var d := OnMessage(c, m, now);
    assert d.nick == c.nick && d.sent == c.sent && d.timers == c.timers && d.fired == c.fired && !d.muted by {
      match m
      case KickMsg(minutes) =>
      case BanMsg(minutes) =>
      case _ =>
    }
  }

  lemma OpenWellFormed(c: Client)
    requires WellFormed(c) && c.conn != NoSocket
    ensures WellFormed(OnOpen(c))
  {
    if HasNick(c.nick) && !c.banned {
      SendValid(c.sent, NickFrame(c.nick.value));
    }
  }

  lemma NickSubmitWellFormed(c: Client, input: string)
    requires WellFormed(c)
    ensures WellFormed(SubmitNickAsWritten(c, input))
  {
    var t := Trim(input);
    if t != "" {
      TrimIdempotent(input);
      if c.conn == Open {
        SendValid(c.sent, NickFrame(t));
      }
    }
  }

  lemma ChatSubmitWellFormed(c: Client, input: string, now: string)
    requires WellFormed(c)
    ensures WellFormed(SubmitChat(c, input, now))
  {
    var t := Trim(input);
    if t != "" && HasNick(c.nick) && c.conn == Open && !IsHelpCommand(t) {
      TrimIdempotent(input);
      SendValid(c.sent, ChatFrame(c.nick.value, t));
    }
  }

  lemma StepWellFormed(c: Client, e: Event)
    requires WellFormed(c) && Enabled(c, e)
    ensures WellFormed(Step(c, e))
  {
    match e
    case PageLoad =>
    case TransportOpen => OpenWellFormed(c);
    case TransportMessage(m, now) => MessageWellFormed(c, m, now);
    case TransportClose(now) =>
    case TransportError =>
    case ReconnectTimer =>
    case NickSubmit(input) => NickSubmitWellFormed(c, input);
    case ChatSubmit(input, now) => ChatSubmitWellFormed(c, input, now);
  }

  lemma {:induction false} RunWellFormed(c: Client, es: seq<Event>)
    requires WellFormed(c) && Admissible(c, es)
    ensures WellFormed(Run(c, es))
    decreases |es|
  {
    if es != [] {
      StepWellFormed(c, es[0]);
      RunWellFormed(Step(c, es[0]), es[1..]);
    }
  }

  /** From page load on: isMuted is never true, and /help never reaches the wire. */
  lemma ReachableWellFormed(es: seq<Event>)
    requires Admissible(Initial, es)
    ensures WellFormed(Run(Initial, es))
    ensures !Run(Initial, es).muted
    ensures forall k | 0 <= k < |Run(Initial, es).sent| ::
              Run(Initial, es).sent[k].ChatFrame? ==> !IsHelpCommand(Run(Initial, es).sent[k].text)
  {
    RunWellFormed(Initial, es);
  }

  // ---------------------------------------------------------------------------
  // The input state after a nick submit
  // ---------------------------------------------------------------------------

  /** The disabled flag of the most recent updateInputState, if any. */
  function LastInputDisabled(vs: seq<ViewEffect>): Option<bool> {
    if vs == [] then None
    else if vs[|vs| - 1].InputState? then Some(vs[|vs| - 1].disabled)
    else LastInputDisabled(vs[..|vs| - 1])
  }

  /** The page's chat input is enabled exactly when sending is allowed (or the
      page still shows its initial markup). */
  predicate InputFresh(c: Client) {
    LastInputDisabled(c.view) == None || LastInputDisabled(c.view) == Some(InputDisabled(c))
  }

  lemma LastInputAppend(vs: seq<ViewEffect>, v: ViewEffect)
    ensures LastInputDisabled(vs + [v]) == if v.InputState? then Some(v.disabled) else LastInputDisabled(vs)
  {
    assert (vs + [v])[..|vs|] == vs;
  }

  /** The handler as written: after the first nick is set on an open socket,
      sending is allowed but the input is still shown disabled, and stays so
      until another handler refreshes it. */
  lemma NickSubmitAsWrittenLeavesInputStale(c: Client, input: string)
    requires c.conn == Open && !c.banned && !c.muted && !HasNick(c.nick)
    requires LastInputDisabled(c.view) == Some(true) && Trim(input) != ""
    ensures var d := SubmitNickAsWritten(c, input);
      !InputDisabled(d) && LastInputDisabled(d.view) == Some(true) && !InputFresh(d)
  {
    LastInputAppend(c.view, HidePrompt);
  }

  /** The state above is the one every visitor reaches: page load, open, then
      the first nick. */
  lemma FirstNickLeavesInputStale()
    ensures var c := Run(Initial, [PageLoad, TransportOpen]);
      Admissible(Initial, [PageLoad, TransportOpen]) && InputFresh(c)
      && !InputFresh(SubmitNickAsWritten(c, "alice"))
  {
    var c0 := Connect(Initial);
    var c := OnOpen(c0);
    assert Run(Initial, [PageLoad, TransportOpen]) == c by {
      assert [PageLoad, TransportOpen][1..] == [TransportOpen];
      assert Run(c0, [TransportOpen]) == Run(c, []);
    }
    assert Trim("alice") == "alice" by {
      assert LeadingSpaces("alice") == 0;
      assert TrailingSpaces("alice") == 0;
    }
    LastInputAppend([ShowPrompt(SetNickTitle, SetNickNotice, true)], InputState(true, NoNickPlaceholder));
    NickSubmitAsWrittenLeavesInputStale(c, "alice");
  }

  /** Right after updateInputState the input is fresh. */
  lemma UpdateInputFresh(c: Client)
    requires PlaceholderDefined(c)
    ensures InputFresh(UpdateInput(c))
  {
    LastInputAppend(c.view, InputState(InputDisabled(c), Placeholder(c)));
  }

  /** A view effect other than updateInputState leaves the input as it was. */
  lemma ShowKeepsFresh(c: Client, v: ViewEffect)
    requires InputFresh(c) && !v.InputState?
    ensures InputFresh(Show(c, v))
  {
    LastInputAppend(c.view, v);
  }

  lemma MessageKeepsFresh(c: Client, m: Inbound, now: string)
    requires InputFresh(c) && c.conn != NoSocket
    ensures InputFresh(OnMessage(c, m, now))
  {
    match m
    case Malformed(_) =>
    case ErrorMsg(text) => ShowKeepsFresh(c, ShowPrompt("Error", text, true));
    case NickMsg =>
    case ChatMsg(n, text, ts) => ShowKeepsFresh(c, Display(Message(n, text, ts, n == SystemNick, false)));
    case UsersMsg(users) => ShowKeepsFresh(c, Roster(RosterOf(c, users)));
    case HighlightMsg(text) => ShowKeepsFresh(c, Display(Message(SystemNick, AnnouncementPrefix + text, now, true, true)));
    case ClearMsg => ShowKeepsFresh(c, ClearTranscript);
    case KickMsg(minutes) =>
      UpdateInputFresh(CloseSocket(Show(c.(banned := true, muted := false), ShowPrompt("Kicked", "You have been kicked for " + minutes + " minutes.", false))));
    case BanMsg(minutes) =>
      UpdateInputFresh(CloseSocket(Show(c.(banned := true, muted := false), ShowPrompt("Banned", "You have been banned for " + minutes + " minutes.", false))));
    case UnknownMsg(_) =>
  }

  lemma ChatSubmitKeepsFresh(c: Client, input: string, now: string)
    requires InputFresh(c)
    ensures InputFresh(SubmitChat(c, input, now))
  {
    var t := Trim(input);
    if t != "" && HasNick(c.nick) && c.conn == Open {
      var d := if IsHelpCommand(t) then Show(c, Display(Message(SystemNick, HelpText, now, true, false)))
               else c.(sent := c.sent + [ChatFrame(c.nick.value, t)]);
      if IsHelpCommand(t) {
        ShowKeepsFresh(c, Display(Message(SystemNick, HelpText, now, true, false)));
      }
      ShowKeepsFresh(d, ClearChatInput);
    }
  }

  /** With the corrected nick handler, every event except a reconnect replacing an open
      socket keeps the input's enabled state equal to the send-enabled
      predicate. */
  lemma InputFreshPreserved(c: Client, e: Event)
    requires InputFresh(c) && Enabled(c, e)
    requires !(c.conn == Open && (e.PageLoad? || e.ReconnectTimer?))
    ensures InputFresh(StepFixed(c, e))
  {
    match e
    case PageLoad =>
    case TransportOpen =>
      var d := c.(conn := Open);
      if HasNick(c.nick) && !c.banned {
        UpdateInputFresh(d.(sent := d.sent + [NickFrame(c.nick.value)]));
      } else if !c.banned {
        UpdateInputFresh(Show(d, ShowPrompt(SetNickTitle, SetNickNotice, true)));
      } else {
        UpdateInputFresh(d);
      }
    case TransportMessage(m, now) => MessageKeepsFresh(c, m, now);
    case TransportClose(now) =>
      var d := c.(conn := Closed);
      if HasNick(c.nick) && !c.banned {
        UpdateInputFresh(Show(d, Display(Message(SystemNick, LostNotice, now, true, false))).(timers := d.timers + [ReconnectDelay]));
      } else {
        UpdateInputFresh(d);
      }
    case TransportError => UpdateInputFresh(CloseSocket(c));
    case ReconnectTimer =>
    case NickSubmit(input) =>
      if Trim(input) != "" {
        UpdateInputFresh(SubmitNickAsWritten(c, input));
      }
    case ChatSubmit(input, now) => ChatSubmitKeepsFresh(c, input, now);
  }

  // ---------------------------------------------------------------------------
  // The moderation gate
  // ---------------------------------------------------------------------------

  /** A banned client's chat input is shown disabled. */
  predicate BanGated(c: Client) {
    c.banned ==> LastInputDisabled(c.view) == Some(true)
  }

  /** updateInputState on a banned client disables the input. */
  lemma UpdateInputGated(c: Client)
    requires PlaceholderDefined(c)
    ensures BanGated(UpdateInput(c))
  {
    LastInputAppend(c.view, InputState(InputDisabled(c), Placeholder(c)));
  }

  /** A view effect other than updateInputState keeps the gate. */
  lemma ShowKeepsGated(c: Client, v: ViewEffect)
    requires BanGated(c) && !v.InputState?
    ensures BanGated(Show(c, v))
  {
    LastInputAppend(c.view, v);
  }

  lemma OpenGated(c: Client)
    requires BanGated(c) && c.conn != NoSocket
    ensures BanGated(OnOpen(c))
  {
    var d := c.(conn := Open);
    if HasNick(c.nick) && !c.banned {
      UpdateInputGated(d.(sent := d.sent + [NickFrame(c.nick.value)]));
    } else if !c.banned {
      UpdateInputGated(Show(d, ShowPrompt(SetNickTitle, SetNickNotice, true)));
    } else {
      UpdateInputGated(d);
    }
  }

  lemma MessageGated(c: Client, m: Inbound, now: string)
    requires BanGated(c) && c.conn != NoSocket
    ensures BanGated(OnMessage(c, m, now))
  {
    match m
    case Malformed(_) =>
    case ErrorMsg(text) => ShowKeepsGated(c, ShowPrompt("Error", text, true));
    case NickMsg =>
    case ChatMsg(n, text, ts) => ShowKeepsGated(c, Display(Message(n, text, ts, n == SystemNick, false)));
    case UsersMsg(users) => ShowKeepsGated(c, Roster(RosterOf(c, users)));
    case HighlightMsg(text) => ShowKeepsGated(c, Display(Message(SystemNick, AnnouncementPrefix + text, now, true, true)));
    case ClearMsg => ShowKeepsGated(c, ClearTranscript);
    case KickMsg(minutes) =>
      UpdateInputGated(CloseSocket(Show(c.(banned := true, muted := false), ShowPrompt("Kicked", "You have been kicked for " + minutes + " minutes.", false))));
    case BanMsg(minutes) =>
      UpdateInputGated(CloseSocket(Show(c.(banned := true, muted := false), ShowPrompt("Banned", "You have been banned for " + minutes + " minutes.", false))));
    case UnknownMsg(_) =>
  }

  lemma CloseGated(c: Client, now: string)
    requires BanGated(c) && c.conn != NoSocket
    ensures BanGated(OnClose(c, now))
  {
    var d := c.(conn := Closed);
    if HasNick(c.nick) && !c.banned {
      UpdateInputGated(Show(d, Display(Message(SystemNick, LostNotice, now, true, false))).(timers := d.timers + [ReconnectDelay]));
    } else {
      UpdateInputGated(d);
    }
  }

  lemma ChatSubmitGated(c: Client, input: string, now: string)
    requires BanGated(c)
    ensures BanGated(SubmitChat(c, input, now))
  {
    var t := Trim(input);
    if t != "" && HasNick(c.nick) && c.conn == Open {
      var d := if IsHelpCommand(t) then Show(c, Display(Message(SystemNick, HelpText, now, true, false)))
               else c.(sent := c.sent + [ChatFrame(c.nick.value, t)]);
      if IsHelpCommand(t) {
        ShowKeepsGated(c, Display(Message(SystemNick, HelpText, now, true, false)));
      }
      ShowKeepsGated(d, ClearChatInput);
    }
  }

  /** Every handler keeps a banned client's input disabled: the kick and ban
      handlers disable it, every later refresh sees isBanned, and the nick and
      chat handlers never touch it. */
  lemma StepGated(c: Client, e: Event)
    requires BanGated(c) && Enabled(c, e)
    ensures BanGated(Step(c, e))
  {
    match e
    case PageLoad =>
    case TransportOpen => OpenGated(c);
    case TransportMessage(m, now) => MessageGated(c, m, now);
    case TransportClose(now) => CloseGated(c, now);
    case TransportError => UpdateInputGated(CloseSocket(c));
    case ReconnectTimer =>
    case NickSubmit(input) =>
      if Trim(input) != "" {
        ShowKeepsGated(c.(nick := Some(Trim(input))), HidePrompt);
      }
    case ChatSubmit(input, now) => ChatSubmitGated(c, input, now);
  }

  /** From page load on, a banned client's input is always shown disabled,
      so the chat handler's own indifference to isBanned is never reached
      through the page. */
  lemma {:induction false} RunGated(c: Client, es: seq<Event>)
    requires BanGated(c) && Admissible(c, es)
    ensures BanGated(Run(c, es))
    decreases |es|
  {
    if es != [] {
      StepGated(c, es[0]);
      RunGated(Step(c, es[0]), es[1..]);
    }
  }

  lemma ReachableGated(es: seq<Event>)
    requires Admissible(Initial, es)
    ensures BanGated(Run(Initial, es))
  {
    RunGated(Initial, es);
  }
}
