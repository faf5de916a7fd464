/**
 * The chat receiver (src/chat.rs): protocol records, their normalisation
 * into the two domain messages, and the receive loop of one session.
 */
module ChatReceiver {
  import opened Common

  // ---------------------------------------------------------------------
  // Protocol records, as the chat client library decodes them
  // ---------------------------------------------------------------------

  /** `TwitchUserBasics`: stable user id, login name and display name. */
  datatype User = User(id: string, login: string, name: string)

  /** `Emote`: an emote id, the character range it covers and its code. */
  datatype Emote = Emote(id: string, start: nat, end: nat, code: string)

  /** `Badge`: a badge (or badge-info) tag, e.g. name "subscriber", version "12". */
  datatype Badge = Badge(name: string, version: string)

  /** `PrivmsgMessage`, reduced to the fields the receiver reads; the server timestamp is in seconds. */
  datatype PrivmsgMessage = PrivmsgMessage(
    messageId: string,
    serverTimestamp: int,
    sender: User,
    messageText: string,
    emotes: seq<Emote>,
    bits: Option<nat>,
    badgeInfo: seq<Badge>)

  /** `ClearMsgMessage`, reduced to the fields the receiver reads. */
  datatype ClearMsgMessage = ClearMsgMessage(messageId: string, senderLogin: string, messageText: string)

  /** `ServerMessage`: the two variants the receiver handles and all the others. */
  datatype ServerMessage =
    | Privmsg(privmsg: PrivmsgMessage)
    | ClearMsg(clearMsg: ClearMsgMessage)
    | OtherServerMessage

  // ---------------------------------------------------------------------
  // Domain messages
  // ---------------------------------------------------------------------

  /** A message in the chat. */
  datatype Message = Message(
    id: string,
    timestamp: int,
    author: User,
    message: string,
    emotes: seq<Emote>,
    bits: Option<nat>,
    subscriber: bool)

  /** Message to clear a message. */
  datatype ClearMessage = ClearMessage(id: string, author: string, message: string)

  /** The two commands the receiver submits: `NEW_CHAT_MESSAGE` and `CLEAR_CHAT_MESSAGE`. */
  datatype ChatCommand =
    | NewChatMessage(message: Message)
    | ClearChatMessage(cleared: ClearMessage)

  /** `badge_info.iter().any(|info| info.name == "subscriber")` */
  function HasSubscriberBadge(badges: seq<Badge>): (r: bool)
    ensures r <==> exists i :: 0 <= i < |badges| && badges[i].name == "subscriber"
  {
    if badges == [] then false
    else badges[0].name == "subscriber" || HasSubscriberBadge(badges[1..])
  }

  /** `impl From<PrivmsgMessage> for Message` */
  function FromPrivmsg(msg: PrivmsgMessage): (m: Message)
    ensures m.id == msg.messageId && m.timestamp == msg.serverTimestamp
    ensures m.author == msg.sender && m.message == msg.messageText
    ensures m.emotes == msg.emotes && m.bits == msg.bits
    ensures m.subscriber <==> exists i :: 0 <= i < |msg.badgeInfo| && msg.badgeInfo[i].name == "subscriber"
  {
    Message(
      msg.messageId, msg.serverTimestamp, msg.sender, msg.messageText,
      msg.emotes, msg.bits, HasSubscriberBadge(msg.badgeInfo))
  }

  /** `impl From<ClearMsgMessage> for ClearMessage` */
  function FromClearMsg(msg: ClearMsgMessage): (c: ClearMessage)
    ensures c.id == msg.messageId && c.author == msg.senderLogin && c.message == msg.messageText
  {
    ClearMessage(msg.messageId, msg.senderLogin, msg.messageText)
  }

  /** `impl Display for Message`: "<author name>: <message>". */
  function Display(m: Message): (s: string)
    ensures |s| == |m.author.name| + 2 + |m.message|
    ensures s[..|m.author.name|] == m.author.name
    ensures s[|m.author.name|..|m.author.name| + 2] == ": "
    ensures s[|m.author.name| + 2..] == m.message
  {
    m.author.name + ": " + m.message
  }

  // ---------------------------------------------------------------------
  // The receive loop
  // ---------------------------------------------------------------------

  /** The command a received server message is turned into, if any. */
  function Normalize(msg: ServerMessage): (r: Option<ChatCommand>)
    ensures r.Some? <==> !msg.OtherServerMessage?
    ensures msg.Privmsg? ==> r == Some(NewChatMessage(FromPrivmsg(msg.privmsg)))
    ensures msg.ClearMsg? ==> r == Some(ClearChatMessage(FromClearMsg(msg.clearMsg)))
  {
    match msg
    case Privmsg(p) => Some(NewChatMessage(FromPrivmsg(p)))
    case ClearMsg(c) => Some(ClearChatMessage(FromClearMsg(c)))
    case OtherServerMessage => None
  }

  /** The commands for a stream of server messages, in arrival order. */
  function Filter(msgs: seq<ServerMessage>): (cmds: seq<ChatCommand>)
    ensures |cmds| <= |msgs|
    decreases |msgs|
  {
    if msgs == [] then []
    else
      match Normalize(msgs[0])
      case Some(cmd) => [cmd] + Filter(msgs[1..])
      case None => Filter(msgs[1..])
  }

  /**
   * What `try_recv` on the one-shot stop trigger reports: nothing sent yet,
   * the stop signal sent, or the sender dropped.
   */
  datatype TriggerState = Empty | Fired | Closed

  /** A server message together with what the stop trigger reported when it was received. */
  datatype Arrival = Arrival(message: ServerMessage, trigger: TriggerState)

  /** The server messages of a run of arrivals. */
  function Received(arrivals: seq<Arrival>): (msgs: seq<ServerMessage>)
    ensures |msgs| == |arrivals|
    ensures forall i :: 0 <= i < |arrivals| ==> msgs[i] == arrivals[i].message
  {
    seq(|arrivals|, i requires 0 <= i < |arrivals| => arrivals[i].message)
  }

  /** The position of the first arrival at which the stop trigger no longer reports `Empty`. */
  function StopIndex(arrivals: seq<Arrival>): (k: nat)
    ensures k <= |arrivals|
    ensures forall i :: 0 <= i < k ==> arrivals[i].trigger == Empty
    ensures k < |arrivals| ==> arrivals[k].trigger != Empty
    decreases |arrivals|
  {
    if arrivals == [] || arrivals[0].trigger != Empty then 0
    else 1 + StopIndex(arrivals[1..])
  }

  /**
   * Everything one session submits: nothing for an empty channel or a failed
   * join, otherwise the commands for the messages received before the stop
   * trigger was seen.
   */
  function SessionOutput(channel: string, joined: bool, arrivals: seq<Arrival>): (cmds: seq<ChatCommand>)
    ensures channel == "" || !joined ==> cmds == []
    ensures |cmds| <= StopIndex(arrivals)
  {
    if channel == "" || !joined then []
    else Filter(Received(arrivals[..StopIndex(arrivals)]))
  }

  /** Commands are submitted in arrival order: the output of a concatenation is the concatenation of the outputs. */
  lemma {:induction false} FilterAppend(a: seq<ServerMessage>, b: seq<ServerMessage>)
    ensures Filter(a + b) == Filter(a) + Filter(b)
    decreases |a|
  {
    if a == [] {
      assert a + b == b;
    } else {
      assert (a + b)[0] == a[0] && (a + b)[1..] == a[1..] + b;
      FilterAppend(a[1..], b);
      match Normalize(a[0]) {
        case Some(cmd) =>
          assert Filter(a + b) == [cmd] + Filter(a[1..] + b);
        case None =>
          assert Filter(a + b) == Filter(a[1..] + b);
      }
    }
  }

  function CountPrivmsg(msgs: seq<ServerMessage>): nat
    decreases |msgs|
  {
    if msgs == [] then 0 else (if msgs[0].Privmsg? then 1 else 0) + CountPrivmsg(msgs[1..])
  }

  function CountClearMsg(msgs: seq<ServerMessage>): nat
    decreases |msgs|
  {
    if msgs == [] then 0 else (if msgs[0].ClearMsg? then 1 else 0) + CountClearMsg(msgs[1..])
  }

  function CountNew(cmds: seq<ChatCommand>): nat
    decreases |cmds|
  {
    if cmds == [] then 0 else (if cmds[0].NewChatMessage? then 1 else 0) + CountNew(cmds[1..])
  }

  function CountCleared(cmds: seq<ChatCommand>): nat
    decreases |cmds|
  {
    if cmds == [] then 0 else (if cmds[0].ClearChatMessage? then 1 else 0) + CountCleared(cmds[1..])
  }

  /**
   * Exactly one `NEW_CHAT_MESSAGE` per Privmsg, one `CLEAR_CHAT_MESSAGE` per
   * ClearMsg, and nothing for any other server message.
   */
  lemma {:induction false} FilterCounts(msgs: seq<ServerMessage>)
    ensures CountNew(Filter(msgs)) == CountPrivmsg(msgs)
    ensures CountCleared(Filter(msgs)) == CountClearMsg(msgs)
    ensures |Filter(msgs)| == CountPrivmsg(msgs) + CountClearMsg(msgs)
    decreases |msgs|
  {
    if msgs != [] {
      FilterCounts(msgs[1..]);
    }
  }

  /**
   * Once the stop trigger has reported anything but `Empty`, nothing received
   * from then on is submitted, however the stream continues.
   */
  lemma StopIsFinal(channel: string, joined: bool, arrivals: seq<Arrival>, k: nat, more: seq<Arrival>)
    requires k < |arrivals| && arrivals[k].trigger != Empty
    ensures SessionOutput(channel, joined, arrivals + more) == SessionOutput(channel, joined, arrivals)
    ensures SessionOutput(channel, joined, arrivals) == SessionOutput(channel, joined, arrivals[..k])
  {
    var s := StopIndex(arrivals);
    assert (arrivals + more)[s] == arrivals[s];
    assert StopIndex(arrivals + more) == s;
    assert StopIndex(arrivals[..k]) == s;
    assert (arrivals + more)[..s] == arrivals[..s];
    assert arrivals[..k][..s] == arrivals[..s];
  }

  /**
   * `ChatReceiver::run` once the channel is joined (`joined` is false when
   * `client.join` fails, which ends the thread): a loop over the received
   * messages that stops at the end of the stream or as soon as the stop
   * trigger reports anything but `Empty`, and submits one command per
   * Privmsg or ClearMsg.
   */
  method Run(joined: bool, arrivals: seq<Arrival>) returns (submitted: seq<ChatCommand>)
    ensures submitted == if joined then Filter(Received(arrivals[..StopIndex(arrivals)])) else []
  {
    submitted := [];
    if !joined {
      return;
    }
    var i := 0;
    while i < |arrivals|
      invariant i <= StopIndex(arrivals)
      invariant submitted == Filter(Received(arrivals[..i]))
    {
      if arrivals[i].trigger != Empty {
        break;
      }
      ReceivedExtend(arrivals, i);
      match arrivals[i].message {
        case Privmsg(p) =>
          submitted := submitted + [NewChatMessage(FromPrivmsg(p))];
        case ClearMsg(c) =>
          submitted := submitted + [ClearChatMessage(FromClearMsg(c))];
        case OtherServerMessage =>
      }
      i := i + 1;
    }
  }

  /** One more arrival adds the commands of its message, if any. */
  lemma ReceivedExtend(arrivals: seq<Arrival>, i: nat)
    requires i < |arrivals|
    ensures Filter(Received(arrivals[..i + 1]))
         == Filter(Received(arrivals[..i])) + Filter([arrivals[i].message])
  {
    assert Received(arrivals[..i + 1]) == Received(arrivals[..i]) + [arrivals[i].message];
    FilterAppend(Received(arrivals[..i]), [arrivals[i].message]);
  }

  /** `ChatReceiver::spawn`: an empty channel name ends the session before any client exists. */
  method Spawn(channel: string, joined: bool, arrivals: seq<Arrival>) returns (submitted: seq<ChatCommand>)
    ensures submitted == SessionOutput(channel, joined, arrivals)
    ensures channel == "" ==> submitted == []
  {
    if channel == "" {
      return [];
    }
    submitted := Run(joined, arrivals);
  }
}
