/**
 * The Overview tab's analytics (src/ui/widgets/overview.rs): distinct
 * chatters and four counters, updated by `MessageAnalytics::event`.
 */
module OverviewTab {
  import opened Common
  import opened ChatReceiver
  import opened UiEvents

  /** The value of the `Overview` state. */
  datatype OverviewState = OverviewState(
    uniqueChatters: map<string, string>,
    totalMessages: nat,
    subscriberMessages: nat,
    totalBits: nat,
    messagesCleared: nat)

  /** `Overview::default()`, and the state a settings update resets to. */
  const Initial := OverviewState(map[], 0, 0, 0, 0)

  /** What the state always satisfies from `Initial` on. */
  ghost predicate Inv(s: OverviewState) {
    s.subscriberMessages <= s.totalMessages && |s.uniqueChatters| <= s.totalMessages
  }

  /** `MessageAnalytics::event` on one event. */
  function Step(s: OverviewState, e: UiEvent): (r: OverviewState)
    ensures match e
      case ChatEvent(NewChatMessage(m)) =>
        && r.uniqueChatters.Keys == s.uniqueChatters.Keys + {m.author.id}
        && (forall id :: id in s.uniqueChatters ==> r.uniqueChatters[id] == s.uniqueChatters[id])
        && (m.author.id !in s.uniqueChatters ==> r.uniqueChatters[m.author.id] == m.author.name)
        && r.totalMessages == s.totalMessages + 1
        && r.subscriberMessages == s.subscriberMessages + (if m.subscriber then 1 else 0)
        && r.totalBits == s.totalBits + m.bits.GetOr(0)
        && r.messagesCleared == s.messagesCleared
      case ChatEvent(ClearChatMessage(_)) => r == s.(messagesCleared := s.messagesCleared + 1)
      case SettingsUpdate => r == Initial
      case _ => r == s
  {
    match e
    case ChatEvent(NewChatMessage(m)) =>
      var chatters :=
        if m.author.id in s.uniqueChatters then s.uniqueChatters
        else s.uniqueChatters[m.author.id := m.author.name];
      OverviewState(
        chatters,
        s.totalMessages + 1,
        s.subscriberMessages + (if m.subscriber then 1 else 0),
        s.totalBits + m.bits.GetOr(0),
        s.messagesCleared)
    case ChatEvent(ClearChatMessage(_)) => s.(messagesCleared := s.messagesCleared + 1)
    case SettingsUpdate => Initial
    case _ => s
  }

  /** The state after a sequence of events, first event first. */
  function Fold(s: OverviewState, es: seq<UiEvent>): OverviewState
    decreases |es|
  {
    if es == [] then s else Fold(Step(s, es[0]), es[1..])
  }

  /** `fast_unique_chatters_same`: compares the number of chatters only. */
  function FastUniqueChattersSame(a: map<string, string>, b: map<string, string>): (r: bool)
    ensures r <==> |a| == |b|
  {
    |a| == |b|
  }

  // ---------------------------------------------------------------------
  // The state as an object updated in place
  // ---------------------------------------------------------------------

  class Overview {
    var uniqueChatters: map<string, string>
    var totalMessages: nat
    var subscriberMessages: nat
    var totalBits: nat
    var messagesCleared: nat

    function State(): OverviewState
      reads this
    {
      OverviewState(uniqueChatters, totalMessages, subscriberMessages, totalBits, messagesCleared)
    }

    ghost predicate Valid()
      reads this
    {
      Inv(State())
    }

    /** `Overview::default()` */
    constructor ()
      ensures State() == Initial && Valid()
    {
      uniqueChatters := map[];
      totalMessages, subscriberMessages, totalBits, messagesCleared := 0, 0, 0, 0;
    }

    /** `MessageAnalytics::event`, updating the fields in place. */
    method Event(e: UiEvent)
      requires Valid()
      modifies this
      ensures Valid()
      ensures State() == Step(old(State()), e)
    {
      match e {
        case ChatEvent(NewChatMessage(m)) =>
          if m.author.id !in uniqueChatters {
            uniqueChatters := uniqueChatters[m.author.id := m.author.name];
          }
          totalMessages := totalMessages + 1;
          totalBits := totalBits + m.bits.GetOr(0);
          if m.subscriber {
            subscriberMessages := subscriberMessages + 1;
          }
        case ChatEvent(ClearChatMessage(_)) =>
          messagesCleared := messagesCleared + 1;
        case SettingsUpdate =>
          uniqueChatters := map[];
          totalMessages := 0;
          subscriberMessages := 0;
          totalBits := 0;
          messagesCleared := 0;
        case _ =>
      }
      StepKeepsInv(old(State()), e);
    }
  }

  // ---------------------------------------------------------------------
  // Properties
  // ---------------------------------------------------------------------

  /** Every event keeps `subscriber_messages <= total_messages` and `|unique_chatters| <= total_messages`. */
  lemma StepKeepsInv(s: OverviewState, e: UiEvent)
    requires Inv(s)
    ensures Inv(Step(s, e))
  {
    if e.ChatEvent? && e.cmd.NewChatMessage? {
      var r := Step(s, e);
      var id := e.cmd.message.author.id;
      assert r.uniqueChatters.Keys == s.uniqueChatters.Keys + {id};
      assert |r.uniqueChatters.Keys| <= |s.uniqueChatters.Keys| + 1;
    }
  }

  lemma {:induction false} FoldKeepsInv(s: OverviewState, es: seq<UiEvent>)
    requires Inv(s)
    ensures Inv(Fold(s, es))
    decreases |es|
  {
    if es != [] {
      StepKeepsInv(s, es[0]);
      FoldKeepsInv(Step(s, es[0]), es[1..]);
    }
  }

  lemma {:induction false} FoldAppend(s: OverviewState, a: seq<UiEvent>, b: seq<UiEvent>)
    ensures Fold(s, a + b) == Fold(Fold(s, a), b)
    decreases |a|
  {
    if a == [] {
      assert a + b == b;
    } else {
      assert (a + b)[0] == a[0] && (a + b)[1..] == a[1..] + b;
      FoldAppend(Step(s, a[0]), a[1..], b);
    }
  }

  /** A settings update forgets everything before it: the state then depends only on later events. */
  lemma ResetForgetsHistory(s: OverviewState, before: seq<UiEvent>, after: seq<UiEvent>)
    ensures Fold(s, before + [SettingsUpdate] + after) == Fold(Initial, after)
  {
    FoldAppend(s, before + [SettingsUpdate], after);
    FoldAppend(s, before, [SettingsUpdate]);
  }

  function CountClears(es: seq<UiEvent>): nat
    decreases |es|
  {
    if es == [] then 0
    else (if es[0].ChatEvent? && es[0].cmd.ClearChatMessage? then 1 else 0) + CountClears(es[1..])
  }

  function CountSubscriber(ms: seq<Message>): nat
    decreases |ms|
  {
    if ms == [] then 0 else (if ms[0].subscriber then 1 else 0) + CountSubscriber(ms[1..])
  }

  function SumBits(ms: seq<Message>): nat
    decreases |ms|
  {
    if ms == [] then 0 else ms[0].bits.GetOr(0) + SumBits(ms[1..])
  }

  /** The display name in the earliest message by `id`. */
  function FirstName(ms: seq<Message>, id: string): string
    requires id in AuthorIds(ms)
    decreases |ms|
  {
    if ms[0].author.id == id then ms[0].author.name else FirstName(ms[1..], id)
  }

  /**
   * Between resets the counters are running totals: one per message, one
   * per subscriber message, the bits (absent bits count as 0) and one per
   * clear event.
   */
  lemma {:induction false} FoldCounts(s: OverviewState, es: seq<UiEvent>)
    requires NoReset(es)
    ensures Fold(s, es).totalMessages == s.totalMessages + |Messages(es)|
    ensures Fold(s, es).subscriberMessages == s.subscriberMessages + CountSubscriber(Messages(es))
    ensures Fold(s, es).totalBits == s.totalBits + SumBits(Messages(es))
    ensures Fold(s, es).messagesCleared == s.messagesCleared + CountClears(es)
    decreases |es|
  {
    if es != [] {
      NoResetTail(es);
      FoldCounts(Step(s, es[0]), es[1..]);
      MessagesUnfold(es);
    }
  }

  /**
   * Between resets the chatters are exactly the authors seen, and each keeps
   * the first display name seen for it (`entry(..).or_insert(..)`).
   */
  lemma {:induction false} FoldChatters(s: OverviewState, es: seq<UiEvent>)
    requires NoReset(es)
    ensures Fold(s, es).uniqueChatters.Keys == s.uniqueChatters.Keys + AuthorIds(Messages(es))
    ensures forall id :: id in Fold(s, es).uniqueChatters ==>
      Fold(s, es).uniqueChatters[id] ==
        if id in s.uniqueChatters then s.uniqueChatters[id] else FirstName(Messages(es), id)
    decreases |es|
  {
    if es != [] {
      NoResetTail(es);
      var t := Step(s, es[0]);
      FoldChatters(t, es[1..]);
      MessagesUnfold(es);
    }
  }

  /**
   * Chatters are only ever added, or all removed at once by a reset, which is
   * why comparing their number suffices: for every event the fast comparison
   * reports "same" exactly when the map did not change.
   */
  lemma FastUniqueChattersSameExact(s: OverviewState, e: UiEvent)
    ensures FastUniqueChattersSame(s.uniqueChatters, Step(s, e).uniqueChatters)
        <==> s.uniqueChatters == Step(s, e).uniqueChatters
  {
    var a, b := s.uniqueChatters, Step(s, e).uniqueChatters;
    if e.SettingsUpdate? {
      if |a| == 0 {
        assert a == map[];
      }
    } else if e.ChatEvent? && e.cmd.NewChatMessage? {
      var id := e.cmd.message.author.id;
      if id !in a {
        assert b.Keys == a.Keys + {id};
        assert |b.Keys| == |a.Keys| + 1;
      }
    }
  }
}
