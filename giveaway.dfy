/**
 * The Giveaway tab (src/ui/widgets/giveaway.rs): entrants collected by a
 * message prefix, a winner drawn by position among the entrant ids, and the
 * winner's recent messages.
 */
module GiveawayTab {
  import opened Common
  import opened Strings
  import opened ChatReceiver
  import opened UiEvents
  import opened NewestFirst

  /** How many of the winner's messages are kept. */
  const WinnersMessagesCap: nat := 100

  /** The value of the `Giveaway` state. */
  datatype GiveawayState = GiveawayState(
    messageStart: string,
    peopleEntered: map<string, string>,
    winner: Option<string>,
    winnersMessages: seq<Message>)

  /** `Giveaway::default()` */
  const Initial := GiveawayState("", map[], None, [])

  /** What `on_clear` and a settings update do: everything but the prefix is emptied. */
  function Reset(s: GiveawayState): (r: GiveawayState)
    ensures r == Initial.(messageStart := s.messageStart)
    ensures Inv(r)
  {
    s.(peopleEntered := map[], winner := None, winnersMessages := [])
  }

  /**
   * What the state always satisfies from `Initial` on: the winner buffer is
   * within its cap, a winner is a current entrant, and without a winner the
   * buffer is empty.
   */
  ghost predicate Inv(s: GiveawayState) {
    && |s.winnersMessages| <= WinnersMessagesCap
    && (s.winner.Some? ==> s.winner.value in s.peopleEntered)
    && (s.winner.None? ==> s.winnersMessages == [])
  }

  /** `MessageAnalytics::event` on one event. */
  function Step(s: GiveawayState, e: UiEvent): (r: GiveawayState)
    ensures r.messageStart == s.messageStart
    ensures match e
      case ChatEvent(NewChatMessage(m)) =>
        && r.winner == s.winner
        && (StartsWith(m.message, s.messageStart) ==>
              r.peopleEntered.Keys == s.peopleEntered.Keys + {m.author.id}
              && r.peopleEntered[m.author.id] == m.author.name
              && forall id :: id in s.peopleEntered && id != m.author.id ==> r.peopleEntered[id] == s.peopleEntered[id])
        && (!StartsWith(m.message, s.messageStart) ==> r.peopleEntered == s.peopleEntered)
        && (s.winner == Some(m.author.id) ==>
              r.winnersMessages == PushFront(s.winnersMessages, m, WinnersMessagesCap)
              && r.winnersMessages[0] == m && |r.winnersMessages| <= WinnersMessagesCap)
        && (s.winner != Some(m.author.id) ==> r.winnersMessages == s.winnersMessages)
      case ChatEvent(ClearChatMessage(_)) => r == s
      case SettingsUpdate => r.peopleEntered == map[] && r.winner == None && r.winnersMessages == []
      case _ => r == s
  {
    match e
    case ChatEvent(NewChatMessage(m)) =>
      var entered :=
        if StartsWith(m.message, s.messageStart) then s.peopleEntered[m.author.id := m.author.name]
        else s.peopleEntered;
      var buffer :=
        if s.winner == Some(m.author.id) then PushFront(s.winnersMessages, m, WinnersMessagesCap)
        else s.winnersMessages;
      s.(peopleEntered := entered, winnersMessages := buffer)
    case ChatEvent(ClearChatMessage(_)) => s
    case SettingsUpdate => Reset(s)
    case _ => s
  }

  /** The state after a sequence of events, first event first. */
  function Fold(s: GiveawayState, es: seq<UiEvent>): GiveawayState
    decreases |es|
  {
    if es == [] then s else Fold(Step(s, es[0]), es[1..])
  }

  // ---------------------------------------------------------------------
  // Drawing by position in the ordered entrant map
  // ---------------------------------------------------------------------

  /** The number of entrant ids that sort before `k`: `k`'s position in ascending key order. */
  function Rank(keys: set<string>, k: string): nat {
    |set y | y in keys && StrLess(y, k)|
  }

  /** The smallest key: the first one an ordered map's key iterator yields. */
  method MinKey(keys: set<string>) returns (m: string)
    requires keys != {}
    ensures m in keys
    ensures forall y :: y in keys ==> !StrLess(y, m)
  {
    m :| m in keys;
    StrLessIrreflexive(m);
    var rest := keys - {m};
    while rest != {}
      invariant m in keys && rest <= keys
      invariant forall y :: y in keys - rest ==> !StrLess(y, m)
      decreases rest
    {
      var y :| y in rest;
      if StrLess(y, m) {
        forall z | z in keys - rest
          ensures !StrLess(z, y)
        {
          if StrLess(z, y) {
            StrLessTransitive(z, y, m);
          }
        }
        StrLessIrreflexive(y);
        m := y;
      }
      rest := rest - {y};
    }
  }

  /** `keys().nth(n)` on an ordered map: the key at position `n` in ascending order. */
  method NthKey(keys: set<string>, n: nat) returns (k: string)
    requires n < |keys|
    ensures k in keys
    ensures Rank(keys, k) == n
  {
    var remaining := keys;
    var i := 0;
    k := MinKey(remaining);
    while i < n
      invariant i <= n && remaining <= keys
      invariant |remaining| == |keys| - i
      invariant k in remaining && forall y :: y in remaining ==> !StrLess(y, k)
      invariant forall a, b :: a in keys - remaining && b in remaining ==> StrLess(a, b)
    {
      forall b | b in remaining - {k}
        ensures StrLess(k, b)
      {
        StrLessTotal(k, b);
      }
      remaining := remaining - {k};
      i := i + 1;
      k := MinKey(remaining);
    }
    var smaller := set y | y in keys && StrLess(y, k);
    assert smaller == keys - remaining by {
      forall y | y in keys && StrLess(y, k)
        ensures y !in remaining
      {
      }
    }
    assert keys == (keys - remaining) + remaining;
  }

  /** Different entrants have different positions, and every position is below the entrant count. */
  lemma RankInjective(keys: set<string>, a: string, b: string)
    requires a in keys && b in keys
    ensures Rank(keys, a) < |keys|
    ensures Rank(keys, a) == Rank(keys, b) ==> a == b
  {
    StrLessIrreflexive(a);
    var below := set y | y in keys && StrLess(y, a);
    SubsetCard(below, keys - {a});
    if a != b {
      StrLessTotal(a, b);
      if StrLess(b, a) {
        RankStrictlyIncreasing(keys, b, a);
      } else {
        RankStrictlyIncreasing(keys, a, b);
      }
    }
  }

  lemma RankStrictlyIncreasing(keys: set<string>, a: string, b: string)
    requires a in keys && StrLess(a, b)
    ensures Rank(keys, a) < Rank(keys, b)
  {
    var sa := set y | y in keys && StrLess(y, a);
    var sb := set y | y in keys && StrLess(y, b);
    forall y | y in sa ensures y in sb {
      StrLessTransitive(y, a, b);
    }
    StrLessIrreflexive(a);
    assert a in sb && a !in sa;
    SubsetCard(sa, sb - {a});
  }

  lemma SubsetCard<T>(a: set<T>, b: set<T>)
    requires a <= b
    ensures |a| <= |b|
  {
    assert b == a + (b - a);
  }

  // ---------------------------------------------------------------------
  // The state as an object updated in place
  // ---------------------------------------------------------------------

  class Giveaway {
    var messageStart: string
    var peopleEntered: map<string, string>
    var winner: Option<string>
    var winnersMessages: seq<Message>

    function State(): GiveawayState
      reads this
    {
      GiveawayState(messageStart, peopleEntered, winner, winnersMessages)
    }

    ghost predicate Valid()
      reads this
    {
      Inv(State())
    }

    /** `Giveaway::default()` */
    constructor ()
      ensures State() == Initial && Valid()
    {
      messageStart := "";
      peopleEntered := map[];
      winner := None;
      winnersMessages := [];
    }

    /** What the prefix text box writes through its lens. */
    method EditMessageStart(prefix: string)
      requires Valid()
      modifies this
      ensures Valid()
      ensures State() == old(State()).(messageStart := prefix)
    {
      messageStart := prefix;
    }

    /** `MessageAnalytics::event`, updating the fields in place. */
    method Event(e: UiEvent)
      requires Valid()
      modifies this
      ensures Valid()
      ensures State() == Step(old(State()), e)
    {
      match e {
        case ChatEvent(NewChatMessage(m)) =>
          if StartsWith(m.message, messageStart) {
            peopleEntered := peopleEntered[m.author.id := m.author.name];
          }
          if winner == Some(m.author.id) {
            winnersMessages := [m] + winnersMessages;
            if |winnersMessages| > WinnersMessagesCap {
              winnersMessages := winnersMessages[..WinnersMessagesCap];
            }
          }
        case ChatEvent(ClearChatMessage(_)) =>
        case SettingsUpdate =>
          peopleEntered := map[];
          winner := None;
          winnersMessages := [];
        case _ =>
      }
      StepKeepsInv(old(State()), e);
    }

    /** `on_clear`: the Clear button empties entrants, winner and the winner's messages. */
    method OnClear()
      requires Valid()
      modifies this
      ensures Valid()
      ensures State() == Reset(old(State()))
      ensures peopleEntered == map[] && winner == None && winnersMessages == []
      ensures messageStart == old(messageStart)
    {
      peopleEntered := map[];
      winner := None;
      winnersMessages := [];
    }

    /**
     * `on_draw_winner`, with the random position supplied as `index`: the
     * winner becomes the entrant id at that position in ascending order.
     * The source draws from `0..len`, which is empty when nobody entered.
     */
    method OnDrawWinner(index: nat)
      requires Valid()
      requires index < |peopleEntered|
      modifies this
      ensures Valid()
      ensures winner.Some? && winner.value in peopleEntered
      ensures Rank(peopleEntered.Keys, winner.value) == index
      ensures messageStart == old(messageStart) && peopleEntered == old(peopleEntered)
      ensures winnersMessages == old(winnersMessages)
    {
      var k := NthKey(peopleEntered.Keys, index);
      winner := Some(k);
    }
  }

  /** `fast_people_entered_same`: compares the number of entrants only. */
  function FastPeopleEnteredSame(a: map<string, string>, b: map<string, string>): (r: bool)
    ensures r <==> |a| == |b|
  {
    |a| == |b|
  }

  function Front(s: seq<Message>): (r: Option<Message>)
    ensures r.Some? <==> s != []
    ensures s != [] ==> r.value == s[0]
  {
    if s == [] then None else Some(s[0])
  }

  function Back(s: seq<Message>): (r: Option<Message>)
    ensures r.Some? <==> s != []
    ensures s != [] ==> r.value == s[|s| - 1]
  {
    if s == [] then None else Some(s[|s| - 1])
  }

  /** `fast_winners_messages_same`: compares the first and the last message only. */
  function FastWinnersMessagesSame(a: seq<Message>, b: seq<Message>): (r: bool)
    ensures r <==> Front(a) == Front(b) && Back(a) == Back(b)
  {
    Front(a) == Front(b) && Back(a) == Back(b)
  }

  // ---------------------------------------------------------------------
  // Properties
  // ---------------------------------------------------------------------

  lemma StepKeepsInv(s: GiveawayState, e: UiEvent)
    requires Inv(s)
    ensures Inv(Step(s, e))
  {
  }

  lemma {:induction false} FoldKeepsInv(s: GiveawayState, es: seq<UiEvent>)
    requires Inv(s)
    ensures Inv(Fold(s, es))
    decreases |es|
  {
    if es != [] {
      StepKeepsInv(s, es[0]);
      FoldKeepsInv(Step(s, es[0]), es[1..]);
    }
  }

  lemma {:induction false} FoldAppend(s: GiveawayState, a: seq<UiEvent>, b: seq<UiEvent>)
    ensures Fold(s, a + b) == Fold(Fold(s, a), b)
    decreases |a|
  {
    if a == [] {
      assert a + b == b;
    } else {
      assert (a + b)[0] == a[0] && (a + b)[1..] == a[1..] + b;
      FoldAppend(Step(s, a[0]), a[1..], b);
    }
  }

  lemma {:induction false} FoldKeepsPrefix(s: GiveawayState, es: seq<UiEvent>)
    ensures Fold(s, es).messageStart == s.messageStart
    decreases |es|
  {
    if es != [] {
      FoldKeepsPrefix(Step(s, es[0]), es[1..]);
    }
  }

  /** A settings update forgets everything before it except the entry prefix. */
  lemma ResetForgetsHistory(s: GiveawayState, before: seq<UiEvent>, after: seq<UiEvent>)
    ensures Fold(s, before + [SettingsUpdate] + after) == Fold(Reset(s), after)
  {
    FoldAppend(s, before + [SettingsUpdate], after);
    FoldAppend(s, before, [SettingsUpdate]);
    FoldKeepsPrefix(s, before);
  }

  /** The messages that start with `prefix`, in order. */
  function Entering(ms: seq<Message>, prefix: string): seq<Message>
    decreases |ms|
  {
    if ms == [] then []
    else (if StartsWith(ms[0].message, prefix) then [ms[0]] else []) + Entering(ms[1..], prefix)
  }

  lemma EnteringUnfold(ms: seq<Message>, prefix: string)
    requires ms != []
    ensures AuthorIds(Entering(ms, prefix))
         == (if StartsWith(ms[0].message, prefix) then {ms[0].author.id} else {}) + AuthorIds(Entering(ms[1..], prefix))
  {
    var rest := Entering(ms[1..], prefix);
    if StartsWith(ms[0].message, prefix) {
      var en := Entering(ms, prefix);
      assert en == [ms[0]] + rest;
      assert en[0] == ms[0];
      assert en[1..] == rest;
      assert AuthorIds(en) == {ms[0].author.id} + AuthorIds(rest);
    } else {
      assert Entering(ms, prefix) == rest;
    }
  }

  /** The messages by `id`, in order. */
  function ByAuthor(ms: seq<Message>, id: string): seq<Message>
    decreases |ms|
  {
    if ms == [] then []
    else (if ms[0].author.id == id then [ms[0]] else []) + ByAuthor(ms[1..], id)
  }

  /** Between resets the entrants are those already in plus every author of a message starting with the prefix. */
  lemma {:induction false} FoldEntrants(s: GiveawayState, es: seq<UiEvent>)
    requires NoReset(es)
    ensures Fold(s, es).peopleEntered.Keys
         == s.peopleEntered.Keys + AuthorIds(Entering(Messages(es), s.messageStart))
    decreases |es|
  {
    if es != [] {
      NoResetTail(es);
      MessagesUnfold(es);
      FoldEntrants(Step(s, es[0]), es[1..]);
      var ms := Messages(es);
      if es[0].ChatEvent? && es[0].cmd.NewChatMessage? {
        EnteringUnfold(ms, s.messageStart);
      }
    }
  }

  /** With an empty prefix, every author enters. */
  lemma {:induction false} EmptyPrefixAdmitsAll(ms: seq<Message>)
    ensures Entering(ms, "") == ms
    decreases |ms|
  {
    if ms != [] {
      assert StartsWith(ms[0].message, "");
      EmptyPrefixAdmitsAll(ms[1..]);
    }
  }

  /**
   * Between resets, with a winner drawn, the winner's messages are pushed in
   * arrival order onto the capped buffer, and the winner stays.
   */
  lemma {:induction false} FoldWinnersMessages(s: GiveawayState, es: seq<UiEvent>, w: string)
    requires NoReset(es) && s.winner == Some(w)
    ensures Fold(s, es).winner == Some(w)
    ensures Fold(s, es).winnersMessages
         == PushAll(s.winnersMessages, ByAuthor(Messages(es), w), WinnersMessagesCap)
    decreases |es|
  {
    if es != [] {
      NoResetTail(es);
      MessagesUnfold(es);
      FoldWinnersMessages(Step(s, es[0]), es[1..], w);
      var ms := Messages(es);
      if es[0].ChatEvent? && es[0].cmd.NewChatMessage? {
        var m := ms[0];
        var rest := ByAuthor(ms[1..], w);
        if m.author.id == w {
          var mine := ByAuthor(ms, w);
          assert mine == [m] + rest;
          assert mine[0] == m;
          assert mine[1..] == rest;
        } else {
          assert ByAuthor(ms, w) == rest;
        }
      }
    }
  }

  /**
   * The winner buffer holds the 100 most recent messages of the winner,
   * newest first, followed by what it held before while room remains.
   */
  lemma WinnersMessagesMostRecent(s: GiveawayState, es: seq<UiEvent>, w: string)
    requires |s.winnersMessages| <= WinnersMessagesCap && NoReset(es) && s.winner == Some(w)
    ensures Fold(s, es).winnersMessages
         == (Reversed(ByAuthor(Messages(es), w)) + s.winnersMessages)
              [..Min(WinnersMessagesCap, |ByAuthor(Messages(es), w)| + |s.winnersMessages|)]
  {
    FoldWinnersMessages(s, es, w);
    PushAllIsReversedPrefix(s.winnersMessages, ByAuthor(Messages(es), w), WinnersMessagesCap);
  }

  /** Without a winner the winner buffer does not change. */
  lemma {:induction false} NoWinnerNoMessages(s: GiveawayState, es: seq<UiEvent>)
    requires NoReset(es) && s.winner == None
    ensures Fold(s, es).winner == None
    ensures Fold(s, es).winnersMessages == s.winnersMessages
    decreases |es|
  {
    if es != [] {
      NoResetTail(es);
      NoWinnerNoMessages(Step(s, es[0]), es[1..]);
    }
  }

  /**
   * Entries are inserted with `insert`, which overwrites a known entrant's
   * name: the length comparison is exact for the set of entrant ids but
   * misses a changed display name.
   */
  lemma FastPeopleEnteredSameOnMessage(s: GiveawayState, m: Message)
    ensures var b := Step(s, ChatEvent(NewChatMessage(m))).peopleEntered;
      && (FastPeopleEnteredSame(s.peopleEntered, b) <==> s.peopleEntered.Keys == b.Keys)
      && (FastPeopleEnteredSame(s.peopleEntered, b) && s.peopleEntered != b ==>
            m.author.id in s.peopleEntered && b == s.peopleEntered[m.author.id := m.author.name])
  {
    var a, b := s.peopleEntered, Step(s, ChatEvent(NewChatMessage(m))).peopleEntered;
    if StartsWith(m.message, s.messageStart) && m.author.id !in a {
      assert b.Keys == a.Keys + {m.author.id};
      assert |b.Keys| == |a.Keys| + 1;
    }
  }

  /**
   * Comparing the ends of the winner buffer detects every push of a message
   * other than the current front, and every clear of a non-empty buffer.
   */
  lemma FastWinnersMessagesSameDetects(buf: seq<Message>, m: Message)
    ensures buf == [] || buf[0] != m ==> !FastWinnersMessagesSame(buf, PushFront(buf, m, WinnersMessagesCap))
    ensures buf != [] ==> !FastWinnersMessagesSame(buf, [])
  {
  }
}
