/**
 * The druid events the controllers react to: the chat commands, the
 * `SETTINGS_UPDATE` command, `WindowConnected`, and everything else.
 */
module UiEvents {
  import opened ChatReceiver

  datatype UiEvent =
    | ChatEvent(cmd: ChatCommand)
    | SettingsUpdate
    | WindowConnected
    | OtherEvent

  /** No event in `es` is a `SETTINGS_UPDATE`, so no consumer is reset by them. */
  predicate NoReset(es: seq<UiEvent>) {
    forall i :: 0 <= i < |es| ==> !es[i].SettingsUpdate?
  }

  lemma NoResetTail(es: seq<UiEvent>)
    requires es != [] && NoReset(es)
    ensures !es[0].SettingsUpdate? && NoReset(es[1..])
  {
    forall i | 0 <= i < |es[1..]| ensures !es[1..][i].SettingsUpdate? {
      assert es[1..][i] == es[i + 1];
    }
  }

  /** The chat messages among the events, in order. */
  function Messages(es: seq<UiEvent>): seq<Message>
    decreases |es|
  {
    if es == [] then []
    else (if es[0].ChatEvent? && es[0].cmd.NewChatMessage? then [es[0].cmd.message] else []) + Messages(es[1..])
  }

  lemma MessagesUnfold(es: seq<UiEvent>)
    requires es != []
    ensures es[0].ChatEvent? && es[0].cmd.NewChatMessage? ==>
      Messages(es) != [] && Messages(es)[0] == es[0].cmd.message && Messages(es)[1..] == Messages(es[1..])
    ensures !(es[0].ChatEvent? && es[0].cmd.NewChatMessage?) ==> Messages(es) == Messages(es[1..])
  {
    if es[0].ChatEvent? && es[0].cmd.NewChatMessage? {
      assert Messages(es) == [es[0].cmd.message] + Messages(es[1..]);
    } else {
      assert Messages(es) == [] + Messages(es[1..]);
    }
  }

  /** The ids of the authors of `ms`. */
  function AuthorIds(ms: seq<Message>): set<string>
    decreases |ms|
  {
    if ms == [] then {} else {ms[0].author.id} + AuthorIds(ms[1..])
  }
}
