# Twitch chat metrics: the chat ingestion core, modelled in Dafny

This project models the core of a desktop app that reads one Twitch channel's
chat and derives statistics from it. The core is the path from chat protocol
records to the state the UI shows:

- **The chat receiver** (`ChatReceiver`, src/chat.rs). Protocol records `PrivmsgMessage` and
  `ClearMsgMessage` become `Message` and `ClearMessage`. A message's subscriber flag comes
  from its badge info. The receive loop submits one `NEW_CHAT_MESSAGE` per Privmsg and one
  `CLEAR_CHAT_MESSAGE` per ClearMsg. It drops every other server message. It stops at the
  first message received after the one-shot stop trigger has been sent or dropped.
  An empty channel name ends the receiver before it connects.
- **The chat history** (`ChatTab.Chat`). Each new message is pushed to the front of the
  history, which is then truncated to the `chat_buffer` setting. `NewestFirst` holds this
  bounded buffer, which the giveaway's winner buffer (cap 100) shares.
- **The Overview analytics** (`OverviewTab`). They hold the distinct chatters (the first
  display name seen is kept) and four counters: messages, subscriber messages, bits and
  cleared messages. A settings update resets all of them.
- **The Giveaway** (`GiveawayTab`). Authors of messages that start with the entry prefix
  enter an ordered map. A winner is drawn by position in ascending id order. The winner's
  messages are kept newest first, at most 100. The Clear button and a settings update
  empty everything except the prefix.
- **The restart supervisor** (`Widgets.ChatReceiverSpawner`). It holds at most one
  receiver, as a stop trigger and a join handle. On a settings update it sends the old
  trigger and clears the chat history. It then spawns a receiver for the lowercased
  channel with a fresh trigger.
- **Settings** (`SettingsTab`). These are the default values, the Save action, and the
  two-phase change detection: `update` sets a pending flag, and the next `event` turns it
  into `changes = true`.

Each stateful controller is a class whose fields the source updates in place. The
Overview and Giveaway controllers' methods are proved against a pure `Step` function on
the state's value, and their lemmas state the properties over `Fold`, the state after a
sequence of events. The settings change detector's methods are proved against
`DetectorEvent` and `DetectorUpdate`. The restart supervisor states its new state
directly and keeps a ghost history of the receivers it started. The receive loop `Run` is
a method with a loop, proved against `Filter` of the messages before `StopIndex`. `Spawn`
adds the empty-channel exit and is proved against `SessionOutput`.

Inputs the model takes as parameters, not effects:
- the random draw is the `index` given to `OnDrawWinner`;
- the outcome of joining the channel is the `joined` flag;
- the server messages, each paired with what the stop trigger reported when it arrived, are the `arrivals` sequence;
- the outcome of loading the settings file is an `Option<Settings>`.

## Model

| member | source | states |
|---|---|---|
| `ChatReceiver.HasSubscriberBadge` | src/chat.rs:128 | true exactly when some badge-info entry is named exactly "subscriber" |
| `ChatReceiver.FromPrivmsg` | src/chat.rs:126-140 | id, timestamp, author, text, emotes and bits are copied unchanged; `subscriber` holds iff a badge-info entry is named "subscriber" |
| `ChatReceiver.FromClearMsg` | src/chat.rs:158-166 | message id, sender login and text become id, author and message |
| `ChatReceiver.Display` | src/chat.rs:142-146 | the rendering is the author's display name, then ": ", then the message text, and nothing else |
| `ChatReceiver.Normalize` | src/chat.rs:67-71 | a Privmsg becomes a new-message command carrying its conversion, a ClearMsg a clear command carrying its conversion, and any other server message nothing |
| `ChatReceiver.Filter` | src/chat.rs:61-72 | the commands for a stream of server messages, at most one per message |
| `ChatReceiver.SessionOutput` | src/chat.rs:38-73 | what spawn and run submit: nothing for an empty channel or a failed join, and never more commands than messages received before the stop |
| `ChatReceiver.StopIndex` | src/chat.rs:61-65 | the position of the first arrival whose stop-trigger poll is not `Empty` (or the end), with every earlier poll `Empty` |
| `ChatReceiver.FilterAppend` | src/chat.rs:61-72 | commands are submitted in arrival order: the commands for a concatenation are the concatenation of the commands |
| `ChatReceiver.FilterCounts` | src/chat.rs:67-71 | exactly one new-message command per Privmsg, one clear command per ClearMsg, nothing for other server messages |
| `ChatReceiver.StopIsFinal` | src/chat.rs:62-65 | once the trigger reports Fired or Closed at an arrival, that arrival and everything after it submit nothing |
| `ChatReceiver.Run` | src/chat.rs:53-73 | the loop submits exactly the commands for the messages before the stop position, and nothing when the join failed |
| `ChatReceiver.Spawn` | src/chat.rs:38-50 | an empty channel submits nothing; otherwise the result is that of `Run` |
| `ChatTab.Chat.constructor` | src/ui/widgets/chat.rs:12-17 | the history starts empty |
| `ChatTab.Chat.PushMessage` | src/chat.rs:80-84 | the history becomes the new message in front of the old one, truncated to `chat_buffer`; it is empty when `chat_buffer` is 0 |
| `ChatTab.Chat.Clear` | src/ui/widgets/mod.rs:62 | the history becomes empty |
| `NewestFirst.PushFront` | src/ui/widgets/giveaway.rs:144-147 | the length becomes min(cap, old length + 1); with a positive cap the new item is first and the old items follow in order |
| `NewestFirst.PushAllNewestFirst` | src/ui/widgets/giveaway.rs:143-147 | after pushing a sequence onto a buffer within its cap, the buffer holds the newest items first, then the older contents, cut at the cap |
| `NewestFirst.PushAllIsReversedPrefix` | src/ui/widgets/giveaway.rs:143-147 | the buffer after the pushes equals the pushed items reversed, followed by the older contents, cut at min(cap, total) |
| `NewestFirst.MostRecentKept` | src/chat.rs:81-84 | starting from empty, exactly the last min(cap, n) items are kept, newest first |
| `OverviewTab.Step` | src/ui/widgets/overview.rs:88-112 | a message adds 1 to the total, its bits (0 if absent) to the bits, 1 to the subscriber count iff it is flagged, and its author if absent, keeping existing names; a clear adds 1 to the cleared count and changes nothing else; a settings update resets everything; other events change nothing |
| `OverviewTab.FastUniqueChattersSame` | src/ui/widgets/overview.rs:35-37 | true iff the two maps have the same number of entries |
| `OverviewTab.Overview.constructor` | src/ui/widgets/overview.rs:18-31 | the default state: no chatters, all counters 0 |
| `OverviewTab.Overview.Event` | src/ui/widgets/overview.rs:80-116 | the fields change as `Step` says, and the invariant subscriber messages ≤ total messages, chatters ≤ total messages is kept |
| `OverviewTab.StepKeepsInv` | src/ui/widgets/overview.rs:91-100 | every event keeps subscriber messages ≤ total messages and distinct chatters ≤ total messages |
| `OverviewTab.FoldKeepsInv` | src/ui/widgets/overview.rs:88-112 | the invariant holds after any sequence of events |
| `OverviewTab.ResetForgetsHistory` | src/ui/widgets/overview.rs:105-112 | after a settings update the state depends only on the events after it |
| `OverviewTab.FoldCounts` | src/ui/widgets/overview.rs:95-104 | between resets the counters are running totals of messages, subscriber messages, bits (absent as 0) and clear events |
| `OverviewTab.FoldChatters` | src/ui/widgets/overview.rs:91-94 | between resets the chatters are the earlier ones plus every author seen, each with the first display name seen |
| `OverviewTab.FastUniqueChattersSameExact` | src/ui/widgets/overview.rs:33-37 | chatters are only added, or all dropped by a reset, so for every event the length comparison reports "same" exactly when the map is unchanged |
| `GiveawayTab.Step` | src/ui/widgets/giveaway.rs:122-162 | a message starting with the prefix inserts or overwrites its author's entry, otherwise entrants are unchanged; a message by the winner is pushed in front of the winner buffer (cap 100), otherwise the buffer is unchanged; a clear changes nothing; a settings update empties entrants, winner and buffer; the prefix never changes |
| `GiveawayTab.Reset` | src/ui/widgets/giveaway.rs:104-108 | what `on_clear` and the settings-update arm (lines 153-158) do: everything but the prefix returns to the default, and the result satisfies the invariant |
| `GiveawayTab.NthKey` | src/ui/widgets/giveaway.rs:114 | the key returned is an entrant id with exactly `n` entrant ids before it in ascending order |
| `GiveawayTab.RankInjective` | src/ui/widgets/giveaway.rs:111-115 | positions are below the entrant count and different entrants have different positions, so an index picks one entrant |
| `GiveawayTab.Giveaway.constructor` | src/ui/widgets/giveaway.rs:19-31 | the default state: empty prefix, no entrants, no winner, empty buffer |
| `GiveawayTab.Giveaway.EditMessageStart` | src/ui/widgets/giveaway.rs:50-53 | the prefix text box sets the prefix and nothing else |
| `GiveawayTab.Giveaway.Event` | src/ui/widgets/giveaway.rs:121-162 | the fields change as `Step` says, keeping the buffer within 100, the winner among the entrants, and the buffer empty without a winner |
| `GiveawayTab.Giveaway.OnClear` | src/ui/widgets/giveaway.rs:104-108 | entrants, winner and buffer are emptied; the prefix is kept |
| `GiveawayTab.Giveaway.OnDrawWinner` | src/ui/widgets/giveaway.rs:111-115 | with an index below the entrant count, the winner becomes the entrant at that position in ascending id order; nothing else changes |
| `GiveawayTab.FastPeopleEnteredSame` | src/ui/widgets/giveaway.rs:35-37 | true iff the two maps have the same number of entries |
| `GiveawayTab.FastWinnersMessagesSame` | src/ui/widgets/giveaway.rs:41-43 | true iff the first elements agree and the last elements agree, an empty buffer having neither |
| `GiveawayTab.StepKeepsInv` | src/ui/widgets/giveaway.rs:133-158 | every event keeps the buffer within 100, the winner among the entrants, and the buffer empty without a winner |
| `GiveawayTab.FoldKeepsInv` | src/ui/widgets/giveaway.rs:122-162 | the invariant holds after any sequence of events |
| `GiveawayTab.ResetForgetsHistory` | src/ui/widgets/giveaway.rs:153-158 | after a settings update the state depends only on the prefix and the events after it |
| `GiveawayTab.FoldEntrants` | src/ui/widgets/giveaway.rs:133-137 | between resets the entrant ids are the earlier ones plus the author of every message starting with the prefix |
| `GiveawayTab.EmptyPrefixAdmitsAll` | src/ui/widgets/giveaway.rs:133 | with an empty prefix every message qualifies, so every author enters |
| `GiveawayTab.FoldWinnersMessages` | src/ui/widgets/giveaway.rs:138-147 | between resets with a winner drawn, the winner stays and exactly the winner's messages are pushed, in arrival order |
| `GiveawayTab.WinnersMessagesMostRecent` | src/ui/widgets/giveaway.rs:143-147 | between resets with a winner drawn, the winner buffer equals the winner's messages reversed (newest first), followed by its earlier contents, cut at 100 |
| `GiveawayTab.NoWinnerNoMessages` | src/ui/widgets/giveaway.rs:138-142 | without a winner, messages leave the buffer unchanged |
| `GiveawayTab.FastPeopleEnteredSameOnMessage` | src/ui/widgets/giveaway.rs:33-37 | after a message, the length comparison says "same" iff the set of ids is unchanged; a change it misses is an entrant's overwritten name |
| `GiveawayTab.FastWinnersMessagesSameDetects` | src/ui/widgets/giveaway.rs:39-43 | every push of a message other than the current first one is detected, and so is every clear of a non-empty buffer |
| `Strings.StrLess` | src/ui/widgets/giveaway.rs:114 | the `String` order that fixes the draw order of `keys().nth`: no string is below itself, and a prefix is below exactly its longer extensions |
| `Strings.StrLessIrreflexive` | src/ui/widgets/giveaway.rs:114 | no entrant id is below itself |
| `Strings.StrLessTransitive` | src/ui/widgets/giveaway.rs:114 | the order is transitive |
| `Strings.StrLessTotal` | src/ui/widgets/giveaway.rs:114 | any two distinct ids are ordered one way or the other, so the ids have one ascending order |
| `Strings.StartsWith` | src/ui/widgets/giveaway.rs:133 | holds exactly when the text is the prefix followed by some rest; the empty prefix always holds |
| `Strings.Lowercase` | src/ui/widgets/mod.rs:67 | same length, each character lowercased, no upper-case letter left |
| `Strings.LowercaseIdempotent` | src/ui/widgets/mod.rs:67 | lowercasing twice is lowercasing once, and only the empty name lowercases to the empty name |
| `Widgets.StopTrigger.constructor` | src/ui/widgets/mod.rs:65 | a new trigger reports `Empty` |
| `Widgets.StopTrigger.Send` | src/ui/widgets/mod.rs:59-61 | sending leaves the trigger `Fired`, whether or not the receiver is still there |
| `Widgets.JoinHandle.constructor` | src/ui/widgets/mod.rs:66-71 | the receiver is built with the given channel and the given trigger |
| `Widgets.ChatReceiverSpawner.constructor` | src/ui/widgets/mod.rs:39-45 | no receiver is held at first |
| `Widgets.ChatReceiverSpawner.Event` | src/ui/widgets/mod.rs:48-79 | on a settings update the held trigger is sent, the chat history is emptied, and a fresh receiver for the lowercased channel is stored with its fresh, unsent trigger; all earlier triggers stay sent, so at most one receiver is not told to stop; other events change nothing |
| `Widgets.NoChannelNoMessages` | src/chat.rs:40-42 | a receiver spawned for an empty channel setting, as with the defaults, submits nothing |
| `Widgets.RestartTwice` | src/ui/widgets/mod.rs:57-75 | two updates with the same channel spawn two distinct receivers for that channel; the first one's trigger is sent and the second one's is not |
| `SettingsTab.DefaultChatBuffer` | src/ui/widgets/settings.rs:61-63 | the default chat history size is 250 |
| `SettingsTab.Default` | src/ui/widgets/settings.rs:32-40 | no unsaved changes, no channel, chat history size 250 |
| `SettingsTab.SaveDisabled` | src/ui/widgets/settings.rs:91 | the Save button is disabled exactly while `changes` is false; `OnSave` leaves it disabled, and `EditEnablesSave` and `LoadIsSeenAsEdit` show when it becomes enabled |
| `SettingsTab.OnSave` | src/ui/widgets/settings.rs:103-108 | clears `changes`, which disables the Save button, and submits exactly one settings update |
| `SettingsTab.DetectorUpdate` | src/ui/widgets/settings.rs:144-146 | the pending flag becomes set iff it was set, or neither data has `changes` and the data differ |
| `SettingsTab.DetectorEvent` | src/ui/widgets/settings.rs:115-134 | `WindowConnected` replaces the data with the loaded settings or the defaults and submits one settings update; a pending flag then sets `changes` and is cleared; other events submit nothing |
| `SettingsTab.DataChangeDetector.constructor` | src/ui/widgets/settings.rs:111-112 | nothing is pending at first |
| `SettingsTab.DataChangeDetector.Event` | src/ui/widgets/settings.rs:115-134 | the new flag, data and submitted commands are those of `DetectorEvent` |
| `SettingsTab.DataChangeDetector.Update` | src/ui/widgets/settings.rs:136-149 | the new flag is that of `DetectorUpdate` |
| `SettingsTab.EditEnablesSave` | src/ui/widgets/settings.rs:128-131 | an edit of saved settings is flagged by `update` and enables the Save button at the next event |
| `SettingsTab.SaveIsNotAnEdit` | src/ui/widgets/settings.rs:103-106 | the change that saving makes does not set the pending flag, so Save stays disabled |
| `SettingsTab.QuietEventKeepsData` | src/ui/widgets/settings.rs:121-131 | with nothing pending, an event other than `WindowConnected` changes nothing and submits nothing |
| `SettingsTab.LoadIsSeenAsEdit` | src/ui/widgets/settings.rs:123-126 | loading settings that differ from the current data at `WindowConnected` is flagged by the next `update` like an edit, so Save is enabled after the next event |

## Left out

- Threads, the tokio runtime and the join handle's thread are not modelled. A receiver is a value: its channel and its trigger. Its run is the sequential loop `ChatReceiver.Run` over the messages it receives.
- The chat client is not modelled: the TLS transport, login and `client.join`. A failed join panics inside the receiver thread, and the model reads it as "no commands" (`joined == false`). A stream that ends or fails is the end of `arrivals`.
- `add_idle_callback` and `submit_command` are not modelled as a message boundary. The UI applies the effects directly: the history push is `ChatTab.Chat.PushMessage`, and the commands reach the controllers as `UiEvents.UiEvent` values.
- Widget construction, layout, labels and `src/main.rs` are not modelled. The subscriber-percentage label does floating-point division and is left out too.
- Druid's `Data::same` is modelled only through the explicit fast comparators. `DetectorUpdate` compares the settings for equality, which is what the derived `same` does for these three fields.
- The settings file, `Settings::from_file` and `Settings::save`, is not modelled. Loading is an input; saving has no effect in the model.
- `SettingsTab.OnSave` assumes that writing the settings file succeeds. The source panics with `expect("saving settings")` when the write fails, before the settings update is submitted (src/ui/widgets/settings.rs:105-106).
- `ChatReceiver.Run` assumes that every `submit_command` succeeds. The source panics with `expect` once the UI event loop is gone (src/chat.rs:86-88, 95-97), which ends the receiver thread early.
- `ChatReceiver.Spawn` assumes that building the tokio runtime succeeds. The source panics with `expect("building tokio runtime")` otherwise (src/chat.rs:44-47), and nothing is submitted.
- `rand::thread_rng` is not modelled: the drawn position is the `index` parameter of `GiveawayTab.Giveaway.OnDrawWinner`. With no entrants the source panics on an empty range. The model therefore requires an index below the entrant count.
- `Widgets.StopTrigger.Send` does not model the receiver side being dropped. The source discards the resulting send error, so nothing observable changes.
- `Strings.Lowercase` lowercases only the ASCII letters A-Z, whereas `str::to_lowercase` applies the full Unicode mapping. Twitch logins are ASCII letters, digits and `_`, so a channel name with other characters fails to join anyway. The exceptions are the few non-ASCII characters that lowercase to ASCII, such as the Kelvin sign U+212A, which becomes `k`.
- `OverviewTab.Step`: the counters are unbounded naturals. The `usize` and `u64` overflow of `total_messages`, `total_bits` and the other counters is not modelled.
- The broadcast of one command to several controllers is not composed into one object. Each controller is modelled and proved on its own over the same event sequence. A settings update reaches the supervisor first, as the root controller, and then the tabs.
