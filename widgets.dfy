/**
 * The root controller `ChatReceiverSpawner` (src/ui/widgets/mod.rs): it holds
 * at most one running chat receiver, as the receiver's stop trigger and its
 * thread's join handle, and replaces it on every `SETTINGS_UPDATE`.
 */
module Widgets {
  import opened Common
  import opened ChatReceiver
  import opened Strings
  import opened UiEvents
  import opened SettingsTab
  import ChatTab

  /**
   * A one-shot stop channel, as its receiving side observes it: `Empty`
   * until the sender sends (`Fired`) or is dropped (`Closed`).
   */
  class StopTrigger {
    var state: TriggerState

    /** `oneshot::channel()` */
    constructor ()
      ensures state == Empty
    {
      state := Empty;
    }

    /**
     * `stop_trigger.send(()).ok()`: the signal is sent; a receiver that has
     * already finished makes `send` fail, and the error is discarded.
     */
    method Send()
      modifies this
      ensures state == Fired
    {
      state := Fired;
    }
  }

  /** A spawned receiver thread: the channel it was built for and the trigger that stops it. */
  class JoinHandle {
    const channel: string
    const stopTrigger: StopTrigger

    /** `ChatReceiver::builder()...build().spawn()` */
    constructor (channel: string, stopTrigger: StopTrigger)
      ensures this.channel == channel && this.stopTrigger == stopTrigger
    {
      this.channel := channel;
      this.stopTrigger := stopTrigger;
    }
  }

  class ChatReceiverSpawner {
    var joinHandle: Option<JoinHandle>
    var stopTrigger: Option<StopTrigger>

    /** Every receiver spawned so far, oldest first. */
    ghost var Sessions: seq<JoinHandle>
    /** Their stop triggers. */
    ghost var Repr: set<StopTrigger>

    /**
     * The slot holds the most recent receiver, whose trigger has not been
     * sent; every earlier receiver has been sent its stop signal. So at most
     * one receiver is not told to stop.
     */
    ghost predicate Valid()
      reads this, Repr
    {
      && (joinHandle.None? <==> Sessions == [])
      && (stopTrigger.None? <==> Sessions == [])
      && (forall i :: 0 <= i < |Sessions| ==> Sessions[i].stopTrigger in Repr)
      && (Sessions != [] ==>
            && joinHandle == Some(Sessions[|Sessions| - 1])
            && stopTrigger == Some(Sessions[|Sessions| - 1].stopTrigger)
            && Sessions[|Sessions| - 1].stopTrigger.state == Empty)
      && (forall i :: 0 <= i < |Sessions| - 1 ==> Sessions[i].stopTrigger.state == Fired)
    }

    /** `ChatReceiverSpawner::default()` */
    constructor ()
      ensures Valid() && Sessions == [] && Repr == {}
      ensures joinHandle == None && stopTrigger == None
    {
      joinHandle := None;
      stopTrigger := None;
      Sessions := [];
      Repr := {};
    }

    /**
     * `ChatReceiverSpawner::event`. On `SETTINGS_UPDATE`: send the held stop
     * trigger (if any), clear the chat history, and spawn a receiver for the
     * lowercased channel with a fresh trigger. Other events change nothing.
     */
    method Event(e: UiEvent, settings: Settings, chat: ChatTab.Chat)
      requires Valid()
      modifies this, Repr, chat
      ensures Valid() && fresh(Repr - old(Repr))
      ensures e.SettingsUpdate? ==>
        && (old(stopTrigger).Some? ==> old(stopTrigger).value.state == Fired)
        && chat.messages == []
        && joinHandle.Some? && fresh(joinHandle.value)
        && joinHandle.value.channel == Lowercase(settings.twitchChannel)
        && stopTrigger == Some(joinHandle.value.stopTrigger)
        && fresh(joinHandle.value.stopTrigger)
        && Sessions == old(Sessions) + [joinHandle.value]
      ensures !e.SettingsUpdate? ==>
        && joinHandle == old(joinHandle) && stopTrigger == old(stopTrigger)
        && Sessions == old(Sessions) && Repr == old(Repr)
        && chat.messages == old(chat.messages)
        && forall t :: t in Repr ==> t.state == old(t.state)
    {
      if e.SettingsUpdate? {
        if stopTrigger.Some? {
          var previous := stopTrigger.value;
          stopTrigger := None;
          previous.Send();
        }
        chat.Clear();

        var trigger := new StopTrigger();
        var handle := new JoinHandle(Lowercase(settings.twitchChannel), trigger);
        joinHandle := Some(handle);
        stopTrigger := Some(trigger);
        Sessions := Sessions + [handle];
        Repr := Repr + {trigger};
      }
    }
  }

  /**
   * The receiver a settings update spawns submits nothing when no channel is
   * set, as with the default settings.
   */
  lemma NoChannelNoMessages(settings: Settings, joined: bool, arrivals: seq<Arrival>)
    requires settings.twitchChannel == ""
    ensures SessionOutput(Lowercase(settings.twitchChannel), joined, arrivals) == []
  {
  }

  /** Updating twice with the same channel spawns two receivers for the same lowercased channel. */
  method RestartTwice(spawner: ChatReceiverSpawner, settings: Settings, chat: ChatTab.Chat)
    requires spawner.Valid()
    modifies spawner, spawner.Repr, chat
    ensures spawner.Valid()
    ensures |spawner.Sessions| == |old(spawner.Sessions)| + 2
    ensures spawner.Sessions[|spawner.Sessions| - 2].stopTrigger.state == Fired
    ensures spawner.Sessions[|spawner.Sessions| - 1].stopTrigger.state == Empty
    ensures spawner.Sessions[|spawner.Sessions| - 2].channel == spawner.Sessions[|spawner.Sessions| - 1].channel
    ensures spawner.Sessions[|spawner.Sessions| - 2] != spawner.Sessions[|spawner.Sessions| - 1]
    ensures chat.messages == []
  {
    spawner.Event(SettingsUpdate, settings, chat);
    spawner.Event(SettingsUpdate, settings, chat);
  }
}
