/**
 * The Settings tab (src/ui/widgets/settings.rs): default values, the Save
 * button, and the two-phase change detection of `DataChangeDetector`.
 * Reading and writing the settings file are left to the caller: the
 * outcome of loading is an input.
 */
module SettingsTab {
  import opened Common
  import opened UiEvents

  /** The settings data: the unsaved-changes flag, the channel login name and the chat history size. */
  datatype Settings = Settings(changes: bool, twitchChannel: string, chatBuffer: nat)

  /** `Settings::default_chat_buffer` */
  function DefaultChatBuffer(): (n: nat)
    ensures n == 250
  {
    250
  }

  /** `Settings::default`: no unsaved changes, no channel, the default chat history size. */
  function Default(): (s: Settings)
    ensures !s.changes && s.twitchChannel == "" && s.chatBuffer == DefaultChatBuffer()
  {
    Settings(false, "", DefaultChatBuffer())
  }

  /** The Save button is disabled while there is nothing to save. */
  predicate SaveDisabled(data: Settings) {
    !data.changes
  }

  /**
   * `on_save`: clear the changes flag, then submit one `SETTINGS_UPDATE`.
   * Writing the file is not modelled.
   */
  method OnSave(data: Settings) returns (saved: Settings, submitted: seq<UiEvent>)
    ensures saved == data.(changes := false)
    ensures SaveDisabled(saved)
    ensures submitted == [SettingsUpdate]
  {
    saved := data.(changes := false);
    submitted := [SettingsUpdate];
  }

  /** `DataChangeDetector::update`: the new pending flag after druid reports `oldData` became `data`. */
  function DetectorUpdate(pending: bool, oldData: Settings, data: Settings): (r: bool)
    ensures r <==> pending || (!data.changes && !oldData.changes && oldData != data)
  {
    if !data.changes && !oldData.changes && oldData != data then true else pending
  }

  /** What one `DataChangeDetector::event` produces. */
  datatype DetectorResult = DetectorResult(pending: bool, data: Settings, submitted: seq<UiEvent>)

  /**
   * `DataChangeDetector::event`: on `WindowConnected` the data is replaced
   * by the loaded settings (the defaults when loading failed) and one
   * `SETTINGS_UPDATE` is submitted; then a pending flag is turned into
   * `changes = true` and cleared.
   */
  function DetectorEvent(pending: bool, e: UiEvent, data: Settings, loaded: Option<Settings>): (r: DetectorResult)
    ensures !r.pending
    ensures e.WindowConnected? ==> r.submitted == [SettingsUpdate]
    ensures !e.WindowConnected? ==> r.submitted == []
    ensures var base := if e.WindowConnected? then loaded.GetOr(Default()) else data;
      r.data == if pending then base.(changes := true) else base
  {
    var base := if e.WindowConnected? then loaded.GetOr(Default()) else data;
    var submitted := if e.WindowConnected? then [SettingsUpdate] else [];
    if pending then DetectorResult(false, base.(changes := true), submitted)
    else DetectorResult(false, base, submitted)
  }

  /** The controller object: its one field is the pending flag. */
  class DataChangeDetector {
    var pending: bool

    /** `DataChangeDetector::default()` */
    constructor ()
      ensures !pending
    {
      pending := false;
    }

    method Event(e: UiEvent, data: Settings, loaded: Option<Settings>)
      returns (newData: Settings, submitted: seq<UiEvent>)
      modifies this
      ensures DetectorResult(pending, newData, submitted) == DetectorEvent(old(pending), e, data, loaded)
    {
      newData := data;
      submitted := [];
      if e.WindowConnected? {
        newData := match loaded case Some(s) => s case None => Default();
        submitted := [SettingsUpdate];
      }
      if pending {
        newData := newData.(changes := true);
        pending := false;
      }
    }

    method Update(oldData: Settings, data: Settings)
      modifies this
      ensures pending == DetectorUpdate(old(pending), oldData, data)
    {
      if !data.changes && !oldData.changes && oldData != data {
        pending := true;
      }
    }
  }

  // ---------------------------------------------------------------------
  // Properties of the protocol
  // ---------------------------------------------------------------------

  /**
   * An edit of saved settings is flagged by `update` and turned into
   * `changes = true` on the next event, which enables the Save button.
   */
  lemma EditEnablesSave(pending: bool, oldData: Settings, data: Settings, e: UiEvent, loaded: Option<Settings>)
    requires !oldData.changes && !data.changes && oldData != data
    ensures !SaveDisabled(DetectorEvent(DetectorUpdate(pending, oldData, data), e, data, loaded).data)
  {
  }

  /**
   * Saving does not flag itself: the change from `changes = true` to
   * `changes = false` made by `on_save` leaves the pending flag as it was,
   * so the Save button stays disabled until the next edit.
   */
  lemma SaveIsNotAnEdit(pending: bool, data: Settings)
    requires data.changes
    ensures DetectorUpdate(pending, data, data.(changes := false)) == pending
    ensures !pending ==>
      SaveDisabled(DetectorEvent(DetectorUpdate(pending, data, data.(changes := false)), OtherEvent, data.(changes := false), None).data)
  {
  }

  /** Without a pending flag and outside `WindowConnected`, an event changes nothing. */
  lemma QuietEventKeepsData(e: UiEvent, data: Settings, loaded: Option<Settings>)
    requires !e.WindowConnected?
    ensures DetectorEvent(false, e, data, loaded) == DetectorResult(false, data, [])
  {
  }

  /**
   * Loading at `WindowConnected` is itself reported by `update` as an edit
   * when the loaded settings differ from the previous data, so the Save
   * button is enabled by the event after it.
   */
  lemma LoadIsSeenAsEdit(data: Settings, loaded: Settings, next: UiEvent)
    requires !data.changes && !loaded.changes && loaded != data && !next.WindowConnected?
    ensures var afterLoad := DetectorEvent(false, WindowConnected, data, Some(loaded));
      && afterLoad.data == loaded
      && !SaveDisabled(DetectorEvent(DetectorUpdate(afterLoad.pending, data, afterLoad.data), next, afterLoad.data, None).data)
  {
  }
}
