/** The channel table: a status flip, an "add channel" button and two link
    buttons, each of which only reports to the activity log. The channel
    list itself is never changed. */
module Channels {
  import opened Types
  import opened Session

  /** The status a toggle reports, given the row's current status text:
      paused for "active", active for anything else. */
  function NewStatus(current: string): (s: ChannelStatus)
    ensures s == Paused <==> current == StatusTag(Active)
  {
    if current == "active" then Paused else Active
  }

  /** Flipping twice through the status text gives back either status. */
  lemma FlipTwice(s: ChannelStatus)
    ensures NewStatus(StatusTag(NewStatus(StatusTag(s)))) == s
    ensures NewStatus(StatusTag(s)) != s
  {
  }

  /** The status badge's text: "Active" exactly for an active channel. */
  function StatusLabel(s: ChannelStatus): (badge: string)
    ensures badge == "Active" <==> s == Active
    ensures s == Paused ==> badge == "Paused"
  {
    assert "Active" != "Paused";
    if s == Active then "Active" else "Paused"
  }

  const AddChannelEnText: string := "Opened \"Add Channel\" modal (Mock)"
  const AddChannelZhText: string := "已開啟「新增頻道」視窗 (模擬)"
  const TogglePrefix: string := " is now "
  const OpenLinkPrefix: string := "Opening YouTube Studio for: "
  const MoreOptionsPrefix: string := "Opened settings menu for: "

  /** The log record of a status flip: a warning naming the channel and the
      status it reportedly moves to. */
  function ToggleRecord(currentStatus: string, name: string): (rec: LogRecord)
    ensures rec.level == Warning
    ensures |rec.message| == |name| + |TogglePrefix| + |StatusTag(NewStatus(currentStatus))|
    ensures rec.message[..|name|] == name
    ensures rec.message[|name|..|name| + |TogglePrefix|] == TogglePrefix
    ensures rec.message[|name| + |TogglePrefix|..] == StatusTag(NewStatus(currentStatus))
  {
    LogRecord(Warning, name + TogglePrefix + StatusTag(NewStatus(currentStatus)))
  }

  /** The log record of the "add channel" button: English text only for
      English, the Chinese text otherwise. */
  function AddChannelRecord(l: Language): (rec: LogRecord)
    ensures rec.level == Info
    ensures rec.message == AddChannelEnText <==> l == En
    ensures l == ZhTW ==> rec.message == AddChannelZhText
  {
    assert AddChannelEnText[0] != AddChannelZhText[0];
    LogRecord(Info, if l == En then AddChannelEnText else AddChannelZhText)
  }

  /** The log record of the studio link: an info naming the channel. */
  function OpenLinkRecord(name: string): (rec: LogRecord)
    ensures rec.level == Info
    ensures |rec.message| == |OpenLinkPrefix| + |name| && rec.message[..|OpenLinkPrefix|] == OpenLinkPrefix
    ensures rec.message[|OpenLinkPrefix|..] == name
  {
    LogRecord(Info, OpenLinkPrefix + name)
  }

  /** The log record of the options button: an info naming the channel. */
  function MoreOptionsRecord(name: string): (rec: LogRecord)
    ensures rec.level == Info
    ensures |rec.message| == |MoreOptionsPrefix| + |name| && rec.message[..|MoreOptionsPrefix|] == MoreOptionsPrefix
    ensures rec.message[|MoreOptionsPrefix|..] == name
  {
    LogRecord(Info, MoreOptionsPrefix + name)
  }

  /** The channel named in a toggle's message can be read back from it. */
  lemma ToggleMessageNamesChannel(currentStatus: string, name: string, name': string)
    requires ToggleRecord(currentStatus, name) == ToggleRecord(currentStatus, name')
    ensures name == name'
  {
  }

  class ChannelsPage {
    const store: Store

    constructor (store: Store)
      ensures this.store == store
    {
      this.store := store;
    }

    method HandleAddChannel()
      requires store.Valid()
      modifies store
      ensures store.Valid()
      ensures store.history == old(store.history)
        + [Entry(store.clock, old(store.issued), AddChannelRecord(old(store.language)))]
      ensures store.logs[0].level == Info
      ensures store.language == old(store.language)
    {
      var rec := AddChannelRecord(store.language);
      store.AddLog(rec.level, rec.message);
    }

    /** The flip reports the new status but leaves the channel's own status as it was. */
    method HandleToggleStatus(id: string, currentStatus: string, name: string)
      requires store.Valid()
      modifies store
      ensures store.Valid()
      ensures store.history == old(store.history)
        + [Entry(store.clock, old(store.issued), ToggleRecord(currentStatus, name))]
      ensures store.logs[0].level == Warning
      ensures store.language == old(store.language)
    {
      var rec := ToggleRecord(currentStatus, name);
      store.AddLog(rec.level, rec.message);
    }

    method HandleOpenLink(name: string)
      requires store.Valid()
      modifies store
      ensures store.Valid()
      ensures store.history == old(store.history) + [Entry(store.clock, old(store.issued), OpenLinkRecord(name))]
      ensures store.logs[0].level == Info
      ensures store.language == old(store.language)
    {
      var rec := OpenLinkRecord(name);
      store.AddLog(rec.level, rec.message);
    }

    method HandleMoreOptions(name: string)
      requires store.Valid()
      modifies store
      ensures store.Valid()
      ensures store.history == old(store.history) + [Entry(store.clock, old(store.issued), MoreOptionsRecord(name))]
      ensures store.logs[0].level == Info
      ensures store.language == old(store.language)
    {
      var rec := MoreOptionsRecord(name);
      store.AddLog(rec.level, rec.message);
    }
  }
}
