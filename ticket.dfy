/** The ticket feature: the `/ticket setup|panel|off` commands, the panel
    replacement, and the open and close forms with their counter and ticket
    records. Each button and form is decided by a pure step function
    (`ButtonStep`, `ModalStep`) and carried out by a method. */
module Ticket {
  import opened Util
  import opened Strs
  import opened Platform
  import opened TicketPanel

  /** `ticket_cfg_<guildId>`. */
  datatype TicketConfig = TicketConfig(
    panelChannelId: Id,
    categoryId: Id,
    staffRoleId: Option<Id>,
    logChannelId: Option<Id>,
    panelMessageId: Option<Id>)

  /** `ticket_data_<channelId>`: the padded number, the opener and the complaint. */
  datatype TicketRecord = TicketRecord(number: string, openedById: Id, complaint: string)

  /** The ticket feature's part of the key-value store. */
  class TicketDb {
    /** `ticket_cfg_<guildId>` */
    var configs: map<Id, TicketConfig>
    /** `ticket_data_<channelId>` */
    var records: map<Id, TicketRecord>
    /** `ticket_counter_<guildId>` */
    var counters: map<Id, nat>

    constructor ()
      ensures configs == map[] && records == map[] && counters == map[]
    {
      configs := map[];
      records := map[];
      counters := map[];
    }
  }

  /** JavaScript truthiness of an optional id: present and not empty. */
  predicate Truthy(o: Option<Id>) {
    o.Some? && o.value != ""
  }

  /** `x || null` on an optional id. */
  function OrNull(o: Option<Id>): (r: Option<Id>)
    ensures r.Some? <==> Truthy(o)
    ensures r.Some? ==> r == o
  {
    if Truthy(o) then o else None
  }

  // ---------------- /ticket setup ----------------

  /** A channel picked as a command option. */
  datatype ChannelRef = ChannelRef(id: Id, kind: ChannelKind)

  datatype SetupError = CategoryNotCategory | PanelNotText | LogNotText

  datatype SetupResult = Rejected(why: SetupError) | Configured(cfg: TicketConfig)

  predicate IsTextChannel(k: ChannelKind) {
    k == GuildText || k == GuildAnnouncement
  }

  /** The checks of `/ticket setup`, in their order, and the configuration it
      stores. */
  function SetupConfig(category: ChannelRef, log: Option<ChannelRef>, panel: ChannelRef, staffRole: Option<Id>): SetupResult {
    if category.kind != GuildCategory then Rejected(CategoryNotCategory)
    else if !IsTextChannel(panel.kind) then Rejected(PanelNotText)
    else if log.Some? && !IsTextChannel(log.value.kind) then Rejected(LogNotText)
    else
      var logId := if log.Some? then Some(log.value.id) else None;
      Configured(TicketConfig(panel.id, category.id, OrNull(staffRole), OrNull(logId), None))
  }

  /** Setup succeeds exactly when the category is a category, the panel a text
      or announcement channel, and the log, when given, one too; the stored
      configuration names the chosen channels, has no panel message yet, and
      holds a role or log only when one was given. */
  lemma SetupContract(category: ChannelRef, log: Option<ChannelRef>, panel: ChannelRef, staffRole: Option<Id>)
    ensures var r := SetupConfig(category, log, panel, staffRole);
      && (r.Configured? <==>
            category.kind == GuildCategory && IsTextChannel(panel.kind)
            && (log.None? || IsTextChannel(log.value.kind)))
      && (category.kind != GuildCategory ==> r == Rejected(CategoryNotCategory))
      && (r.Configured? ==>
            && r.cfg.panelChannelId == panel.id && r.cfg.categoryId == category.id
            && r.cfg.panelMessageId.None?
            && (r.cfg.staffRoleId.Some? <==> Truthy(staffRole))
            && (r.cfg.logChannelId.Some? <==> log.Some? && log.value.id != "")
            && (r.cfg.logChannelId.Some? ==> r.cfg.logChannelId.value == log.value.id))
  {
  }

  /** `/ticket setup`: stores the configuration, or refuses with no write. */
  method Setup(db: TicketDb, guildId: Id, category: ChannelRef, log: Option<ChannelRef>, panel: ChannelRef,
               staffRole: Option<Id>) returns (refusal: Option<SetupError>)
    modifies db`configs
    ensures match SetupConfig(category, log, panel, staffRole)
      case Rejected(why) => refusal == Some(why) && db.configs == old(db.configs)
      case Configured(cfg) => refusal == None && db.configs == old(db.configs)[guildId := cfg]
  {
    match SetupConfig(category, log, panel, staffRole)
    case Rejected(why) =>
      refusal := Some(why);
    case Configured(cfg) =>
      db.configs := db.configs[guildId := cfg];
      refusal := None;
  }

  /** `/ticket off`: forgets the configuration. */
  method Off(db: TicketDb, guildId: Id)
    modifies db`configs
    ensures db.configs == old(db.configs) - {guildId}
  {
    db.configs := db.configs - {guildId};
  }

  // ---------------- the panel ----------------

  /** The number of old panels the replacement scans for. */
  const ReplaceScan: nat := 75

  /** The history once the recorded panel is deleted, when it is still there. */
  function WithoutRecorded(msgs: seq<Message>, recorded: Option<Id>): (r: seq<Message>)
    ensures forall m :: m in r <==> m in msgs && !(Truthy(recorded) && m.id == recorded.value)
    ensures UniqueIds(msgs) ==> UniqueIds(r)
  {
    if Truthy(recorded) && FindMessage(msgs, recorded.value).Some? then RemoveMessages(msgs, {recorded.value})
    else msgs
  }

  /** The history once the sweep of `cleanupOldTicketPanels(panelCh, 75)` ran. */
  function Swept(msgs: seq<Message>, kind: ChannelKind, meKnown: bool, canManageMessages: bool, fetchOk: bool,
                 botId: Id): seq<Message>
  {
    var me := if meKnown then Some(botId) else None;
    RemoveMessages(msgs, MessageIds(SweepTargets(kind, msgs, me, canManageMessages, fetchOk, ReplaceScan)))
  }

  /** The panel the replacement sends, once pinned. */
  function PinnedPanel(freshMsgId: Id, botId: Id): Message {
    TicketPanelMessage(freshMsgId, botId).(pinned := true)
  }

  /** The panel channel's history after `replaceTicketPanelMessage`: the
      recorded panel deleted when it is still there, the bot's old panels
      swept, and the new panel sent and pinned. `meKnown` says whether the
      bot's member in the guild is known. */
  function ReplacedHistory(msgs: seq<Message>, kind: ChannelKind, recorded: Option<Id>, meKnown: bool,
                           canManageMessages: bool, fetchOk: bool, botId: Id, freshMsgId: Id): seq<Message>
  {
    Swept(WithoutRecorded(msgs, recorded), kind, meKnown, canManageMessages, fetchOk, botId)
      + [PinnedPanel(freshMsgId, botId)]
  }

  /** The sweep keeps unique ids, adds nothing, deletes only the bot's
      panels, and, when it may run and the history is no longer than what it
      scans, leaves no bot panel behind. */
  lemma SweptSpec(msgs: seq<Message>, kind: ChannelKind, meKnown: bool, canManageMessages: bool, fetchOk: bool,
                  botId: Id)
    requires UniqueIds(msgs)
    ensures var r := Swept(msgs, kind, meKnown, canManageMessages, fetchOk, botId);
      && UniqueIds(r)
      && (forall m :: m in r ==> m in msgs)
      && (forall m :: m in msgs && !(m.authorId == botId && IsTicketPanelMessage(m)) ==> m in r)
      && (TextBased(kind) && meKnown && canManageMessages && fetchOk && |msgs| <= ReplaceScan ==>
            forall m :: m in r ==> !(m.authorId == botId && IsTicketPanelMessage(m)))
  {
    var me := if meKnown then Some(botId) else None;
    SweepTargetsSpec(kind, msgs, me, canManageMessages, fetchOk, ReplaceScan);
    if TextBased(kind) && meKnown && canManageMessages && fetchOk {
      SweepRemovesOnlyBotPanels(msgs, ReplaceScan, botId);
    }
  }

  /** After a replacement the newest message is the bot's pinned panel under
      the new id and ids stay unique. */
  lemma ReplacedHistoryEndsWithPanel(msgs: seq<Message>, kind: ChannelKind, recorded: Option<Id>, meKnown: bool,
                                     canManageMessages: bool, fetchOk: bool, botId: Id, freshMsgId: Id)
    requires UniqueIds(msgs) && freshMsgId !in MessageIds(msgs)
    ensures var r := ReplacedHistory(msgs, kind, recorded, meKnown, canManageMessages, fetchOk, botId, freshMsgId);
      && |r| > 0 && r[|r| - 1] == PinnedPanel(freshMsgId, botId)
      && r[|r| - 1].authorId == botId && r[|r| - 1].pinned && IsTicketPanelMessage(r[|r| - 1])
      && UniqueIds(r)
  {
    var w := WithoutRecorded(msgs, recorded);
    var swept := Swept(w, kind, meKnown, canManageMessages, fetchOk, botId);
    SweptSpec(w, kind, meKnown, canManageMessages, fetchOk, botId);
    PanelMessageRecognised(freshMsgId, botId);
    var r := swept + [PinnedPanel(freshMsgId, botId)];
    forall i, j | 0 <= i < j < |r| ensures r[i].id != r[j].id {
      if j == |r| - 1 {
        assert r[i] in swept;
      } else {
        assert r[i] == swept[i] && r[j] == swept[j];
      }
    }
  }

  /** A replacement deletes the recorded panel, keeps every message that is
      neither the recorded one nor a bot panel, adds only the new panel, and,
      when the sweep could run over the whole history, leaves no other bot
      panel behind. */
  lemma ReplacedHistoryKeeps(msgs: seq<Message>, kind: ChannelKind, recorded: Option<Id>, meKnown: bool,
                             canManageMessages: bool, fetchOk: bool, botId: Id, freshMsgId: Id)
    requires UniqueIds(msgs)
    ensures var r := ReplacedHistory(msgs, kind, recorded, meKnown, canManageMessages, fetchOk, botId, freshMsgId);
      var before := r[..|r| - 1];
      && (Truthy(recorded) ==> recorded.value !in MessageIds(before))
      && (forall m :: m in before ==> m in msgs)
      && (forall m :: (m in msgs && !(Truthy(recorded) && m.id == recorded.value)
            && !(m.authorId == botId && IsTicketPanelMessage(m))) ==> m in before)
      && (TextBased(kind) && meKnown && canManageMessages && fetchOk && |msgs| <= ReplaceScan ==>
            forall m :: m in before ==> !(m.authorId == botId && IsTicketPanelMessage(m)))
  {
    var w := WithoutRecorded(msgs, recorded);
    var swept := Swept(w, kind, meKnown, canManageMessages, fetchOk, botId);
    var r := swept + [PinnedPanel(freshMsgId, botId)];
    assert r[..|r| - 1] == swept;
    SweptSpec(w, kind, meKnown, canManageMessages, fetchOk, botId);
    if |msgs| <= ReplaceScan {
      assert |w| <= |msgs| by {
        if Truthy(recorded) && FindMessage(msgs, recorded.value).Some? {
        }
      }
    }
  }

  /** `replaceTicketPanelMessage`: refuses when the panel channel is missing
      or not text-based; otherwise deletes the recorded panel if it is still
      there, sweeps the bot's old panels, sends and pins a new one, and
      records its id in the stored configuration. */
  method ReplaceTicketPanelMessage(db: TicketDb, guildId: Id, cfg: TicketConfig, panelCh: Channel?,
                                   meKnown: bool, canManageMessages: bool, fetchOk: bool, botId: Id, freshMsgId: Id)
    returns (ok: bool)
    modifies panelCh, db`configs
    ensures ok <==> panelCh != null && TextBased(panelCh.kind)
    ensures !ok ==> db.configs == old(db.configs) && (panelCh != null ==> unchanged(panelCh))
    ensures ok ==>
      && panelCh.messages == ReplacedHistory(old(panelCh.messages), panelCh.kind, cfg.panelMessageId, meKnown,
                                             canManageMessages, fetchOk, botId, freshMsgId)
      && db.configs == old(db.configs)[guildId := cfg.(panelMessageId := Some(freshMsgId))]
      && panelCh.name == old(panelCh.name) && panelCh.overwrites == old(panelCh.overwrites)
      && panelCh.members == old(panelCh.members) && panelCh.deleted == old(panelCh.deleted)
      && panelCh.userLimit == old(panelCh.userLimit)
  {
    if panelCh == null || !TextBased(panelCh.kind) {
      return false;
    }
    ReplaceHistory(panelCh, cfg.panelMessageId, meKnown, canManageMessages, fetchOk, botId, freshMsgId);
    db.configs := db.configs[guildId := cfg.(panelMessageId := Some(freshMsgId))];
    ok := true;
  }

  /** The channel half of `replaceTicketPanelMessage`: delete the recorded
      panel, sweep, send the new panel and pin it. */
  method ReplaceHistory(panelCh: Channel, recorded: Option<Id>, meKnown: bool, canManageMessages: bool,
                        fetchOk: bool, botId: Id, freshMsgId: Id)
    requires TextBased(panelCh.kind)
    modifies panelCh`messages
    ensures panelCh.messages == ReplacedHistory(old(panelCh.messages), panelCh.kind, recorded, meKnown,
                                                canManageMessages, fetchOk, botId, freshMsgId)
  {
    if Truthy(recorded) {
      var found := FindMessage(panelCh.messages, recorded.value);
      if found.Some? {
        panelCh.messages := RemoveMessages(panelCh.messages, {found.value.id});
      }
    }
    var _ := CleanupOldTicketPanels(panelCh, if meKnown then Some(botId) else None, canManageMessages, fetchOk, ReplaceScan);
    var msg := TicketPanelMessage(freshMsgId, botId);
    panelCh.messages := panelCh.messages + [msg];
    if !msg.pinned {
      panelCh.messages := panelCh.messages[..|panelCh.messages| - 1] + [msg.(pinned := true)];
    }
  }

  datatype PanelRefusal = NotSetUp | NoPanelChannel

  /** `/ticket panel`: needs a configuration naming a panel channel and a
      category, then replaces the panel. `panelCh` is the channel fetched
      under the configured id, `null` when it does not exist. */
  method PanelCommand(db: TicketDb, guildId: Id, panelCh: Channel?,
                      meKnown: bool, canManageMessages: bool, fetchOk: bool, botId: Id, freshMsgId: Id)
    returns (refusal: Option<PanelRefusal>)
    requires guildId in db.configs && panelCh != null ==> panelCh.id == db.configs[guildId].panelChannelId
    modifies panelCh, db`configs
    ensures var ready := guildId in old(db.configs) && old(db.configs)[guildId].panelChannelId != ""
                       && old(db.configs)[guildId].categoryId != "";
      && (!ready ==> refusal == Some(NotSetUp) && db.configs == old(db.configs) && (panelCh != null ==> unchanged(panelCh)))
      && (ready && (panelCh == null || !TextBased(panelCh.kind)) ==>
            refusal == Some(NoPanelChannel) && db.configs == old(db.configs) && (panelCh != null ==> unchanged(panelCh)))
      && (ready && panelCh != null && TextBased(panelCh.kind) ==>
            && refusal == None
            && db.configs == old(db.configs)[guildId := old(db.configs)[guildId].(panelMessageId := Some(freshMsgId))]
            && panelCh.messages == ReplacedHistory(old(panelCh.messages), panelCh.kind,
                                                   old(db.configs)[guildId].panelMessageId, meKnown,
                                                   canManageMessages, fetchOk, botId, freshMsgId)
            && unchanged(panelCh`name, panelCh`overwrites, panelCh`members, panelCh`deleted, panelCh`userLimit))
  {
    if guildId !in db.configs || db.configs[guildId].panelChannelId == "" || db.configs[guildId].categoryId == "" {
      return Some(NotSetUp);
    }
    var ok := ReplaceTicketPanelMessage(db, guildId, db.configs[guildId], panelCh, meKnown, canManageMessages,
                                        fetchOk, botId, freshMsgId);
    refusal := if ok then None else Some(NoPanelChannel);
  }

  // ---------------- buttons and forms ----------------

  /** The message a new ticket channel starts with. */
  function TicketOpenedMessage(id: Id, botId: Id): Message {
    Message(id, botId, "", ["🎫 Ticket Açıldı"], [[Button(CloseButtonId)]], false)
  }

  /** A ticket's opening message is never taken for a panel, so no sweep
      deletes it. */
  lemma OpenedMessageIsNoPanel(id: Id, botId: Id)
    ensures !IsTicketPanelMessage(TicketOpenedMessage(id, botId))
  {
    assert !RowHasOpenButton([Button(CloseButtonId)]);
    assert !HasOpenButton([[Button(CloseButtonId)]]);
  }

  datatype TicketOutcome =
    | Ignored
    | NotConfigured
    | ShowModal(modalId: string)
    | EmptyInput
    | NoRecord
    /** Open ticket number `number` with the trimmed complaint. */
    | OpenAs(number: nat, complaint: string)
    /** Close the ticket of the interaction's channel. */
    | Close

  /** A button: only `t_` buttons concern tickets, and they need a configuration. */
  function ButtonStep(customId: string, configured: bool): TicketOutcome {
    if !("t_" <= customId) then Ignored
    else if !configured then NotConfigured
    else if customId == OpenButtonId then ShowModal("t_modal_open")
    else if customId == CloseButtonId then ShowModal("t_modal_close")
    else Ignored
  }

  /** The counter as the open form reads it: absent counts as 0. */
  function Counter(counters: map<Id, nat>, guildId: Id): nat {
    if guildId in counters then counters[guildId] else 0
  }

  /** A submitted form: only `t_modal_` forms concern tickets, and they need
      a configuration; a blank complaint or reason is refused, and a close
      needs a ticket record for the channel. */
  function ModalStep(customId: string, configured: bool, input: string, counter: nat, hasRecord: bool): TicketOutcome {
    if !("t_modal_" <= customId) then Ignored
    else if !configured then NotConfigured
    else if customId == "t_modal_open" then
      if Trim(input) == [] then EmptyInput else OpenAs(counter + 1, Trim(input))
    else if customId == "t_modal_close" then
      if Trim(input) == [] then EmptyInput
      else if !hasRecord then NoRecord
      else Close
    else Ignored
  }

  /** The open and close buttons open their forms only once the feature is
      configured, and nothing else does. */
  lemma ButtonContract(customId: string, configured: bool)
    ensures ButtonStep(customId, configured).ShowModal? <==>
      configured && (customId == OpenButtonId || customId == CloseButtonId)
    ensures customId == OpenButtonId && configured ==> ButtonStep(customId, configured) == ShowModal("t_modal_open")
    ensures customId == CloseButtonId && configured ==> ButtonStep(customId, configured) == ShowModal("t_modal_close")
    ensures ButtonStep(customId, configured) != Ignored ==> "t_" <= customId
  {
  }

  /** A ticket opens exactly when the open form of a configured guild carries
      a complaint that is not blank, and gets the next number. */
  lemma OpenContract(customId: string, configured: bool, input: string, counter: nat, hasRecord: bool)
    ensures var o := ModalStep(customId, configured, input, counter, hasRecord);
      && (o.OpenAs? <==> customId == "t_modal_open" && configured && !AllSpace(input))
      && (o.OpenAs? ==> o.number == counter + 1 && o.complaint == Trim(input) && o.complaint != [])
  {
    TrimEmptyIffAllSpace(input);
    if customId == "t_modal_open" && configured {
      OpenFormSteps(input, counter, hasRecord);
    }
  }

  /** A ticket closes exactly when the close form of a configured guild
      carries a reason that is not blank and the channel has a ticket record. */
  lemma CloseContract(customId: string, configured: bool, input: string, counter: nat, hasRecord: bool)
    ensures ModalStep(customId, configured, input, counter, hasRecord).Close? <==>
      customId == "t_modal_close" && configured && !AllSpace(input) && hasRecord
  {
    TrimEmptyIffAllSpace(input);
    if customId == "t_modal_close" && configured {
      CloseFormSteps(input, counter, hasRecord);
    }
  }

  /** A blank complaint or reason is refused before anything else is looked at. */
  lemma BlankInputRefused(customId: string, configured: bool, input: string, counter: nat, hasRecord: bool)
    requires configured && (customId == "t_modal_open" || customId == "t_modal_close")
    ensures ModalStep(customId, configured, input, counter, hasRecord) == EmptyInput <==> AllSpace(input)
  {
    TrimEmptyIffAllSpace(input);
    if customId == "t_modal_close" {
      CloseFormSteps(input, counter, hasRecord);
    } else {
      OpenFormSteps(input, counter, hasRecord);
    }
  }

  /** The open form of a configured guild, case by case. */
  lemma OpenFormSteps(input: string, counter: nat, hasRecord: bool)
    ensures Trim(input) == [] ==> ModalStep("t_modal_open", true, input, counter, hasRecord) == EmptyInput
    ensures Trim(input) != [] ==>
      ModalStep("t_modal_open", true, input, counter, hasRecord) == OpenAs(counter + 1, Trim(input))
  {
    var customId := "t_modal_open";
    assert "t_modal_" <= customId;
  }

  /** The close form of a configured guild, case by case. */
  lemma CloseFormSteps(input: string, counter: nat, hasRecord: bool)
    ensures Trim(input) == [] ==> ModalStep("t_modal_close", true, input, counter, hasRecord) == EmptyInput
    ensures Trim(input) != [] ==>
      ModalStep("t_modal_close", true, input, counter, hasRecord) == (if hasRecord then Close else NoRecord)
  {
    var customId := "t_modal_close";
    assert "t_modal_" <= customId;
    assert customId != "t_modal_open";
  }

  /** The overwrites of a new ticket channel: hidden from @everyone, open to
      the opener, and open to the staff role when one is configured. */
  function TicketOverwrites(everyone: Id, opener: Id, staffRole: Option<Id>): (r: map<Id, Overwrite>)
    ensures r.Keys == {everyone, opener} + (if Truthy(staffRole) then {staffRole.value} else {})
  {
    var access := {ViewChannel, SendMessages, ReadMessageHistory};
    var base := map[everyone := Overwrite(RoleOverwrite, {}, {ViewChannel}), opener := Overwrite(MemberOverwrite, access, {})];
    if Truthy(staffRole) then base[staffRole.value := Overwrite(RoleOverwrite, access, {})] else base
  }

  /** Only the opener and the staff role may see a ticket; @everyone is
      denied unless it is itself one of them; the opener and the staff role
      may view, write and read the history. */
  lemma TicketPrivacy(everyone: Id, opener: Id, staffRole: Option<Id>)
    ensures var r := TicketOverwrites(everyone, opener, staffRole);
      && (forall k :: k in r && ViewChannel in r[k].allow ==>
            k == opener || (Truthy(staffRole) && k == staffRole.value))
      && (everyone != opener && !(Truthy(staffRole) && staffRole.value == everyone) ==>
            r[everyone] == Overwrite(RoleOverwrite, {}, {ViewChannel}))
      && (!(Truthy(staffRole) && staffRole.value == opener) ==>
            {ViewChannel, SendMessages, ReadMessageHistory} <= r[opener].allow && r[opener].deny == {})
      && (Truthy(staffRole) ==>
            r[staffRole.value] == Overwrite(RoleOverwrite, {ViewChannel, SendMessages, ReadMessageHistory}, {}))
  {
  }

  /** The parent of a new ticket channel: `cfg.categoryId || null`. */
  function ParentOf(cfg: TicketConfig): Option<Id> {
    OrNull(Some(cfg.categoryId))
  }

  /** The open form, once accepted: the guild's counter goes up by one, a text
      channel named after the new number is created under the category with
      the ticket's overwrites and its opening message, and the ticket record
      is stored under the new channel's id. */
  method OpenTicket(db: TicketDb, g: Guild, cfg: TicketConfig, openerId: Id, number: nat, complaint: string,
                    freshChannelId: Id, botId: Id, freshMsgId: Id) returns (ch: Channel)
    modifies db`counters, db`records
    ensures fresh(ch)
    ensures db.counters == old(db.counters)[g.id := number]
    ensures db.records == old(db.records)[freshChannelId := TicketRecord(Pad(number), openerId, complaint)]
    ensures ch.id == freshChannelId && ch.kind == GuildText && ch.name == TicketName(number)
    ensures ch.parentId == ParentOf(cfg) && ch.userLimit == None && ch.members == {} && !ch.deleted
    ensures ch.overwrites == TicketOverwrites(EveryoneId(g), openerId, cfg.staffRoleId)
    ensures ch.messages == [TicketOpenedMessage(freshMsgId, botId)]
  {
    db.counters := db.counters[g.id := number];
    ch := new Channel(freshChannelId, GuildText, ParentOf(cfg), TicketName(number), None,
                      TicketOverwrites(EveryoneId(g), openerId, cfg.staffRoleId));
    db.records := db.records[ch.id := TicketRecord(Pad(number), openerId, complaint)];
    ch.messages := ch.messages + [TicketOpenedMessage(freshMsgId, botId)];
  }

  /** A form submission: decided by `ModalStep` on the state before it, then
      carried out. `here` is the channel the form was submitted in. */
  method HandleModal(db: TicketDb, g: Guild, openerId: Id, customId: string, input: string, here: Channel,
                     freshChannelId: Id, botId: Id, freshMsgId: Id)
    returns (o: TicketOutcome, created: Channel?)
    modifies db`counters, db`records, here`deleted
    ensures o == ModalStep(customId, g.id in old(db.configs), input, Counter(old(db.counters), g.id),
                           here.id in old(db.records))
    ensures !o.OpenAs? && !o.Close? ==>
      created == null && db.counters == old(db.counters) && db.records == old(db.records) && here.deleted == old(here.deleted)
    ensures o.OpenAs? ==>
      && created != null && fresh(created)
      && db.counters == old(db.counters)[g.id := o.number]
      && db.records == old(db.records)[freshChannelId := TicketRecord(Pad(o.number), openerId, o.complaint)]
      && created.id == freshChannelId && created.kind == GuildText && created.name == TicketName(o.number)
      && created.parentId == ParentOf(old(db.configs)[g.id])
      && created.overwrites == TicketOverwrites(EveryoneId(g), openerId, old(db.configs)[g.id].staffRoleId)
      && created.messages == [TicketOpenedMessage(freshMsgId, botId)]
      && created.userLimit == None && created.members == {} && !created.deleted
      && here.deleted == old(here.deleted)
    ensures o.Close? ==>
      && created == null && db.counters == old(db.counters)
      && db.records == old(db.records) - {here.id} && here.deleted
  {
    o := ModalStep(customId, g.id in db.configs, input, Counter(db.counters, g.id), here.id in db.records);
    created := null;
    match o
    case OpenAs(n, complaint) =>
      created := OpenTicket(db, g, db.configs[g.id], openerId, n, complaint, freshChannelId, botId, freshMsgId);
    case Close =>
      db.records := db.records - {here.id};
      here.deleted := true;
    case _ =>
  }

  /** Successive tickets of a guild get different channel names. */
  lemma SuccessiveTicketsDiffer(counters: map<Id, nat>, guildId: Id)
    ensures var first := Counter(counters, guildId) + 1;
      var second := Counter(counters[guildId := first], guildId) + 1;
      second == first + 1 && TicketName(first) != TicketName(second)
  {
    var first := Counter(counters, guildId) + 1;
    var second := Counter(counters[guildId := first], guildId) + 1;
    if TicketName(first) == TicketName(second) {
      TicketNameInjective(first, second);
    }
  }
}
