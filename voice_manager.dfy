/** The voice manager's event handlers: join-to-create and destroy-on-empty on
    voice state changes, the `/setcreate`, `/setup`, `/kapat` and `/panel`
    commands, and the panel's pickers, buttons and forms. Each panel
    interaction is decided by a pure step function (`SelectStep`,
    `ButtonStep`, `ModalStep`) and carried out by `Perform`. */
module VoiceManager {
  import opened Util
  import opened Strs
  import opened Platform
  import opened VoiceRoom
  import opened VoicePerms
  import opened VoicePanel

  /** Why an interaction was answered without changing anything. */
  datatype Refusal =
    | NotVoiceChat      // not used inside a voice channel's chat
    | NotManaged        // the channel has no room record
    | Unauthorized      // the caller lacks the capability
    | InvalidInput      // limit out of range, blank name
    | AlreadyManaged    // `/setup` on a managed room
    | NoTarget          // no channel to act on
    | NotVoiceChannel   // the chosen channel is not a voice channel

  /** What a panel interaction does to its room. */
  datatype Outcome =
    | Ignored
    | Refused(why: Refusal)
    | OpenModal(modalId: string)
    /** The new record, the user limit to set on the channel, the name to give
        it, and the members to disconnect from it. */
    | Changed(room: RoomData, setLimit: Option<int>, rename: Option<string>, disconnect: set<Id>)

  /** `customId.split(":")[0]`. */
  function BaseOf(customId: string): string {
    Split(customId, ':')[0]
  }

  /** `getManaged`: the room record of the voice channel whose chat the
      interaction came from. */
  function Managed(rooms: map<Id, RoomData>, ch: Channel?): (r: Result)
    ensures r.Found? <==> ch != null && ch.kind == GuildVoice && ch.id in rooms
    ensures r.Found? ==> r.data == rooms[ch.id]
  {
    if ch == null || ch.kind != GuildVoice then Lost(NotVoiceChat)
    else if ch.id !in rooms then Lost(NotManaged)
    else Found(rooms[ch.id])
  }

  datatype Result = Found(data: RoomData) | Lost(why: Refusal)

  // ---------------- decisions ----------------

  /** What a user-picker submission does to the record. */
  function SelectOutcome(a: Actor, g: Guild, d: RoomData, base: string, values: seq<Id>): Outcome {
    if base == "sel_owner" then
      if !CanManageRoom(a, g, d) then Refused(Unauthorized)
      else Changed(d.(ownerId := FirstPicked(values)), None, None, {})
    else if base == "sel_mods" then
      if !CanManageRoom(a, g, d) then Refused(Unauthorized)
      else Changed(PickMods(d, values), None, None, {})
    else if base == "sel_allow" then
      if !CanEditAllowDeny(a, g, d) then Refused(Unauthorized)
      else Changed(PickAllow(d, values), None, None, {})
    else if base == "sel_deny" then
      if !CanEditAllowDeny(a, g, d) then Refused(Unauthorized)
      else
        var r := PickDeny(d, values);
        Changed(r, None, None, Elems(r.deny))
    else Ignored
  }

  /** A user-picker interaction, from its custom id to its outcome. */
  function SelectStep(rooms: map<Id, RoomData>, ch: Channel?, a: Actor, g: Guild, customId: string, values: seq<Id>): Outcome {
    if !("sel_" <= customId) then Ignored
    else match Managed(rooms, ch)
      case Lost(why) => Refused(why)
      case Found(d) => SelectOutcome(a, g, d, BaseOf(customId), values)
  }

  /** What a panel button does: the limit and rename buttons open a form,
      the others change the record. */
  function ButtonOutcome(a: Actor, g: Guild, d: RoomData, base: string, chId: Id): Outcome {
    if base == "btn_limit" then
      if !CanManageRoom(a, g, d) then Refused(Unauthorized) else OpenModal(ControlId("m_limit", chId))
    else if base == "btn_rename" then
      if !CanManageRoom(a, g, d) then Refused(Unauthorized) else OpenModal(ControlId("m_rename", chId))
    else if !CanManageRoom(a, g, d) then Refused(Unauthorized)
    else if base == "btn_lock" then Changed(d.(locked := true), None, None, {})
    else if base == "btn_unlock" then Changed(d.(locked := false), None, None, {})
    else if base == "btn_clear" then Changed(ClearRoom(d), Some(0), None, {})
    else Ignored
  }

  /** A button interaction: `t_` buttons belong to the ticket feature. */
  function ButtonStep(rooms: map<Id, RoomData>, ch: Channel?, a: Actor, g: Guild, customId: string): Outcome {
    if "t_" <= customId || !("btn_" <= customId) then Ignored
    else match Managed(rooms, ch)
      case Lost(why) => Refused(why)
      case Found(d) => ButtonOutcome(a, g, d, BaseOf(customId), ch.id)
  }

  /** What a submitted form does. */
  function ModalOutcome(a: Actor, g: Guild, d: RoomData, base: string, input: string): Outcome {
    if !CanManageRoom(a, g, d) then Refused(Unauthorized)
    else if base == "m_limit" then
      match ParseLimit(input)
      case None => Refused(InvalidInput)
      case Some(n) => Changed(d.(userLimit := n), Some(n), None, {})
    else if base == "m_rename" then
      match RenameTo(input)
      case None => Refused(InvalidInput)
      case Some(name) => Changed(d, None, Some(name), {})
    else Ignored
  }

  function ModalStep(rooms: map<Id, RoomData>, ch: Channel?, a: Actor, g: Guild, customId: string, input: string): Outcome {
    if !("m_" <= customId) then Ignored
    else match Managed(rooms, ch)
      case Lost(why) => Refused(why)
      case Found(d) => ModalOutcome(a, g, d, BaseOf(customId), input)
  }

  // ---------------- properties of the decisions ----------------

  /** Only owners and admins change the owner and the mods; mods, owners and
      admins change allow and deny; and a mod's change touches nothing else. */
  lemma SelectRespectsAuthority(a: Actor, g: Guild, d: RoomData, base: string, values: seq<Id>)
    ensures SelectOutcome(a, g, d, base, values).Changed? ==> CanEditAllowDeny(a, g, d)
    ensures SelectOutcome(a, g, d, base, values).Changed? && !CanManageRoom(a, g, d) ==>
      var r := SelectOutcome(a, g, d, base, values).room;
      r.ownerId == d.ownerId && r.mods == d.mods && r.locked == d.locked && r.userLimit == d.userLimit
    ensures !CanEditAllowDeny(a, g, d) ==> SelectOutcome(a, g, d, base, values) in {Ignored, Refused(Unauthorized)}
  {
    AuthorityLadder(a, g, d);
  }

  /** Every change a panel interaction makes keeps allow and deny apart, and
      the pickers keep their caps. */
  lemma OutcomesKeepListsApart(rooms: map<Id, RoomData>, ch: Channel?, a: Actor, g: Guild,
                               customId: string, values: seq<Id>, input: string)
    requires ch != null && ch.id in rooms && AllowDenyDisjoint(rooms[ch.id])
    ensures SelectStep(rooms, ch, a, g, customId, values).Changed? ==>
      AllowDenyDisjoint(SelectStep(rooms, ch, a, g, customId, values).room)
    ensures ButtonStep(rooms, ch, a, g, customId).Changed? ==>
      AllowDenyDisjoint(ButtonStep(rooms, ch, a, g, customId).room)
    ensures ModalStep(rooms, ch, a, g, customId, input).Changed? ==>
      AllowDenyDisjoint(ModalStep(rooms, ch, a, g, customId, input).room)
    ensures SelectStep(rooms, ch, a, g, customId, values).Changed? ==>
      var r := SelectStep(rooms, ch, a, g, customId, values).room;
      |r.mods| <= MaxMods || r.mods == rooms[ch.id].mods
  {
  }

  /** Forms: a limit is accepted only in 0..99 and becomes the record's and
      the channel's limit; a rename changes no record field; an unauthorized
      caller or a rejected input changes nothing. */
  lemma ModalContract(a: Actor, g: Guild, d: RoomData, base: string, input: string)
    ensures var o := ModalOutcome(a, g, d, base, input);
      && (o.Changed? ==> CanManageRoom(a, g, d))
      && (o.Changed? && base == "m_limit" ==>
            o.setLimit.Some? && 0 <= o.setLimit.value <= 99 && o.room == d.(userLimit := o.setLimit.value)
            && ParseLimit(input) == o.setLimit)
      && (o.Changed? && base == "m_rename" ==> o.room == d && o.rename == Some(Trim(input)) && !AllSpace(input))
      && (CanManageRoom(a, g, d) && base == "m_limit" && ParseLimit(input).None? ==> o == Refused(InvalidInput))
      && (CanManageRoom(a, g, d) && base == "m_rename" && AllSpace(input) ==> o == Refused(InvalidInput))
  {
  }

  /** Buttons: lock and unlock set the lock and nothing else, clear empties
      every list and the limit and keeps the owner; the form buttons change
      nothing themselves. */
  lemma ButtonContract(a: Actor, g: Guild, d: RoomData, base: string, chId: Id)
    ensures var o := ButtonOutcome(a, g, d, base, chId);
      && (o.Changed? || o.OpenModal? ==> CanManageRoom(a, g, d))
      && (o.Changed? && base == "btn_lock" ==> o.room == d.(locked := true))
      && (o.Changed? && base == "btn_unlock" ==> o.room == d.(locked := false))
      && (o.Changed? && base == "btn_clear" ==>
            o.room.ownerId == d.ownerId && o.room.mods == [] && o.room.allow == [] && o.room.deny == []
            && !o.room.locked && o.room.userLimit == 0 && o.setLimit == Some(0))
      && (CanManageRoom(a, g, d) && base in {"btn_lock", "btn_unlock", "btn_clear"} ==> o.Changed?)
      && (CanManageRoom(a, g, d) && base in {"btn_limit", "btn_rename"} ==> o.OpenModal?)
  {
  }

  /** A denied pick disconnects exactly the new deny list. */
  lemma DenyDisconnects(a: Actor, g: Guild, d: RoomData, values: seq<Id>)
    requires CanEditAllowDeny(a, g, d)
    ensures var o := SelectOutcome(a, g, d, "sel_deny", values);
      o.Changed? && (forall x :: x in o.disconnect <==> x in o.room.deny)
      && (forall x :: x in o.disconnect ==> x in values)
  {
  }

  // ---------------- effects ----------------

  /** `autoUpdateTempTemplateFromChannel`: an ephemeral room's settings become
      the guild's template; a persistent room leaves it alone. */
  method AutoUpdateTempTemplate(db: VoiceDb, guildId: Id, data: RoomData)
    modifies db`tempTemplates
    ensures data.persistent ==> db.tempTemplates == old(db.tempTemplates)
    ensures !data.persistent ==> db.tempTemplates == old(db.tempTemplates)[guildId := TemplateOf(data)]
  {
    if data.persistent {
      return;
    }
    db.tempTemplates := db.tempTemplates[guildId := TemplateOf(data)];
  }

  /** `afterChange`: reconcile the overwrites, store the record, place the
      panel, then refresh the template. */
  method AfterChange(db: VoiceDb, g: Guild, voice: Channel, data: RoomData, botId: Id, freshMsgId: Id)
    returns (r: RoomData)
    requires freshMsgId !in MessageIds(voice.messages)
    modifies voice`overwrites, voice`messages, db`rooms, db`tempTemplates
    ensures voice.overwrites == Reconcile(old(voice.overwrites), EveryoneId(g), data)
    ensures var applied := data.(managedPermIds := Desired(data));
      && (TextBased(voice.kind) ==>
            voice.messages == PlacedMessages(old(voice.messages), applied, voice.id, botId, freshMsgId)
            && r == PlacedRecord(old(voice.messages), applied, freshMsgId))
      && (!TextBased(voice.kind) ==> voice.messages == old(voice.messages) && r == applied)
    ensures r == data.(managedPermIds := Desired(data), panelMessageId := r.panelMessageId)
    ensures db.rooms == old(db.rooms)[voice.id := r]
    ensures r.persistent ==> db.tempTemplates == old(db.tempTemplates)
    ensures !r.persistent ==> db.tempTemplates == old(db.tempTemplates)[g.id := TemplateOf(r)]
    ensures unchanged(voice`members, voice`userLimit, voice`name, voice`deleted, db`userTemplates, db`guildConfigs)
  {
    ghost var rooms0 := db.rooms;
    var applied := ApplyVoicePerms(g, voice, data);
    db.rooms := db.rooms[voice.id := applied];
    r := UpsertPanel(voice, applied, db, botId, freshMsgId);
    StoreTwice(rooms0, voice.id, applied, r);
    AutoUpdateTempTemplate(db, g.id, r);
  }

  /** The whole effect of carrying out a panel outcome on the room's
      channel `voice`: the disconnects, the limit and the name the outcome
      asks for, the reconciled overwrites, the panel placed in the room's
      chat and its record stored, the template refreshed for an ephemeral
      room, a rename remembered for the owner; nothing else changes. */
  twostate predicate Performed(db: VoiceDb, g: Guild, voice: Channel, o: Outcome, botId: Id, freshMsgId: Id)
    requires o.Changed?
    reads voice, db
  {
    var applied := o.room.(managedPermIds := Desired(o.room));
    var stored := if TextBased(voice.kind) then PlacedRecord(old(voice.messages), applied, freshMsgId) else applied;
    && voice.members == old(voice.members) - o.disconnect
    && voice.userLimit == (if o.setLimit.Some? then o.setLimit else old(voice.userLimit))
    && voice.name == (if o.rename.Some? then o.rename.value else old(voice.name))
    && voice.overwrites == Reconcile(old(voice.overwrites), EveryoneId(g), o.room)
    && voice.messages ==
         (if TextBased(voice.kind) then PlacedMessages(old(voice.messages), applied, voice.id, botId, freshMsgId)
          else old(voice.messages))
    && voice.deleted == old(voice.deleted)
    && db.rooms == old(db.rooms)[voice.id := stored]
    && db.tempTemplates ==
         (if o.room.persistent then old(db.tempTemplates) else old(db.tempTemplates)[g.id := TemplateOf(stored)])
    && db.userTemplates ==
         (if o.rename.Some? then old(db.userTemplates)[(g.id, o.room.ownerId) := o.rename.value]
          else old(db.userTemplates))
    && db.guildConfigs == old(db.guildConfigs)
  }

  /** Carries out a panel outcome on the room's channel: disconnect, limit and
      name first, then `afterChange`; a rename is also remembered as the
      owner's name for future rooms. */
  method Perform(db: VoiceDb, g: Guild, voice: Channel, o: Outcome, botId: Id, freshMsgId: Id)
    requires o.Changed? && freshMsgId !in MessageIds(voice.messages)
    modifies voice`members, voice`userLimit, voice`name, voice`overwrites, voice`messages
    modifies db`rooms, db`tempTemplates, db`userTemplates
    ensures Performed(db, g, voice, o, botId, freshMsgId)
    ensures db.rooms[voice.id].managedPermIds == Desired(o.room)
    ensures db.rooms[voice.id] == o.room.(managedPermIds := Desired(o.room), panelMessageId := db.rooms[voice.id].panelMessageId)
  {
    EditChannel(db, g, voice, o);
    var r := AfterChange(db, g, voice, o.room, botId, freshMsgId);
  }

  /** The first half of `Perform`: disconnects, the new limit and the new
      name, which is also remembered for the owner. */
  method EditChannel(db: VoiceDb, g: Guild, voice: Channel, o: Outcome)
    requires o.Changed?
    modifies voice`members, voice`userLimit, voice`name, db`userTemplates
    ensures voice.members == old(voice.members) - o.disconnect
    ensures voice.userLimit == if o.setLimit.Some? then o.setLimit else old(voice.userLimit)
    ensures voice.name == if o.rename.Some? then o.rename.value else old(voice.name)
    ensures db.userTemplates ==
      if o.rename.Some? then old(db.userTemplates)[(g.id, o.room.ownerId) := o.rename.value] else old(db.userTemplates)
    ensures unchanged(voice`overwrites, voice`messages, voice`deleted, db`rooms, db`tempTemplates, db`guildConfigs)
  {
    voice.members := voice.members - o.disconnect;
    if o.setLimit.Some? {
      voice.userLimit := o.setLimit;
    }
    if o.rename.Some? {
      voice.name := o.rename.value;
      db.userTemplates := db.userTemplates[(g.id, o.room.ownerId) := o.rename.value];
    }
  }

  /** The user-picker handler. */
  method HandleSelect(db: VoiceDb, g: Guild, a: Actor, ch: Channel?, customId: string, values: seq<Id>,
                      botId: Id, freshMsgId: Id) returns (o: Outcome)
    requires ch != null ==> freshMsgId !in MessageIds(ch.messages)
    modifies ch, db
    ensures o == SelectStep(old(db.rooms), ch, a, g, customId, values)
    ensures !o.Changed? ==> unchanged(db) && (ch != null ==> unchanged(ch))
    ensures o.Changed? ==>
      ch != null && Performed(db, g, ch, o, botId, freshMsgId)
      && db.rooms[ch.id] == o.room.(managedPermIds := Desired(o.room), panelMessageId := db.rooms[ch.id].panelMessageId)
  {
    o := SelectStep(db.rooms, ch, a, g, customId, values);
    if o.Changed? {
      Perform(db, g, ch, o, botId, freshMsgId);
    }
  }

  /** The button handler. */
  method HandleButton(db: VoiceDb, g: Guild, a: Actor, ch: Channel?, customId: string,
                      botId: Id, freshMsgId: Id) returns (o: Outcome)
    requires ch != null ==> freshMsgId !in MessageIds(ch.messages)
    modifies ch, db
    ensures o == ButtonStep(old(db.rooms), ch, a, g, customId)
    ensures !o.Changed? ==> unchanged(db) && (ch != null ==> unchanged(ch))
    ensures o.Changed? ==>
      ch != null && Performed(db, g, ch, o, botId, freshMsgId)
      && db.rooms[ch.id] == o.room.(managedPermIds := Desired(o.room), panelMessageId := db.rooms[ch.id].panelMessageId)
  {
    o := ButtonStep(db.rooms, ch, a, g, customId);
    if o.Changed? {
      Perform(db, g, ch, o, botId, freshMsgId);
    }
  }

  /** The form handler. */
  method HandleModal(db: VoiceDb, g: Guild, a: Actor, ch: Channel?, customId: string, input: string,
                     botId: Id, freshMsgId: Id) returns (o: Outcome)
    requires ch != null ==> freshMsgId !in MessageIds(ch.messages)
    modifies ch, db
    ensures o == ModalStep(old(db.rooms), ch, a, g, customId, input)
    ensures !o.Changed? ==> unchanged(db) && (ch != null ==> unchanged(ch))
    ensures o.Changed? ==>
      ch != null && Performed(db, g, ch, o, botId, freshMsgId)
      && db.rooms[ch.id] == o.room.(managedPermIds := Desired(o.room), panelMessageId := db.rooms[ch.id].panelMessageId)
  {
    o := ModalStep(db.rooms, ch, a, g, customId, input);
    if o.Changed? {
      Perform(db, g, ch, o, botId, freshMsgId);
    }
  }

  // ---------------- slash commands ----------------

  /** The commands the voice manager answers. */
  predicate IsVoiceCommand(name: string) {
    name in {"setcreate", "setup", "panel", "kapat"}
  }

  /** `getVoiceFromInteractionChannel`. */
  function VoiceChat(ch: Channel?): (r: Channel?)
    ensures r != null ==> r == ch && r.kind == GuildVoice
    ensures r == null <==> ch == null || ch.kind != GuildVoice
  {
    if ch != null && ch.kind == GuildVoice then ch else null
  }

  /** `/setcreate kanal:<voice>`: records the join-to-create channel and
      makes sure the guild has a template. */
  method SetCreate(db: VoiceDb, g: Guild, a: Actor, chosen: Channel) returns (refusal: Option<Refusal>)
    modifies db`guildConfigs, db`tempTemplates
    ensures !IsServerOwnerOrAdmin(a, g) ==> refusal == Some(Unauthorized) && unchanged(db)
    ensures IsServerOwnerOrAdmin(a, g) && chosen.kind != GuildVoice ==> refusal == Some(NotVoiceChannel) && unchanged(db)
    ensures IsServerOwnerOrAdmin(a, g) && chosen.kind == GuildVoice ==>
      && refusal == None
      && db.guildConfigs == old(db.guildConfigs)[g.id := GuildConfig(chosen.id)]
      && db.tempTemplates == if g.id in old(db.tempTemplates) then old(db.tempTemplates)
                             else old(db.tempTemplates)[g.id := DefaultTemplate]
  {
    if !IsServerOwnerOrAdmin(a, g) {
      return Some(Unauthorized);
    }
    if chosen.kind != GuildVoice {
      return Some(NotVoiceChannel);
    }
    db.guildConfigs := db.guildConfigs[g.id := GuildConfig(chosen.id)];
    if g.id !in db.tempTemplates {
      db.tempTemplates := db.tempTemplates[g.id := DefaultTemplate];
    }
    refusal := None;
  }

  /** `/panel`: only in a managed voice channel's chat, only for the room's
      owner or an admin; reads the live channel back into the record and
      places the panel again. */
  method PanelCommand(db: VoiceDb, g: Guild, a: Actor, here: Channel?, botId: Id, freshMsgId: Id)
    returns (refusal: Option<Refusal>)
    requires here != null ==> freshMsgId !in MessageIds(here.messages)
    modifies Present(here, null, null)`messages, db`rooms
    ensures refusal.Some? && here != null ==> unchanged(here)
    ensures here != null ==> unchanged(here`name, here`userLimit, here`overwrites, here`members, here`deleted)
    ensures VoiceChat(here) == null ==> refusal == Some(NotVoiceChat) && unchanged(db)
    ensures VoiceChat(here) != null && here.id !in old(db.rooms) ==> refusal == Some(NotManaged) && unchanged(db)
    ensures VoiceChat(here) != null && here.id in old(db.rooms) && !CanManageRoom(a, g, old(db.rooms)[here.id]) ==>
      refusal == Some(Unauthorized) && unchanged(db)
    ensures refusal.None? ==>
      && VoiceChat(here) != null && here.id in old(db.rooms) && CanManageRoom(a, g, old(db.rooms)[here.id])
      && here.id in db.rooms
      && (exists synced :: SyncedFrom(old(db.rooms)[here.id], here.userLimit, here.overwrites, EveryoneId(g), synced)
            && db.rooms == old(db.rooms)[here.id := PlacedRecord(old(here.messages), synced, freshMsgId)]
            && here.messages == PlacedMessages(old(here.messages), synced, here.id, botId, freshMsgId))
  {
    var voice := VoiceChat(here);
    if voice == null {
      return Some(NotVoiceChat);
    }
    if voice.id !in db.rooms {
      return Some(NotManaged);
    }
    var data := db.rooms[voice.id];
    if !CanManageRoom(a, g, data) {
      return Some(Unauthorized);
    }
    var synced := Resync(db, g, voice, botId, freshMsgId);
    refusal := None;
  }

  /** The accepted `/panel`: the record is read back from the live channel,
      stored, and the panel placed again. */
  method Resync(db: VoiceDb, g: Guild, voice: Channel, botId: Id, freshMsgId: Id) returns (synced: RoomData)
    requires voice.kind == GuildVoice && voice.id in db.rooms && freshMsgId !in MessageIds(voice.messages)
    modifies voice`messages, db`rooms
    ensures SyncedFrom(old(db.rooms)[voice.id], voice.userLimit, voice.overwrites, EveryoneId(g), synced)
    ensures db.rooms == old(db.rooms)[voice.id := PlacedRecord(old(voice.messages), synced, freshMsgId)]
    ensures voice.messages == PlacedMessages(old(voice.messages), synced, voice.id, botId, freshMsgId)
  {
    ghost var rooms0 := db.rooms;
    synced := SyncDataFromChannel(g, voice, db.rooms[voice.id]);
    db.rooms := db.rooms[voice.id := synced];
    var placed := UpsertPanel(voice, synced, db, botId, freshMsgId);
    StoreTwice(rooms0, voice.id, synced, placed);
  }

  /** The channel `/setup` and `/kapat` act on: the chosen one, else the chat's
      voice channel; `/kapat` also falls back to the caller's voice channel. */
  function Target(isSetup: bool, chosen: Channel?, here: Channel?, callersVoice: Channel?): Result2 {
    if chosen != null then Pick(chosen)
    else if isSetup then
      if VoiceChat(here) == null then Fail(NotVoiceChat) else Pick(here)
    else if VoiceChat(here) != null then Pick(here)
    else if callersVoice != null then Pick(callersVoice)
    else Fail(NoTarget)
  }

  datatype Result2 = Pick(ch: Channel) | Fail(why: Refusal)

  /** `/setup`: makes the target a persistent room owned by the caller,
      unless it is managed already. */
  method Setup(db: VoiceDb, g: Guild, a: Actor, chosen: Channel?, here: Channel?, botId: Id, freshMsgId: Id)
    returns (refusal: Option<Refusal>, voice: Channel?)
    requires chosen != null ==> freshMsgId !in MessageIds(chosen.messages)
    requires here != null ==> freshMsgId !in MessageIds(here.messages)
    modifies Present(chosen, here, null)`overwrites, Present(chosen, here, null)`messages, db`rooms
    ensures refusal.Some? ==> unchanged(db) && (chosen != null ==> unchanged(chosen)) && (here != null ==> unchanged(here))
    ensures Target(true, chosen, here, null).Fail? ==> refusal == Some(Target(true, chosen, here, null).why)
    ensures Target(true, chosen, here, null).Pick? ==>
      var t := Target(true, chosen, here, null).ch;
      && (t.kind != GuildVoice ==> refusal == Some(NotVoiceChannel))
      && (t.kind == GuildVoice && !IsServerOwnerOrAdmin(a, g) ==> refusal == Some(Unauthorized))
      && (t.kind == GuildVoice && IsServerOwnerOrAdmin(a, g) && t.id in old(db.rooms) ==> refusal == Some(AlreadyManaged))
    ensures refusal.None? ==>
      var t := Target(true, chosen, here, null).ch;
      var data := SetupRoom(a.id, old(t.userLimit)).(managedPermIds := Desired(SetupRoom(a.id, old(t.userLimit))));
      && voice == t && t.kind == GuildVoice && IsServerOwnerOrAdmin(a, g) && t.id !in old(db.rooms)
      && unchanged(t`name, t`userLimit, t`members, t`deleted) && (here != null && here != t ==> unchanged(here))
      && t.overwrites == Reconcile(old(t.overwrites), EveryoneId(g), SetupRoom(a.id, old(t.userLimit)))
      && t.messages == PlacedMessages(old(t.messages), data, t.id, botId, freshMsgId)
      && db.rooms == old(db.rooms)[t.id := PlacedRecord(old(t.messages), data, freshMsgId)]
  {
    voice := null;
    var target := Target(true, chosen, here, null);
    if target.Fail? {
      return Some(target.why), null;
    }
    var t := target.ch;
    if t.kind != GuildVoice {
      return Some(NotVoiceChannel), null;
    }
    if !IsServerOwnerOrAdmin(a, g) {
      return Some(Unauthorized), null;
    }
    if t.id in db.rooms {
      return Some(AlreadyManaged), null;
    }
    Adopt(db, g, a, t, botId, freshMsgId);
    refusal := None;
    voice := t;
  }

  /** The accepted `/setup`: the new persistent record's overwrites are
      applied, the record stored and the panel placed. */
  method Adopt(db: VoiceDb, g: Guild, a: Actor, t: Channel, botId: Id, freshMsgId: Id)
    requires t.kind == GuildVoice && freshMsgId !in MessageIds(t.messages)
    modifies t`overwrites, t`messages, db`rooms
    ensures var data := SetupRoom(a.id, old(t.userLimit)).(managedPermIds := Desired(SetupRoom(a.id, old(t.userLimit))));
      && t.overwrites == Reconcile(old(t.overwrites), EveryoneId(g), SetupRoom(a.id, old(t.userLimit)))
      && t.messages == PlacedMessages(old(t.messages), data, t.id, botId, freshMsgId)
      && db.rooms == old(db.rooms)[t.id := PlacedRecord(old(t.messages), data, freshMsgId)]
  {
    ghost var rooms0 := db.rooms;
    var data := SetupRoom(a.id, t.userLimit);
    data := ApplyVoicePerms(g, t, data);
    db.rooms := db.rooms[t.id := data];
    var placed := UpsertPanel(t, data, db, botId, freshMsgId);
    StoreTwice(rooms0, t.id, data, placed);
  }

  /** `/kapat`: hands a managed room back to the server. The panel message is
      deleted, the limit and every overwrite are reset, and the record is
      removed; the name stays. */
  method Kapat(db: VoiceDb, g: Guild, a: Actor, chosen: Channel?, here: Channel?, callersVoice: Channel?)
    returns (refusal: Option<Refusal>)
    modifies Present(chosen, here, callersVoice)`messages, Present(chosen, here, callersVoice)`userLimit
    modifies Present(chosen, here, callersVoice)`overwrites, db`rooms
    ensures refusal.Some? ==> unchanged(db) && unchanged(Present(chosen, here, callersVoice))
    ensures Target(false, chosen, here, callersVoice).Fail? ==> refusal == Some(NoTarget)
    ensures Target(false, chosen, here, callersVoice).Pick? ==>
      var t := Target(false, chosen, here, callersVoice).ch;
      && (t.kind != GuildVoice ==> refusal == Some(NotVoiceChannel))
      && (t.kind == GuildVoice && !IsServerOwnerOrAdmin(a, g) ==> refusal == Some(Unauthorized))
      && (t.kind == GuildVoice && IsServerOwnerOrAdmin(a, g) && t.id !in old(db.rooms) ==> refusal == Some(NotManaged))
      && (refusal.None? ==>
            && t.id in old(db.rooms)
            && db.rooms == old(db.rooms) - {t.id}
            && t.userLimit == Some(0) && t.overwrites == map[]
            && unchanged(t`name, t`members, t`deleted) && unchanged(Present(chosen, here, callersVoice) - {t})
            && t.messages == (match old(db.rooms)[t.id].panelMessageId
                              case None => old(t.messages)
                              case Some(pid) =>
                                if pid in MessageIds(old(t.messages)) then RemoveMessages(old(t.messages), {pid})
                                else old(t.messages)))
  {
    var target := Target(false, chosen, here, callersVoice);
    if target.Fail? {
      return Some(target.why);
    }
    var t := target.ch;
    if t.kind != GuildVoice {
      return Some(NotVoiceChannel);
    }
    if !IsServerOwnerOrAdmin(a, g) {
      return Some(Unauthorized);
    }
    if t.id !in db.rooms {
      return Some(NotManaged);
    }
    var data := db.rooms[t.id];
    if TextBased(t.kind) && data.panelMessageId.Some? {
      var msg := FindMessage(t.messages, data.panelMessageId.value);
      if msg.Some? {
        t.messages := RemoveMessages(t.messages, {msg.value.id});
      }
    }
    t.userLimit := Some(0);
    t.overwrites := map[];
    db.rooms := db.rooms - {t.id};
    refusal := None;
  }

  // ---------------- voice state changes ----------------

  /** Joining `joined` asks for a new room: the guild has a join-to-create
      channel and it is the one joined. */
  predicate JoinToCreate(configs: map<Id, GuildConfig>, guildId: Id, joined: Channel?) {
    guildId in configs && configs[guildId].createChannelId != ""
    && joined != null && joined.id == configs[guildId].createChannelId
  }

  /** The guild template, or the default one when there is none yet. */
  function TemplateFor(templates: map<Id, Template>, guildId: Id): Template {
    if guildId in templates then templates[guildId] else DefaultTemplate
  }

  /** The owner's remembered room name, if any. */
  function RememberedName(names: map<(Id, Id), string>, guildId: Id, userId: Id): Option<string> {
    if (guildId, userId) in names then Some(names[(guildId, userId)]) else None
  }

  /** The room left behind is torn down: it is managed, not persistent, and
      nobody is in it any more. */
  predicate Abandoned(rooms: map<Id, RoomData>, left: Channel?)
    reads left
  {
    left != null && left.id in rooms && !rooms[left.id].persistent && |left.members| == 0
  }

  /** Adding the record of another room does not change whether `left` is
      abandoned. */
  lemma AbandonedIgnoresOtherRooms(rooms: map<Id, RoomData>, id: Id, d: RoomData, left: Channel?)
    requires left != null ==> left.id != id
    ensures Abandoned(rooms[id := d], left) == Abandoned(rooms, left)
  {
  }

  /** Persistent rooms are never torn down, and neither are occupied ones. */
  lemma OnlyEmptyEphemeralRoomsGo(rooms: map<Id, RoomData>, left: Channel)
    ensures left.id in rooms && rooms[left.id].persistent ==> !Abandoned(rooms, left)
    ensures |left.members| > 0 ==> !Abandoned(rooms, left)
    ensures left.id !in rooms ==> !Abandoned(rooms, left)
  {
  }

  /** `voice` is the room opened for `member` under category `parentId`: a
      voice channel with the id it was given and the name chosen for it,
      holding only the member, with the template's limit, overwrites
      reconciled from the template's lists and lock, and the panel as its
      only message. */
  predicate IsNewRoom(voice: Channel, g: Guild, member: Id, parentId: Option<Id>, name: string, tpl: Template,
                      freshChannelId: Id, botId: Id, freshMsgId: Id)
    reads voice
  {
    var data := RoomFromTemplate(member, tpl);
    && voice.id == freshChannelId && voice.kind == GuildVoice && voice.parentId == parentId
    && voice.name == name
    && voice.members == {member}
    && voice.userLimit == Some(tpl.userLimit)
    && voice.overwrites == Reconcile(map[], EveryoneId(g), data)
    && voice.messages == [NewPanelMessage(freshMsgId, botId, data.(managedPermIds := Desired(data)), voice.id)]
    && !voice.deleted
  }

  /** The record a new room starts with: the guild template's settings,
      owned by the member, ephemeral, with its panel's id. */
  function FirstRecord(templates: map<Id, Template>, guildId: Id, member: Id, freshMsgId: Id): (r: RoomData)
    ensures r.ownerId == member && !r.persistent && r.panelMessageId == Some(freshMsgId)
    ensures r.managedPermIds == Desired(r)
    ensures r.locked == TemplateFor(templates, guildId).locked
    ensures r.userLimit == TemplateFor(templates, guildId).userLimit
  {
    var data := RoomFromTemplate(member, TemplateFor(templates, guildId));
    data.(managedPermIds := Desired(data), panelMessageId := Some(freshMsgId))
  }

  /** The join-to-create half of `voiceStateUpdate`: a room named after the
      member, who is moved into it, with the guild template copied into its
      record, its overwrites reconciled and its panel placed. */
  method CreateRoom(db: VoiceDb, g: Guild, member: Id, displayName: string, username: string,
                    joined: Channel, freshChannelId: Id, botId: Id, freshMsgId: Id)
    returns (voice: Channel)
    modifies db`tempTemplates, db`rooms, joined`members
    ensures fresh(voice) && joined.members == old(joined.members) - {member}
      && IsNewRoom(voice, g, member, joined.parentId,
                   RoomName(RememberedName(old(db.userTemplates), g.id, member), displayName, username),
                   TemplateFor(old(db.tempTemplates), g.id), freshChannelId, botId, freshMsgId)
      && db.tempTemplates == old(db.tempTemplates)[g.id := TemplateFor(old(db.tempTemplates), g.id)]
    ensures db.rooms == old(db.rooms)[voice.id := FirstRecord(old(db.tempTemplates), g.id, member, freshMsgId)]
  {
    var tpl := GuildTemplate(db, g.id);
    var name := RoomName(RememberedName(db.userTemplates, g.id, member), displayName, username);
    voice := OpenRoom(joined, member, freshChannelId, name, tpl.userLimit);
    StartRoom(db, g, voice, RoomFromTemplate(member, tpl), botId, freshMsgId);
  }

  /** The guild's room template, stored first as the default when missing. */
  method GuildTemplate(db: VoiceDb, guildId: Id) returns (tpl: Template)
    modifies db`tempTemplates
    ensures tpl == TemplateFor(old(db.tempTemplates), guildId)
    ensures db.tempTemplates == old(db.tempTemplates)[guildId := tpl]
  {
    if guildId !in db.tempTemplates {
      db.tempTemplates := db.tempTemplates[guildId := DefaultTemplate];
    } else {
      StoreSame(db.tempTemplates, guildId);
    }
    tpl := db.tempTemplates[guildId];
  }

  /** The new voice channel, under the joined channel's category, with the
      member moved into it from the channel they joined. */
  method OpenRoom(joined: Channel, member: Id, freshChannelId: Id, name: string, limit: int)
    returns (voice: Channel)
    modifies joined`members
    ensures fresh(voice) && voice.id == freshChannelId && voice.kind == GuildVoice
    ensures voice.parentId == joined.parentId && voice.name == name
    ensures voice.members == {member} && joined.members == old(joined.members) - {member}
    ensures voice.userLimit == Some(limit) && voice.overwrites == map[]
    ensures voice.messages == [] && !voice.deleted
  {
    voice := new Channel(freshChannelId, GuildVoice, joined.parentId, name, Some(0), map[]);
    joined.members := joined.members - {member};
    voice.members := voice.members + {member};
    voice.userLimit := Some(limit);
  }

  /** The new room's first record: stored, its overwrites reconciled (not
      awaited in the handler; here it completes first), then its panel sent. */
  method StartRoom(db: VoiceDb, g: Guild, voice: Channel, data: RoomData, botId: Id, freshMsgId: Id)
    requires voice.messages == [] && data.panelMessageId.None? && TextBased(voice.kind)
    modifies voice`overwrites, voice`messages, db`rooms
    ensures var applied := data.(managedPermIds := Desired(data));
      && voice.overwrites == Reconcile(old(voice.overwrites), EveryoneId(g), data)
      && voice.messages == [NewPanelMessage(freshMsgId, botId, applied, voice.id)]
      && db.rooms == old(db.rooms)[voice.id := applied.(panelMessageId := Some(freshMsgId))]
  {
    ghost var rooms0 := db.rooms;
    db.rooms := db.rooms[voice.id := data];
    var applied := ApplyVoicePerms(g, voice, data);
    PlacementInEmptyChat(applied, voice.id, botId, freshMsgId);
    var placed := UpsertPanel(voice, applied, db, botId, freshMsgId);
    StoreTwice(rooms0, voice.id, data, placed);
  }

  /** The leaving half of `voiceStateUpdate`. */
  method TearDown(db: VoiceDb, left: Channel)
    modifies db`rooms, left`deleted
    ensures Abandoned(old(db.rooms), left) ==> left.deleted && db.rooms == old(db.rooms) - {left.id}
    ensures !Abandoned(old(db.rooms), left) ==> db.rooms == old(db.rooms) && left.deleted == old(left.deleted)
    ensures unchanged(db`tempTemplates, db`userTemplates, db`guildConfigs)
    ensures unchanged(left`name, left`userLimit, left`overwrites, left`messages, left`members)
  {
    if left.id in db.rooms && !db.rooms[left.id].persistent && |left.members| == 0 {
      db.rooms := db.rooms - {left.id};
      left.deleted := true;
    }
  }

  /** `voiceStateUpdate` for `member`, who left `left` (if anything) and is now
      in `joined` (if anything): a room is created, as `CreateRoom` states,
      exactly when the join-to-create channel was joined, and the room left
      behind is deleted, with its record, exactly when it is abandoned. */
  method VoiceStateUpdate(db: VoiceDb, g: Guild, member: Id, displayName: string, username: string,
                          left: Channel?, joined: Channel?, freshChannelId: Id, botId: Id, freshMsgId: Id)
    returns (created: Channel?)
    requires left != null ==> left.id != freshChannelId
    modifies db`tempTemplates, db`rooms, Present(joined, null, null)`members, Present(left, null, null)`deleted
    ensures created != null <==> JoinToCreate(old(db.guildConfigs), g.id, joined)
    ensures created == null ==>
      db.tempTemplates == old(db.tempTemplates) && (joined != null ==> joined.members == old(joined.members))
    ensures created != null ==>
      && joined != null && fresh(created) && joined.members == old(joined.members) - {member}
      && IsNewRoom(created, g, member, joined.parentId,
                   RoomName(RememberedName(old(db.userTemplates), g.id, member), displayName, username),
                   TemplateFor(old(db.tempTemplates), g.id), freshChannelId, botId, freshMsgId)
      && db.tempTemplates == old(db.tempTemplates)[g.id := TemplateFor(old(db.tempTemplates), g.id)]
    ensures var afterCreate :=
          if created != null then old(db.rooms)[created.id := FirstRecord(old(db.tempTemplates), g.id, member, freshMsgId)]
          else old(db.rooms);
      && (Abandoned(old(db.rooms), left) ==> left.deleted && db.rooms == afterCreate - {left.id})
      && (!Abandoned(old(db.rooms), left) ==> db.rooms == afterCreate && (left != null ==> left.deleted == old(left.deleted)))
    ensures joined != null ==> unchanged(joined`name, joined`userLimit, joined`overwrites, joined`messages)
    ensures joined != null && joined != left ==> unchanged(joined`deleted)
    ensures left != null ==> unchanged(left`name, left`userLimit, left`overwrites, left`messages)
    ensures left != null && left != joined ==> unchanged(left`members)
    ensures unchanged(db`guildConfigs, db`userTemplates)
  {
    ghost var name := RoomName(RememberedName(db.userTemplates, g.id, member), displayName, username);
    ghost var tpl := TemplateFor(db.tempTemplates, g.id);
    created := CreateOnJoin(db, g, member, displayName, username, joined, freshChannelId, botId, freshMsgId);
    ghost var isNew := created != null && IsNewRoom(created, g, member, joined.parentId, name, tpl, freshChannelId, botId, freshMsgId);
    assert created != null ==> isNew;
    if created != null {
      AbandonedIgnoresOtherRooms(old(db.rooms), created.id, db.rooms[created.id], left);
    }
    if left != null {
      TearDown(db, left);
    }
    assert created != null ==> IsNewRoom(created, g, member, joined.parentId, name, tpl, freshChannelId, botId, freshMsgId);
  }

  /** The joining half of `voiceStateUpdate`: `CreateRoom` runs exactly when
      the join-to-create channel was joined. */
  method CreateOnJoin(db: VoiceDb, g: Guild, member: Id, displayName: string, username: string,
                      joined: Channel?, freshChannelId: Id, botId: Id, freshMsgId: Id)
    returns (created: Channel?)
    modifies db`tempTemplates, db`rooms, Present(joined, null, null)`members
    ensures created != null <==> JoinToCreate(old(db.guildConfigs), g.id, joined)
    ensures created == null ==>
      && db.tempTemplates == old(db.tempTemplates) && db.rooms == old(db.rooms)
      && (joined != null ==> joined.members == old(joined.members))
    ensures created != null ==>
      && joined != null
      && fresh(created) && joined.members == old(joined.members) - {member}
      && IsNewRoom(created, g, member, joined.parentId,
                   RoomName(RememberedName(old(db.userTemplates), g.id, member), displayName, username),
                   TemplateFor(old(db.tempTemplates), g.id), freshChannelId, botId, freshMsgId)
      && db.tempTemplates == old(db.tempTemplates)[g.id := TemplateFor(old(db.tempTemplates), g.id)]
      && db.rooms == old(db.rooms)[created.id := FirstRecord(old(db.tempTemplates), g.id, member, freshMsgId)]
    ensures joined != null ==> unchanged(joined`name, joined`userLimit, joined`overwrites, joined`messages, joined`deleted)
    ensures unchanged(db`guildConfigs, db`userTemplates)
  {
    created := null;
    if g.id in db.guildConfigs && db.guildConfigs[g.id].createChannelId != ""
       && joined != null && joined.id == db.guildConfigs[g.id].createChannelId {
      created := CreateRoom(db, g, member, displayName, username, joined, freshChannelId, botId, freshMsgId);
    }
  }
}
