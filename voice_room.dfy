/** The voice manager's stored state: the room record kept under `vc_<channelId>`,
    the per-guild template and configuration, the authorization predicates, and
    the edits each panel interaction makes to a room record. */
module VoiceRoom {
  import opened Util
  import opened Strs
  import opened Platform

  /** The stored state of one managed voice room. */
  datatype RoomData = RoomData(
    ownerId: Id,
    mods: seq<Id>,
    allow: seq<Id>,
    deny: seq<Id>,
    locked: bool,
    userLimit: int,
    persistent: bool,
    panelMessageId: Option<Id>,
    managedPermIds: seq<Id>)

  /** `temp_template_<guildId>`: the settings the next ephemeral room starts from. */
  datatype Template = Template(mods: seq<Id>, allow: seq<Id>, deny: seq<Id>, locked: bool, userLimit: int)

  const DefaultTemplate: Template := Template([], [], [], false, 0)

  /** `guild_cfg_<guildId>`: the join-to-create trigger channel. */
  datatype GuildConfig = GuildConfig(createChannelId: Id)

  const MaxMods: nat := 10
  const MaxListed: nat := 25

  /** The voice manager's part of the key-value store, one map per key family:
      `vc_`, `temp_template_`, `user_tpl_` and `guild_cfg_`. */
  class VoiceDb {
    var rooms: map<Id, RoomData>
    var tempTemplates: map<Id, Template>
    /** `user_tpl_<guildId>_<userId>` holds `{ name }`; keyed here by the pair. */
    var userTemplates: map<(Id, Id), string>
    var guildConfigs: map<Id, GuildConfig>

    constructor ()
      ensures rooms == map[] && tempTemplates == map[] && userTemplates == map[] && guildConfigs == map[]
    {
      rooms := map[];
      tempTemplates := map[];
      userTemplates := map[];
      guildConfigs := map[];
    }
  }

  // ---------------- authorization ----------------

  predicate IsServerOwnerOrAdmin(a: Actor, g: Guild) {
    a.inGuild && (a.id == g.ownerId || a.administrator)
  }

  predicate IsRoomOwner(memberId: Id, d: RoomData) {
    d.ownerId == memberId
  }

  predicate IsRoomMod(memberId: Id, d: RoomData) {
    memberId in d.mods
  }

  /** Owner transfer, mods, lock, unlock, limit, rename, clear and /panel. */
  predicate CanManageRoom(a: Actor, g: Guild, d: RoomData) {
    IsServerOwnerOrAdmin(a, g) || IsRoomOwner(a.id, d)
  }

  /** Editing the allow and deny lists. */
  predicate CanEditAllowDeny(a: Actor, g: Guild, d: RoomData) {
    IsServerOwnerOrAdmin(a, g) || IsRoomOwner(a.id, d) || IsRoomMod(a.id, d)
  }

  /** The two capabilities differ exactly for a mod who is neither the room's
      owner nor a server owner or administrator. */
  lemma AuthorityLadder(a: Actor, g: Guild, d: RoomData)
    ensures CanManageRoom(a, g, d) ==> CanEditAllowDeny(a, g, d)
    ensures CanEditAllowDeny(a, g, d) && !CanManageRoom(a, g, d)
        <==> a.id in d.mods && a.id != d.ownerId && !IsServerOwnerOrAdmin(a, g)
  {
  }

  // ---------------- derived sets ----------------

  /** The ids the reconciler manages for a room: owner, mods, allow and deny,
      without empty ids and without repeats, first occurrence first. */
  function Desired(d: RoomData): (r: seq<Id>)
    ensures NoDup(r)
    ensures forall x :: x in r <==>
      x != "" && (x == d.ownerId || x in d.mods || x in d.allow || x in d.deny)
  {
    Uniq(Without([d.ownerId] + d.mods + d.allow + d.deny, [""]))
  }

  /** Ids whose Connect must always be allowed: the owner (when set) and the mods. */
  predicate Winner(d: RoomData, k: Id) {
    (k == d.ownerId && d.ownerId != "") || k in d.mods
  }

  predicate AllowDenyDisjoint(d: RoomData) {
    forall x :: x in d.allow ==> x !in d.deny
  }

  // ---------------- edits made by panel interactions ----------------

  function FirstPicked(values: seq<Id>): Id {
    if values == [] then "" else values[0]
  }

  /** sel_mods: the first ten distinct picks, or all of them when there are
      fewer; a duplicate-free pick within the cap is kept as given. */
  function PickMods(d: RoomData, values: seq<Id>): (r: RoomData)
    ensures NoDup(r.mods) && |r.mods| <= MaxMods
    ensures r.mods <= Uniq(values)
    ensures forall x :: x in r.mods ==> x in values
    ensures |r.mods| < MaxMods ==> forall x :: x in values ==> x in r.mods
    ensures NoDup(values) && |values| <= MaxMods ==> r.mods == values
    ensures r == d.(mods := r.mods)
  {
    PickWithinCapKept(values, MaxMods);
    d.(mods := Take(Uniq(values), MaxMods))
  }

  /** sel_allow: the first 25 distinct picks (all of them when there are
      fewer) become the allow list and leave the deny list. */
  function PickAllow(d: RoomData, values: seq<Id>): (r: RoomData)
    ensures NoDup(r.allow) && |r.allow| <= MaxListed
    ensures r.allow <= Uniq(values)
    ensures forall x :: x in r.allow ==> x in values
    ensures |r.allow| < MaxListed ==> forall x :: x in values ==> x in r.allow
    ensures NoDup(values) && |values| <= MaxListed ==> r.allow == values
    ensures forall x :: x in r.deny <==> x in d.deny && x !in r.allow
    ensures NoDup(d.deny) ==> NoDup(r.deny)
    ensures AllowDenyDisjoint(r)
    ensures r == d.(allow := r.allow, deny := r.deny)
  {
    PickWithinCapKept(values, MaxListed);
    var a := Take(Uniq(values), MaxListed);
    d.(allow := a, deny := Without(d.deny, a))
  }

  /** sel_deny: the first 25 distinct picks (all of them when there are
      fewer) become the deny list and leave the allow list. */
  function PickDeny(d: RoomData, values: seq<Id>): (r: RoomData)
    ensures NoDup(r.deny) && |r.deny| <= MaxListed
    ensures r.deny <= Uniq(values)
    ensures forall x :: x in r.deny ==> x in values
    ensures |r.deny| < MaxListed ==> forall x :: x in values ==> x in r.deny
    ensures NoDup(values) && |values| <= MaxListed ==> r.deny == values
    ensures forall x :: x in r.allow <==> x in d.allow && x !in r.deny
    ensures NoDup(d.allow) ==> NoDup(r.allow)
    ensures AllowDenyDisjoint(r)
    ensures r == d.(allow := r.allow, deny := r.deny)
  {
    PickWithinCapKept(values, MaxListed);
    var n := Take(Uniq(values), MaxListed);
    d.(deny := n, allow := Without(d.allow, n))
  }

  /** A pick that is already duplicate-free and within the cap is kept as it is. */
  lemma PickWithinCapKept(values: seq<Id>, cap: nat)
    ensures NoDup(values) && |values| <= cap ==> Take(Uniq(values), cap) == values
  {
    if NoDup(values) && |values| <= cap {
      UniqOfNoDup(values);
    }
  }

  /** btn_clear: every list emptied, unlocked, no limit; owner kept. */
  function ClearRoom(d: RoomData): RoomData {
    d.(mods := [], allow := [], deny := [], locked := false, userLimit := 0)
  }

  /** m_limit: `parseInt(input.trim(), 10)`, accepted only in 0..99. */
  function ParseLimit(input: string): (r: Option<int>)
    ensures r.Some? ==> 0 <= r.value <= 99
  {
    match ParseInt(Trim(input))
    case None => None
    case Some(n) => if n < 0 || n > 99 then None else Some(n)
  }

  /** Every limit in range is accepted when typed as a decimal number, also
      with text after it ("7x" gives 7); anything over 99 is refused. */
  lemma ParseLimitDecimal(n: nat, rest: string)
    requires rest == [] || (!IsDigit(rest[0]) && !IsSpace(rest[|rest| - 1]))
    ensures n <= 99 ==> ParseLimit(NatToString(n) + rest) == Some(n)
    ensures n > 99 ==> ParseLimit(NatToString(n) + rest) == None
  {
    var s := NatToString(n) + rest;
    assert !IsSpace(s[0]) && !IsSpace(s[|s| - 1]);
    assert TrimStart(s) == s && TrimEnd(s) == s;
    ParseIntLeadingNumber(n, rest);
  }

  /** Text with no digit after the sign is refused. */
  lemma ParseLimitRejectsNonNumbers(input: string)
    requires forall i :: 0 <= i < |input| ==> !IsDigit(input[i])
    ensures ParseLimit(input) == None
  {
    var t := Trim(input);
    assert forall i :: 0 <= i < |t| ==> t[i] in input;
    ParseIntNoDigits(t);
  }

  /** m_rename: the trimmed name, refused when nothing but white space was typed. */
  function RenameTo(input: string): (r: Option<string>)
    ensures r.None? <==> AllSpace(input)
    ensures r.Some? ==> r.value == Trim(input)
  {
    TrimEmptyIffAllSpace(input);
    var n := Trim(input);
    if n == [] then None else Some(n)
  }

  // ---------------- lifecycle records ----------------

  /** `member.displayName || member.user.username`. */
  function DisplayName(displayName: string, username: string): string {
    if displayName != "" then displayName else username
  }

  /** The name of a new join-to-create room: the owner's remembered name when
      it is not blank, otherwise "📍・<display name> Odası". */
  function RoomName(userTpl: Option<string>, displayName: string, username: string): (r: string)
    ensures userTpl.Some? && !AllSpace(userTpl.value) ==> r == Trim(userTpl.value) && r != ""
    ensures userTpl.None? || AllSpace(userTpl.value) ==>
      r == "📍・" + DisplayName(displayName, username) + " Odası"
  {
    match userTpl
    case None => "📍・" + DisplayName(displayName, username) + " Odası"
    case Some(t) =>
      TrimEmptyIffAllSpace(t);
      if |Trim(t)| > 0 then Trim(t) else "📍・" + DisplayName(displayName, username) + " Odası"
  }

  /** The record of a new ephemeral room, copied from the guild template. */
  function RoomFromTemplate(ownerId: Id, t: Template): (r: RoomData)
    ensures r.ownerId == ownerId && !r.persistent && r.panelMessageId == None && r.managedPermIds == []
    ensures NoDup(r.mods) && NoDup(r.allow) && NoDup(r.deny)
    ensures forall x :: (x in r.mods <==> x in t.mods) && (x in r.allow <==> x in t.allow) && (x in r.deny <==> x in t.deny)
    ensures r.locked == t.locked && r.userLimit == t.userLimit
  {
    RoomData(ownerId, Uniq(t.mods), Uniq(t.allow), Uniq(t.deny), t.locked, t.userLimit, false, None, [])
  }

  /** What `autoUpdateTempTemplateFromChannel` stores for a room. */
  function TemplateOf(d: RoomData): (t: Template)
    ensures NoDup(t.mods) && NoDup(t.allow) && NoDup(t.deny)
    ensures forall x :: (x in t.mods <==> x in d.mods) && (x in t.allow <==> x in d.allow) && (x in t.deny <==> x in d.deny)
    ensures t.locked == d.locked && t.userLimit == d.userLimit
  {
    Template(Uniq(d.mods), Uniq(d.allow), Uniq(d.deny), d.locked, d.userLimit)
  }

  /** A room created from the template that an ephemeral room left behind has
      that room's settings (its lists, when they hold no repeats, exactly). */
  lemma TemplateCarriesSettings(d: RoomData, newOwner: Id)
    requires NoDup(d.mods) && NoDup(d.allow) && NoDup(d.deny)
    ensures var r := RoomFromTemplate(newOwner, TemplateOf(d));
      r.mods == d.mods && r.allow == d.allow && r.deny == d.deny
      && r.locked == d.locked && r.userLimit == d.userLimit
  {
    UniqOfNoDup(d.mods);
    UniqOfNoDup(d.allow);
    UniqOfNoDup(d.deny);
  }

  /** The record `/setup` creates: a persistent room owned by the caller, with
      empty lists, unlocked, and the channel's current limit. */
  function SetupRoom(ownerId: Id, channelLimit: Option<int>): (r: RoomData)
    ensures r.persistent && !r.locked && r.ownerId == ownerId
    ensures r.mods == [] && r.allow == [] && r.deny == [] && r.managedPermIds == [] && r.panelMessageId == None
    ensures channelLimit.Some? ==> r.userLimit == channelLimit.value
    ensures channelLimit.None? ==> r.userLimit == 0
  {
    RoomData(ownerId, [], [], [], false, channelLimit.GetOr(0), true, None, [])
  }
}
