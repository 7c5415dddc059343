/** The control panel a managed room keeps pinned in its chat: the rows of
    controls, the status line, the `<prefix>:<channelId>` control ids and the
    parser that reads a channel id back out of them, and the edit-or-send
    placement of the panel message. */
module VoicePanel {
  import opened Util
  import opened Strs
  import opened Platform
  import opened VoiceRoom

  // ---------------- control ids ----------------

  /** `${prefix}:${channelId}`. */
  function ControlId(prefix: string, chId: Id): string {
    prefix + ":" + chId
  }

  /** The control prefixes of the panel, row by row. */
  const PanelLayout: seq<seq<string>> := [
    ["sel_owner"], ["sel_mods"], ["sel_allow"], ["sel_deny"],
    ["btn_lock", "btn_unlock", "btn_limit", "btn_rename", "btn_clear"]]

  /** `/^\d{15,25}$/`: the shape of a platform id. */
  predicate IsSnowflake(s: string) {
    15 <= |s| <= 25 && AllDigits(s)
  }

  /** `extractTargetChannelIdFromCustomId`: the second `:`-separated segment
      when it looks like a channel id. */
  function ExtractTargetChannelId(customId: string): Option<Id> {
    var parts := Split(customId, ':');
    if |parts| < 2 then None
    else if IsSnowflake(parts[1]) then Some(parts[1])
    else None
  }

  /** The text between the first `:` and the next one (or the end). */
  function SegmentAfterColon(s: string): string
    requires ':' in s
  {
    var rest := s[IndexOf(s, ':') + 1..];
    if ':' in rest then rest[..IndexOf(rest, ':')] else rest
  }

  /** The parser answers with the segment after the first `:` exactly when
      there is one and it is 15 to 25 decimal digits. */
  lemma ExtractSpec(customId: string)
    ensures ':' !in customId ==> ExtractTargetChannelId(customId) == None
    ensures ':' in customId && IsSnowflake(SegmentAfterColon(customId)) ==>
      ExtractTargetChannelId(customId) == Some(SegmentAfterColon(customId))
    ensures ':' in customId && !IsSnowflake(SegmentAfterColon(customId)) ==>
      ExtractTargetChannelId(customId) == None
  {
    if ':' in customId {
      var i := IndexOf(customId, ':');
      var rest := customId[i + 1..];
      var parts := Split(customId, ':');
      assert parts == [customId[..i]] + Split(rest, ':');
      assert parts[1] == Split(rest, ':')[0];
      if ':' in rest {
        var j := IndexOf(rest, ':');
        assert Split(rest, ':') == [rest[..j]] + Split(rest[j + 1..], ':');
      }
    }
  }

  /** A control id built for a channel id is read back as that channel id. */
  lemma ExtractControlId(prefix: string, chId: Id)
    requires ':' !in prefix && IsSnowflake(chId)
    ensures ExtractTargetChannelId(ControlId(prefix, chId)) == Some(chId)
  {
    assert ':' !in chId by {
      forall i | 0 <= i < |chId| ensures chId[i] != ':' {
        assert IsDigit(chId[i]);
      }
    }
    var parts := [prefix, chId];
    assert Join(parts, ':') == prefix + [':'] + chId by {
      assert parts[1..] == [chId];
    }
    assert ControlId(prefix, chId) == prefix + [':'] + chId;
    SplitJoin(parts, ':');
  }

  // ---------------- panel contents ----------------

  /** `buildPanelComponents`: owner, mods, allow and deny pickers, then the
      row of buttons, every control tagged with the channel id. */
  function PanelComponents(d: RoomData, chId: Id): seq<seq<Component>> {
    [ [UserSelect(ControlId("sel_owner", chId), 1, 1, [d.ownerId])],
      [UserSelect(ControlId("sel_mods", chId), 0, MaxMods, Take(d.mods, MaxMods))],
      [UserSelect(ControlId("sel_allow", chId), 0, MaxListed, Take(d.allow, MaxListed))],
      [UserSelect(ControlId("sel_deny", chId), 0, MaxListed, Take(d.deny, MaxListed))],
      [Button(ControlId("btn_lock", chId)), Button(ControlId("btn_unlock", chId)),
       Button(ControlId("btn_limit", chId)), Button(ControlId("btn_rename", chId)),
       Button(ControlId("btn_clear", chId))] ]
  }

  /** What the pickers pre-select: each list's head, never more than the
      picker accepts, and the whole list when it fits. */
  lemma PanelDefaults(d: RoomData, chId: Id)
    ensures var rows := PanelComponents(d, chId);
      |rows| == 5
      && (forall r, c :: 0 <= r < 4 && 0 <= c < |rows[r]| ==>
            rows[r][c].UserSelect? && |rows[r][c].defaultUsers| <= rows[r][c].maxValues
            && rows[r][c].minValues <= rows[r][c].maxValues)
      && rows[0][0].defaultUsers == [d.ownerId]
      && rows[1][0].defaultUsers <= d.mods && (|d.mods| <= MaxMods ==> rows[1][0].defaultUsers == d.mods)
      && (|d.mods| > MaxMods ==> |rows[1][0].defaultUsers| == MaxMods)
      && rows[2][0].defaultUsers <= d.allow && (|d.allow| <= MaxListed ==> rows[2][0].defaultUsers == d.allow)
      && (|d.allow| > MaxListed ==> |rows[2][0].defaultUsers| == MaxListed)
      && rows[3][0].defaultUsers <= d.deny && (|d.deny| <= MaxListed ==> rows[3][0].defaultUsers == d.deny)
      && (|d.deny| > MaxListed ==> |rows[3][0].defaultUsers| == MaxListed)
  {
  }

  /** Every control of the panel is `<prefix>:<channel id>`, with the
      prefixes laid out as in `PanelLayout`, and for a real channel id the
      parser reads that channel id back from every one of them. */
  lemma PanelIdsRoundTrip(d: RoomData, chId: Id)
    requires IsSnowflake(chId)
    ensures var rows := PanelComponents(d, chId);
      |rows| == |PanelLayout|
      && (forall r :: 0 <= r < |rows| ==> |rows[r]| == |PanelLayout[r]|)
      && (forall r, c :: 0 <= r < |rows| && 0 <= c < |rows[r]| ==>
            rows[r][c].customId == ControlId(PanelLayout[r][c], chId)
            && ExtractTargetChannelId(rows[r][c].customId) == Some(chId))
  {
    LayoutColonFree();
    forall r, c | 0 <= r < |PanelLayout| && 0 <= c < |PanelLayout[r]|
      ensures ExtractTargetChannelId(ControlId(PanelLayout[r][c], chId)) == Some(chId)
    {
      ExtractControlId(PanelLayout[r][c], chId);
    }
  }

  lemma LayoutColonFree()
    ensures forall r, c :: 0 <= r < |PanelLayout| && 0 <= c < |PanelLayout[r]| ==> ':' !in PanelLayout[r][c]
  {
    forall r, c | 0 <= r < |PanelLayout| && 0 <= c < |PanelLayout[r]|
      ensures ':' !in PanelLayout[r][c]
    {
      var p := PanelLayout[r][c];
      forall i | 0 <= i < |p| ensures p[i] != ':' {
        assert 'a' <= p[i] <= 'z' || p[i] == '_';
      }
    }
  }

  /** The status line: lock state and user limit. */
  function PanelContent(locked: bool, limit: int): string {
    "**Voice Manager** • " + (if locked then "🔒 Kilitli" else "🔓 Açık")
    + " • Limit: **" + IntToString(limit) + "**"
  }

  /** The status line tells the lock state and the limit apart: two different
      states never show the same line. */
  lemma PanelContentInjective(l1: bool, n1: int, l2: bool, n2: int)
    requires PanelContent(l1, n1) == PanelContent(l2, n2)
    ensures l1 == l2 && n1 == n2
  {
    var head := "**Voice Manager** • ";
    assert PanelContent(l1, n1)[|head|] == PanelContent(l2, n2)[|head|];
    var pre := head + (if l1 then "🔒 Kilitli" else "🔓 Açık") + " • Limit: **";
    SameMiddle(pre, IntToString(n1), IntToString(n2), "**");
    IntToStringInjective(n1, n2);
  }

  /** Two strings with the same beginning and end have the same middle. */
  lemma SameMiddle(pre: string, a: string, b: string, post: string)
    requires pre + a + post == pre + b + post
    ensures a == b
  {
    var s := pre + a + post;
    assert a == s[|pre|..|pre| + |a|];
    assert b == (pre + b + post)[|pre|..|pre| + |b|];
  }

  // ---------------- placement ----------------

  /** The history with every message whose id is `m.id` replaced by `m`. */
  function ReplaceMessage(msgs: seq<Message>, m: Message): (r: seq<Message>)
    ensures |r| == |msgs|
    ensures forall i :: 0 <= i < |msgs| ==> r[i] == if msgs[i].id == m.id then m else msgs[i]
  {
    seq(|msgs|, i requires 0 <= i < |msgs| => if msgs[i].id == m.id then m else msgs[i])
  }

  /** `msg.edit({ content, components })` then `msg.pin()`: the platform
      applies the edit only to the bot's own message; pinning works on any. */
  function EditPanelMessage(m: Message, botId: Id, content: string, rows: seq<seq<Component>>): (r: Message)
    ensures r.id == m.id && r.authorId == m.authorId && r.pinned
    ensures m.authorId == botId ==> r.content == content && r.rows == rows
    ensures m.authorId != botId ==> r == m.(pinned := true)
  {
    if m.authorId == botId then m.(content := content, rows := rows, pinned := true)
    else m.(pinned := true)
  }

  /** The message `send` produces for a new panel, already pinned. */
  function NewPanelMessage(freshId: Id, botId: Id, d: RoomData, chId: Id): Message {
    Message(freshId, botId, PanelContent(d.locked, d.userLimit), [], PanelComponents(d, chId), true)
  }

  /** The recorded panel message, when it still exists. */
  function ResolvePanel(msgs: seq<Message>, d: RoomData): Option<Message> {
    if d.panelMessageId.None? then None else FindMessage(msgs, d.panelMessageId.value)
  }

  /** The history after placement. */
  function PlacedMessages(msgs: seq<Message>, d: RoomData, chId: Id, botId: Id, freshId: Id): seq<Message> {
    match ResolvePanel(msgs, d)
    case Some(m) =>
      ReplaceMessage(msgs, EditPanelMessage(m, botId, PanelContent(d.locked, d.userLimit), PanelComponents(d, chId)))
    case None => msgs + [NewPanelMessage(freshId, botId, d, chId)]
  }

  /** The record after placement: a new message's id is recorded. */
  function PlacedRecord(msgs: seq<Message>, d: RoomData, freshId: Id): RoomData {
    if ResolvePanel(msgs, d).Some? then d else d.(panelMessageId := Some(freshId))
  }

  /** After placement the record names a pinned message of the channel, which
      shows the record's state whenever the bot wrote it, and the history has
      gained at most that one message. */
  lemma PlacementResolves(msgs: seq<Message>, d: RoomData, chId: Id, botId: Id, freshId: Id)
    requires UniqueIds(msgs) && freshId !in MessageIds(msgs)
    ensures var msgs' := PlacedMessages(msgs, d, chId, botId, freshId);
      var d' := PlacedRecord(msgs, d, freshId);
      && UniqueIds(msgs')
      && d' == d.(panelMessageId := d'.panelMessageId)
      && d'.panelMessageId.Some?
      && FindMessage(msgs', d'.panelMessageId.value).Some?
      && (var m := FindMessage(msgs', d'.panelMessageId.value).value;
          m.pinned
          && (m.authorId == botId ==>
                m.content == PanelContent(d.locked, d.userLimit) && m.rows == PanelComponents(d, chId)))
      && |msgs| <= |msgs'| <= |msgs| + 1
      && (ResolvePanel(msgs, d).Some? <==> |msgs'| == |msgs|)
  {
    match ResolvePanel(msgs, d)
    case Some(prev) =>
      var nm := EditPanelMessage(prev, botId, PanelContent(d.locked, d.userLimit), PanelComponents(d, chId));
      FoundAfterReplace(msgs, nm);
    case None =>
      FoundAfterAppend(msgs, NewPanelMessage(freshId, botId, d, chId));
  }

  /** An edited message is found again under its id, and ids stay unique. */
  lemma FoundAfterReplace(msgs: seq<Message>, m: Message)
    requires UniqueIds(msgs) && m.id in MessageIds(msgs)
    ensures UniqueIds(ReplaceMessage(msgs, m))
    ensures FindMessage(ReplaceMessage(msgs, m), m.id) == Some(m)
  {
    var msgs' := ReplaceMessage(msgs, m);
    var p :| p in msgs && p.id == m.id;
    var i :| 0 <= i < |msgs| && msgs[i] == p;
    assert msgs'[i] == m;
    assert m.id in MessageIds(msgs');
    forall x | x in msgs' && x.id == m.id ensures x == m { }
  }

  /** A message sent under a fresh id is found under it, and ids stay unique. */
  lemma FoundAfterAppend(msgs: seq<Message>, m: Message)
    requires UniqueIds(msgs) && m.id !in MessageIds(msgs)
    ensures UniqueIds(msgs + [m])
    ensures FindMessage(msgs + [m], m.id) == Some(m)
  {
    assert m.id in MessageIds(msgs + [m]);
    forall x | x in msgs + [m] && x.id == m.id ensures x == m { }
  }

  /** In an empty chat the panel is sent as its first message and recorded. */
  lemma PlacementInEmptyChat(d: RoomData, chId: Id, botId: Id, freshId: Id)
    requires d.panelMessageId.None?
    ensures PlacedMessages([], d, chId, botId, freshId) == [NewPanelMessage(freshId, botId, d, chId)]
    ensures PlacedRecord([], d, freshId) == d.(panelMessageId := Some(freshId))
    ensures ResolvePanel([], d).None? && MessageIds([]) == {}
  {
  }

  /** Placing the panel a second time, with the record the first placement
      left, reuses the same message: nothing is sent and nothing is recorded. */
  lemma PlacementStable(msgs: seq<Message>, d: RoomData, chId: Id, botId: Id, freshId: Id, freshId2: Id)
    requires UniqueIds(msgs) && freshId !in MessageIds(msgs)
    ensures var msgs' := PlacedMessages(msgs, d, chId, botId, freshId);
      var d' := PlacedRecord(msgs, d, freshId);
      PlacedRecord(msgs', d', freshId2) == d'
      && |PlacedMessages(msgs', d', chId, botId, freshId2)| == |msgs'|
  {
    PlacementResolves(msgs, d, chId, botId, freshId);
  }

  /** The placement step of `upsertPanel` for a room whose chat is `panel`.
      A resolved panel message is edited and pinned; otherwise a new pinned
      message is sent and the record, with its id, is stored again. */
  method UpsertPanel(panel: Channel, d: RoomData, db: VoiceDb, botId: Id, freshId: Id) returns (r: RoomData)
    requires freshId !in MessageIds(panel.messages)
    modifies panel`messages, db`rooms
    ensures !TextBased(panel.kind) ==> r == d && unchanged(panel, db)
    ensures TextBased(panel.kind) ==>
      && panel.messages == PlacedMessages(old(panel.messages), d, panel.id, botId, freshId)
      && r == PlacedRecord(old(panel.messages), d, freshId)
      && db.rooms == (if ResolvePanel(old(panel.messages), d).Some? then old(db.rooms)
                      else old(db.rooms)[panel.id := r])
  {
    r := d;
    if !TextBased(panel.kind) {
      return;
    }
    var content := PanelContent(d.locked, d.userLimit);
    var rows := PanelComponents(d, panel.id);
    var msg: Option<Message> := None;
    if d.panelMessageId.Some? {
      msg := FindMessage(panel.messages, d.panelMessageId.value);
    }
    if msg.None? {
      var sent := Message(freshId, botId, content, [], rows, true);
      panel.messages := panel.messages + [sent];
      r := d.(panelMessageId := Some(sent.id));
      db.rooms := db.rooms[panel.id := r];
    } else {
      panel.messages := ReplaceMessage(panel.messages, EditPanelMessage(msg.value, botId, content, rows));
    }
  }
}
