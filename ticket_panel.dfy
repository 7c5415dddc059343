/** The ticket feature's numbering (`pad`, `ticket-NNNN`), its panel message,
    the structural recogniser for panel messages, and the sweep that deletes
    the bot's old panels from the panel channel's recent history. */
module TicketPanel {
  import opened Util
  import opened Strs
  import opened Platform

  // ---------------- numbering ----------------

  /** `pad(n)`: `String(n).padStart(4, "0")`. */
  function Pad(n: nat): (r: string)
    ensures |r| == if |NatToString(n)| < 4 then 4 else |NatToString(n)|
    ensures AllDigits(r) && DigitsValue(r) == n
  {
    var s := NatToString(n);
    var r := PadStart(s, 4, '0');
    LeadingZeros(|r| - |s|, s);
    r
  }

  /** Different numbers are padded differently. */
  lemma PadInjective(a: nat, b: nat)
    requires Pad(a) == Pad(b)
    ensures a == b
  {
  }

  /** Small numbers get leading zeros; large ones are written in full. */
  lemma PadShape(n: nat)
    ensures n < 1000 ==> |Pad(n)| == 4
    ensures n >= 1000 ==> Pad(n) == NatToString(n)
    ensures Pad(7) == "0007"
  {
    NatToStringLength(n);
    var s7 := NatToString(7);
    assert s7 == "7";
    assert Pad(7) == Repeat('0', 3) + "7";
    assert Repeat('0', 3) == "000";
  }

  /** Numbers below 1000 have at most three digits, the others at least four. */
  lemma {:induction false} NatToStringLength(n: nat)
    ensures n < 1000 ==> |NatToString(n)| <= 3
    ensures n >= 1000 ==> |NatToString(n)| >= 4
    decreases n
  {
    if n >= 10 {
      NatToStringLength(n / 10);
      if n < 100 {
        assert n / 10 < 10;
      }
    }
  }

  /** The channel name of ticket number `n`. */
  function TicketName(n: nat): string {
    "ticket-" + Pad(n)
  }

  /** Tickets with different numbers get different channel names. */
  lemma TicketNameInjective(a: nat, b: nat)
    requires TicketName(a) == TicketName(b)
    ensures a == b
  {
    assert Pad(a) == TicketName(a)[7..];
    assert Pad(b) == TicketName(b)[7..];
    PadInjective(a, b);
  }

  // ---------------- the panel message ----------------

  const OpenButtonId: string := "t_open_complaint"
  const CloseButtonId: string := "t_close"

  /** `panelEmbed()` and `panelComponents()` as sent by the bot. */
  function TicketPanelMessage(id: Id, botId: Id): Message {
    Message(id, botId, "", ["Ticket"], [[Button(OpenButtonId)]], false)
  }

  /** An embed title that reads "ticket" once lower-cased and trimmed. */
  predicate IsTicketTitle(title: string) {
    Trim(ToLower(title)) == "ticket"
  }

  /** Some embed title is "ticket" once lower-cased and trimmed. */
  function HasTicketEmbed(titles: seq<string>): bool {
    if titles == [] then false
    else IsTicketTitle(titles[0]) || HasTicketEmbed(titles[1..])
  }

  function RowHasOpenButton(row: seq<Component>): bool {
    if row == [] then false
    else row[0].customId == OpenButtonId || RowHasOpenButton(row[1..])
  }

  function HasOpenButton(rows: seq<seq<Component>>): bool {
    if rows == [] then false
    else RowHasOpenButton(rows[0]) || HasOpenButton(rows[1..])
  }

  /** `isTicketPanelMessage`. */
  predicate IsTicketPanelMessage(m: Message) {
    HasTicketEmbed(m.embedTitles) && HasOpenButton(m.rows)
  }

  /** The recogniser accepts a message exactly when one of its embed titles,
      lower-cased and trimmed, is "ticket" and one of its components, in any
      row, is the open button. */
  lemma IsTicketPanelMessageSpec(m: Message)
    ensures IsTicketPanelMessage(m) <==>
      (exists i :: 0 <= i < |m.embedTitles| && Trim(ToLower(m.embedTitles[i])) == "ticket")
      && (exists r, c :: 0 <= r < |m.rows| && 0 <= c < |m.rows[r]| && m.rows[r][c].customId == OpenButtonId)
  {
    HasTicketEmbedSpec(m.embedTitles);
    HasOpenButtonSpec(m.rows);
  }

  lemma {:induction false} HasTicketEmbedSpec(titles: seq<string>)
    ensures HasTicketEmbed(titles) <==> exists i :: 0 <= i < |titles| && IsTicketTitle(titles[i])
  {
    if titles != [] {
      HasTicketEmbedSpec(titles[1..]);
      if HasTicketEmbed(titles[1..]) {
        var i :| 0 <= i < |titles[1..]| && IsTicketTitle(titles[1..][i]);
        assert IsTicketTitle(titles[i + 1]);
      }
      if exists i :: 0 <= i < |titles| && IsTicketTitle(titles[i]) {
        var i :| 0 <= i < |titles| && IsTicketTitle(titles[i]);
        if i > 0 {
          assert titles[1..][i - 1] == titles[i];
        }
      }
    }
  }

  lemma {:induction false} RowHasOpenButtonSpec(row: seq<Component>)
    ensures RowHasOpenButton(row) <==> exists c :: 0 <= c < |row| && row[c].customId == OpenButtonId
  {
    if row != [] {
      RowHasOpenButtonSpec(row[1..]);
      if RowHasOpenButton(row[1..]) {
        var c :| 0 <= c < |row[1..]| && row[1..][c].customId == OpenButtonId;
        assert row[c + 1].customId == OpenButtonId;
      }
      if exists c :: 0 <= c < |row| && row[c].customId == OpenButtonId {
        var c :| 0 <= c < |row| && row[c].customId == OpenButtonId;
        if c > 0 {
          assert row[1..][c - 1] == row[c];
        }
      }
    }
  }

  lemma {:induction false} HasOpenButtonSpec(rows: seq<seq<Component>>)
    ensures HasOpenButton(rows) <==>
      exists r, c :: 0 <= r < |rows| && 0 <= c < |rows[r]| && rows[r][c].customId == OpenButtonId
  {
    if rows != [] {
      HasOpenButtonSpec(rows[1..]);
      RowHasOpenButtonSpec(rows[0]);
      if HasOpenButton(rows[1..]) {
        var r, c :| 0 <= r < |rows[1..]| && 0 <= c < |rows[1..][r]| && rows[1..][r][c].customId == OpenButtonId;
        assert rows[r + 1][c].customId == OpenButtonId;
      }
      if exists r, c :: 0 <= r < |rows| && 0 <= c < |rows[r]| && rows[r][c].customId == OpenButtonId {
        var r, c :| 0 <= r < |rows| && 0 <= c < |rows[r]| && rows[r][c].customId == OpenButtonId;
        if r > 0 {
          assert rows[1..][r - 1] == rows[r];
        }
      }
    }
  }

  /** The bot's own panel message is recognised as a panel. */
  lemma PanelMessageRecognised(id: Id, botId: Id)
    ensures IsTicketPanelMessage(TicketPanelMessage(id, botId))
  {
    TicketTitleMatches();
    assert HasTicketEmbed(["Ticket"]);
    assert RowHasOpenButton([Button(OpenButtonId)]);
    assert HasOpenButton([[Button(OpenButtonId)]]);
  }

  /** The panel's title "Ticket" lower-cases and trims to "ticket". */
  lemma TicketTitleMatches()
    ensures Trim(ToLower("Ticket")) == "ticket"
  {
    var t := ToLower("Ticket");
    assert t[0] == 't' && t[1] == 'i' && t[2] == 'c' && t[3] == 'k' && t[4] == 'e' && t[5] == 't';
    assert t == "ticket";
    assert !IsSpace(t[0]) && !IsSpace(t[5]);
    assert TrimStart(t) == t;
    assert TrimEnd(t) == t;
  }

  // ---------------- the sweep ----------------

  /** `messages.fetch({ limit: n })`: the newest `n` messages. */
  function Window(msgs: seq<Message>, n: nat): (w: seq<Message>)
    ensures |w| == if n < |msgs| then n else |msgs|
    ensures w == msgs[|msgs| - |w|..]
  {
    if n < |msgs| then msgs[|msgs| - n..] else msgs
  }

  /** The messages of `window` the sweep deletes: the bot's own panels. */
  function PanelsBy(window: seq<Message>, me: Id): (r: seq<Message>)
    ensures forall m :: m in r <==> m in window && m.authorId == me && IsTicketPanelMessage(m)
    ensures |r| <= |window|
  {
    if window == [] then []
    else
      var init := window[..|window| - 1];
      var last := window[|window| - 1];
      assert window == init + [last];
      var r := PanelsBy(init, me);
      if last.authorId == me && IsTicketPanelMessage(last) then r + [last] else r
  }

  /** What `cleanupOldTicketPanels(ch, maxScan)` deletes: nothing when the
      channel is not text-based, the bot's member is unknown, it may not
      manage messages, or the fetch fails; otherwise the bot's panels among
      the newest `min(maxScan, 100)` messages. */
  function SweepTargets(kind: ChannelKind, msgs: seq<Message>, me: Option<Id>, canManageMessages: bool,
                        fetchOk: bool, maxScan: nat): seq<Message>
  {
    if !TextBased(kind) || me.None? || !canManageMessages || !fetchOk then []
    else PanelsBy(Window(msgs, if maxScan < 100 then maxScan else 100), me.value)
  }

  /** The sweep deletes only the bot's panels, at most `min(maxScan, 100)` of
      them, all from the scanned window, and nothing at all when a guard fails. */
  lemma SweepTargetsSpec(kind: ChannelKind, msgs: seq<Message>, me: Option<Id>, canManageMessages: bool,
                         fetchOk: bool, maxScan: nat)
    ensures var t := SweepTargets(kind, msgs, me, canManageMessages, fetchOk, maxScan);
      && |t| <= (if maxScan < 100 then maxScan else 100)
      && (!TextBased(kind) || me.None? || !canManageMessages || !fetchOk ==> t == [])
      && (forall m :: m in t ==>
            (me.Some? && m.authorId == me.value && IsTicketPanelMessage(m)
             && m in Window(msgs, if maxScan < 100 then maxScan else 100)))
      && (TextBased(kind) && me.Some? && canManageMessages && fetchOk ==>
            forall m :: (m in Window(msgs, if maxScan < 100 then maxScan else 100)
              && m.authorId == me.value && IsTicketPanelMessage(m)) ==> m in t)
  {
  }

  /** With unique message ids, removing the sweep's targets removes no
      message that is not a bot panel and keeps everything outside them. */
  lemma SweepRemovesOnlyBotPanels(msgs: seq<Message>, n: nat, me: Id)
    requires UniqueIds(msgs)
    ensures var after := RemoveMessages(msgs, MessageIds(PanelsBy(Window(msgs, n), me)));
      && (forall m :: m in msgs && m !in after ==> m.authorId == me && IsTicketPanelMessage(m))
      && (forall m :: m in msgs && !(m.authorId == me && IsTicketPanelMessage(m)) ==> m in after)
  {
    var doomed := PanelsBy(Window(msgs, n), me);
    forall m | m in msgs && m.id in MessageIds(doomed)
      ensures m.authorId == me && IsTicketPanelMessage(m)
    {
      TargetIdOwner(msgs, n, me, m);
    }
  }

  /** A message whose id the sweep targets is itself one of the targets. */
  lemma TargetIdOwner(msgs: seq<Message>, n: nat, me: Id, m: Message)
    requires UniqueIds(msgs) && m in msgs && m.id in MessageIds(PanelsBy(Window(msgs, n), me))
    ensures m in PanelsBy(Window(msgs, n), me)
  {
    var window := Window(msgs, n);
    var p :| p in PanelsBy(window, me) && p.id == m.id;
    WindowInHistory(msgs, n, p);
    SameIdSameMessage(msgs, m, p);
  }

  /** The scanned window is part of the history. */
  lemma WindowInHistory(msgs: seq<Message>, n: nat, p: Message)
    requires p in Window(msgs, n)
    ensures p in msgs
  {
    var w := Window(msgs, n);
    assert w == msgs[|msgs| - |w|..];
  }

  /** Within a history of unique ids, a message is determined by its id. */
  lemma SameIdSameMessage(msgs: seq<Message>, m: Message, p: Message)
    requires UniqueIds(msgs) && m in msgs && p in msgs && m.id == p.id
    ensures m == p
  {
    var i :| 0 <= i < |msgs| && msgs[i] == m;
    var j :| 0 <= j < |msgs| && msgs[j] == p;
  }

  /** `cleanupOldTicketPanels`: deletes the sweep's targets one by one and
      counts them. */
  method CleanupOldTicketPanels(ch: Channel, me: Option<Id>, canManageMessages: bool, fetchOk: bool, maxScan: nat)
    returns (deleted: nat)
    modifies ch`messages
    ensures var t := SweepTargets(ch.kind, old(ch.messages), me, canManageMessages, fetchOk, maxScan);
      deleted == |t| && ch.messages == RemoveMessages(old(ch.messages), MessageIds(t))
  {
    if !TextBased(ch.kind) || me.None? || !canManageMessages || !fetchOk {
      assert MessageIds([]) == {};
      RemoveNothing(ch.messages);
      return 0;
    }
    var window := Window(ch.messages, if maxScan < 100 then maxScan else 100);
    deleted := DeletePanels(ch, window, me.value);
  }

  /** The loop of the sweep: deletes, one at a time, the messages of `window`
      that are the bot's panels. */
  method DeletePanels(ch: Channel, window: seq<Message>, me: Id) returns (deleted: nat)
    modifies ch`messages
    ensures deleted == |PanelsBy(window, me)|
    ensures ch.messages == RemoveMessages(old(ch.messages), MessageIds(PanelsBy(window, me)))
  {
    ghost var start := ch.messages;
    RemoveNothing(start);
    assert window[..0] == [] && MessageIds([]) == {};
    deleted := 0;
    var i := 0;
    while i < |window|
      invariant 0 <= i <= |window|
      invariant deleted == |PanelsBy(window[..i], me)|
      invariant ch.messages == RemoveMessages(start, MessageIds(PanelsBy(window[..i], me)))
    {
      var msg := window[i];
      SweepStep(start, window, i, me);
      if msg.authorId == me && IsTicketPanelMessage(msg) {
        ch.messages := RemoveMessages(ch.messages, {msg.id});
        deleted := deleted + 1;
      }
      i := i + 1;
    }
    assert window[..i] == window;
  }

  /** Scanning one more message of the window adds it to the targets exactly
      when it is a bot panel. */
  lemma PanelsByStep(window: seq<Message>, i: nat, me: Id)
    requires i < |window|
    ensures PanelsBy(window[..i + 1], me) ==
      if window[i].authorId == me && IsTicketPanelMessage(window[i])
      then PanelsBy(window[..i], me) + [window[i]]
      else PanelsBy(window[..i], me)
  {
    assert window[..i + 1][..i] == window[..i];
  }

  /** One more message of the window scanned: when it is a bot panel it is
      deleted and counted, otherwise nothing changes. */
  lemma SweepStep(start: seq<Message>, window: seq<Message>, i: nat, me: Id)
    requires i < |window|
    ensures var m := window[i];
      var done := PanelsBy(window[..i], me);
      var next := PanelsBy(window[..i + 1], me);
      if m.authorId == me && IsTicketPanelMessage(m) then
        |next| == |done| + 1
        && RemoveMessages(start, MessageIds(next)) == RemoveMessages(RemoveMessages(start, MessageIds(done)), {m.id})
      else next == done
  {
    PanelsByStep(window, i, me);
    if window[i].authorId == me && IsTicketPanelMessage(window[i]) {
      DeleteOneMore(start, PanelsBy(window[..i], me), window[i]);
    }
  }

  /** Deleting one more message after the ones already deleted. */
  lemma DeleteOneMore(start: seq<Message>, done: seq<Message>, m: Message)
    ensures RemoveMessages(RemoveMessages(start, MessageIds(done)), {m.id})
         == RemoveMessages(start, MessageIds(done + [m]))
  {
    RemoveMessagesTwice(start, MessageIds(done), {m.id});
    assert MessageIds(done + [m]) == MessageIds(done) + {m.id};
  }

  /** Deleting no ids changes nothing. */
  lemma {:induction false} RemoveNothing(msgs: seq<Message>)
    ensures RemoveMessages(msgs, {}) == msgs
  {
    if msgs != [] {
      var init := msgs[..|msgs| - 1];
      var last := msgs[|msgs| - 1];
      assert msgs == init + [last];
      RemoveNothing(init);
      assert RemoveMessages(msgs, {}) == RemoveMessages(init, {}) + [last];
    }
  }
}
