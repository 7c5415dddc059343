# Voice manager and ticket feature of a Discord bot, modelled in Dafny

The bot has two features that share one key-value store.

- The **voice manager** (`src/features/VoiceManager/voiceManager.js`):
  - Joining the guild's join-to-create channel creates an ephemeral voice room owned by the joiner.
  - The room keeps a record: owner, mods, allow and deny lists, lock, user limit, persistence, the id of its panel message, and the ids whose overwrites it manages.
  - A reconciler turns that record into Connect overwrites on the channel.
  - A pinned panel in the room's chat offers user pickers, buttons and forms that edit the record.
  - `/setup` makes a persistent room. `/kapat` hands a room back. `/panel` rebuilds the record from the channel and places the panel again.
  - An ephemeral room is deleted when it empties.
- The **ticket feature** (`src/features/Ticket/ticket.js`):
  - `/ticket setup` stores the panel channel, category, staff role and log channel.
  - `/ticket panel` replaces the panel message, sweeping the bot's old panels from recent history.
  - The open form creates a numbered private text channel `ticket-NNNN` with a ticket record.
  - The close form deletes the record and the channel.

Modules, one file each:

| file | module | contents |
|---|---|---|
| util.dfy | `Util` | `Option`, `uniq`, `slice`, `filter` |
| strings.dfy | `Strs` | JavaScript `trim`, ASCII `toLowerCase`, `split`, `String(n)`, `padStart`, `parseInt` |
| platform.dfy | `Platform` | Discord as the bot sees it (see below) |
| keys.dfy | `Keys` | the store's key builders |
| voice_room.dfy | `VoiceRoom` | the room record, authorization, and the record edits |
| voice_perms.dfy | `VoicePerms` | `applyVoicePerms` and `syncDataFromChannel` |
| voice_panel.dfy | `VoicePanel` | the panel's controls, the custom-id parser, and panel placement |
| voice_manager.dfy | `VoiceManager` | the event handlers |
| ticket_panel.dfy | `TicketPanel` | `pad`, the panel recogniser, and the sweep |
| ticket.dfy | `Ticket` | the ticket handlers |
| routing.dfy | `Routing` | how the two features share interactions |

`Platform` models:
- ids;
- channel kinds;
- permission overwrites, as a kind plus allow and deny sets;
- components;
- messages, as values;
- a `Channel` class whose name, limit, overwrites, members, messages and deleted flag the handlers update in place.

Each feature's store is a class (`VoiceDb`, `TicketDb`) with one map per key family. `Keys.FamiliesDisjoint` justifies the split: keys of different families never collide.

Panel interactions are decided by pure step functions over the state before the event (`SelectStep`, `ButtonStep`, `ModalStep`). Handler methods carry them out. The two-state predicate `VoiceManager.Performed` states the whole effect of a change on the room's channel and the store, field by field. Each panel handler promises `Performed` for a change and no change at all for a refusal.

Fresh ids (a new message, a new channel) are parameters of the methods. So are facts about the environment:
- whether the bot's guild member is known;
- whether it may manage messages;
- whether a history fetch succeeds.

Behaviour of the code that the model keeps:
- The voice manager does not sweep old panels from the room's chat. Only the ticket feature sweeps. `VoicePanel.PlacementResolves` bounds the voice panel's history growth to one message per placement instead.
- `getManaged` computes the channel id embedded in the custom id and then ignores it. The room is always the channel the interaction came from.
- `/kapat` is not restricted to persistent rooms. It acts on any managed voice channel.
- The reconciler drops the empty owner id from the managed set.

## Model

| member | source | states |
|---|---|---|
| Util.Uniq | src/features/VoiceManager/voiceManager.js:56 | `uniq` keeps exactly the elements of its input, without repeats, never growing |
| Util.UniqOfNoDup | src/features/VoiceManager/voiceManager.js:56 | `uniq` leaves a repeat-free list as it is |
| Util.Take | src/features/VoiceManager/voiceManager.js:611 | `slice(0, n)` is a prefix of the list: the whole list when it has at most `n` elements, exactly `n` elements otherwise; it keeps a list free of repeats |
| Util.Without | src/features/VoiceManager/voiceManager.js:621 | `filter(x => !xs.includes(x))` keeps exactly the elements not in `xs`, never grows, and keeps a list free of repeats |
| Util.UniqIdempotent | src/features/VoiceManager/voiceManager.js:56 | `uniq` of a `uniq` result changes nothing |
| Strs.TrimStart | src/features/VoiceManager/voiceManager.js:750 | the left half of `trim()`: only leading white space is dropped, and the result does not start with white space |
| Strs.TrimEnd | src/features/VoiceManager/voiceManager.js:750 | the right half of `trim()`: only trailing white space is dropped, and the result does not end with white space |
| Strs.TrimEmptyIffAllSpace | src/features/VoiceManager/voiceManager.js:750-751 | `trim()` gives "" exactly when the text is all white space |
| Strs.ToLower | src/features/Ticket/ticket.js:115 | `toLowerCase()` on ASCII: each capital becomes the small letter at the same place in the alphabet, every other character stays, and no capital remains |
| Strs.NatToString | src/features/Ticket/ticket.js:20 | `String(n)` is a non-empty digit string with value `n`, without a leading zero unless it is "0" |
| Strs.NatToStringInjective | src/features/Ticket/ticket.js:20 | different numbers are written differently |
| Strs.IntToStringInjective | src/features/VoiceManager/voiceManager.js:245 | the written form of an integer (with its sign) determines it |
| Strs.PadStart | src/features/Ticket/ticket.js:20 | `padStart(len, c)` prefixes exactly enough `c`s to reach `len` and never cuts |
| Strs.LeadingZeros | src/features/Ticket/ticket.js:20 | leading zeros do not change a digit string's value |
| Strs.DigitPrefix | src/features/VoiceManager/voiceManager.js:738 | the digits `parseInt` reads are the longest run of digits at the start |
| Strs.ParseIntLeadingNumber | src/features/VoiceManager/voiceManager.js:738 | `parseInt(String(n) + rest, 10)` is `n` when `rest` does not start with a digit |
| Strs.ParseIntNoDigits | src/features/VoiceManager/voiceManager.js:738 | text without digits parses to `NaN` (no number) |
| Strs.IndexOf | src/features/VoiceManager/voiceManager.js:306 | the first position of a character |
| Strs.Split | src/features/VoiceManager/voiceManager.js:306 | `split(sep)` gives at least one part, none containing `sep`, and one part exactly when `sep` is absent |
| Strs.JoinSplit | src/features/VoiceManager/voiceManager.js:306 | joining the parts of a split gives the text back |
| Strs.SplitJoin | src/features/VoiceManager/voiceManager.js:306 | splitting parts joined by a separator they do not contain gives the parts back |
| Platform.MessageIds | src/features/VoiceManager/voiceManager.js:248-255 | the ids of a history are exactly its messages' ids |
| Platform.FindMessage | src/features/VoiceManager/voiceManager.js:248-255 | `messages.fetch(id)` finds a message exactly when one has that id, and returns a message of the history with that id |
| Platform.RemoveMessages | src/features/Ticket/ticket.js:172-173 | deleting by ids keeps exactly the messages whose ids are not listed, and keeps ids unique |
| Platform.RemoveMessagesTwice | src/features/Ticket/ticket.js:171-177 | two deletions in a row equal one deletion of both id sets |
| Keys.FamiliesDisjoint | src/features/VoiceManager/voiceManager.js:50-53 | keys from different families (`vc_`, `temp_template_`, `user_tpl_`, `guild_cfg_`, `ticket_cfg_`, `ticket_data_`, `ticket_counter_`) never collide |
| Keys.SingleIdKeysInjective | src/features/Ticket/ticket.js:14-16 | each single-id key builder is injective |
| Keys.UserTplKeyInjective | src/features/VoiceManager/voiceManager.js:52 | `user_tpl_<guild>_<user>` is injective when guild ids are digit strings |
| Keys.UserTplKeyCollision | src/features/VoiceManager/voiceManager.js:52 | without digit-only guild ids, two different pairs share a key |
| VoiceRoom.AuthorityLadder | src/features/VoiceManager/voiceManager.js:58-74 | managing a room implies editing allow/deny; the two differ exactly for a mod who is neither owner nor admin |
| VoiceRoom.Desired | src/features/VoiceManager/voiceManager.js:104 | the managed ids are exactly the non-empty owner, mods, allow and deny, without repeats |
| VoiceRoom.PickMods | src/features/VoiceManager/voiceManager.js:607-614 | new mods are the picked ids in first-pick order without repeats, cut at 10: every pick is kept when fewer than 10 remain, and a repeat-free pick of at most 10 is stored exactly as picked; nothing else changes |
| VoiceRoom.PickAllow | src/features/VoiceManager/voiceManager.js:616-624 | the allow list is the picks in first-pick order without repeats, cut at 25 (every pick kept when fewer remain; a repeat-free pick of at most 25 stored as picked); deny keeps exactly its ids not allowed; the lists are disjoint |
| VoiceRoom.PickDeny | src/features/VoiceManager/voiceManager.js:626-640 | the deny list is the picks in first-pick order without repeats, cut at 25 (every pick kept when fewer remain; a repeat-free pick of at most 25 stored as picked); allow keeps exactly its ids not denied; the lists are disjoint |
| VoiceRoom.PickWithinCapKept | src/features/VoiceManager/voiceManager.js:611 | a repeat-free pick within the cap is stored as picked |
| VoiceRoom.ParseLimit | src/features/VoiceManager/voiceManager.js:738-741 | an accepted limit lies in 0..99 |
| VoiceRoom.ParseLimitDecimal | src/features/VoiceManager/voiceManager.js:738-741 | a decimal number, alone or followed by text that starts with a non-digit and does not end in white space, is accepted as that number exactly when it is at most 99 |
| VoiceRoom.ParseLimitRejectsNonNumbers | src/features/VoiceManager/voiceManager.js:738-741 | input without digits is refused |
| VoiceRoom.RenameTo | src/features/VoiceManager/voiceManager.js:750-751 | a rename is refused exactly when the input is all white space; otherwise it is the trimmed input |
| VoiceRoom.RoomName | src/features/VoiceManager/voiceManager.js:353-355 | a new room takes the trimmed remembered name when it is not blank, else `📍・<display name> Odası` |
| VoiceRoom.RoomFromTemplate | src/features/VoiceManager/voiceManager.js:370-380 | a new record copies the template's lists (as sets, without repeats), lock and limit; the joiner owns it; it is ephemeral with no panel |
| VoiceRoom.TemplateOf | src/features/VoiceManager/voiceManager.js:284-293 | the stored template has the room's lists without repeats, its lock and its limit |
| VoiceRoom.TemplateCarriesSettings | src/features/VoiceManager/voiceManager.js:284-293 | a room created from the template another room left behind has that room's settings |
| VoiceRoom.SetupRoom | src/features/VoiceManager/voiceManager.js:530-540 | `/setup` creates a persistent, unlocked room owned by the caller, with empty lists and the channel's limit (0 when absent) |
| VoicePerms.WithConnect | src/features/VoiceManager/voiceManager.js:114-130 | `edit(id, { Connect })` sets Connect as asked and keeps the overwrite's kind and other bits |
| VoicePerms.WithConnectLastWins | src/features/VoiceManager/voiceManager.js:117-130 | of two Connect edits of one id, only the last shows |
| VoicePerms.EditAllAt | src/features/VoiceManager/voiceManager.js:117-130 | after a loop of edits, every listed id has the requested Connect and no other id changed |
| VoicePerms.StaleIds | src/features/VoiceManager/voiceManager.js:107-111 | deleted overwrites are exactly those managed before, no longer desired, and not @everyone |
| VoicePerms.ReconcileAt | src/features/VoiceManager/voiceManager.js:97-134 | where each id ends: touched ids carry their final Connect, stale ids are gone, others are unchanged |
| VoicePerms.ReconcileGuarantees | src/features/VoiceManager/voiceManager.js:97-134 | owner and mods are granted; allow is granted; deny-only ids are denied; @everyone is denied exactly when locked; stale ids are removed; unrelated overwrites are untouched |
| VoicePerms.ReconcileIdempotent | src/features/VoiceManager/voiceManager.js:97-134 | a second run with the refreshed record deletes nothing and changes nothing |
| VoicePerms.WithConnectNoOp | src/features/VoiceManager/voiceManager.js:117-130 | an edit that asks for the Connect state an overwrite already has changes nothing |
| VoicePerms.ApplyVoicePerms | src/features/VoiceManager/voiceManager.js:97-134 | the channel's overwrites become the reconciled map, and the managed ids become the desired ids |
| VoicePerms.DeleteStale | src/features/VoiceManager/voiceManager.js:100-111 | the first loop removes exactly the stale ids' overwrites: managed before, no longer wanted, not @everyone |
| VoicePerms.EditEach | src/features/VoiceManager/voiceManager.js:117-130 | one edit loop leaves the overwrites as the list's edits applied in order |
| VoicePerms.SyncDataFromChannel | src/features/VoiceManager/voiceManager.js:143-183 | the rebuilt record keeps owner and mods; reads lock and limit from the channel; allows exactly the plain member grants and denies exactly the plain member denials (not owner or mod); keeps allow and deny disjoint |
| VoicePerms.SyncThenReconcile | src/features/VoiceManager/voiceManager.js:143-183 | reconciling right after a sync deletes nothing and leaves every non-owner, non-mod overwrite as it was |
| VoicePanel.ExtractSpec | src/features/VoiceManager/voiceManager.js:304-310 | the parser returns the segment after the first `:` exactly when it is 15 to 25 digits |
| VoicePanel.ExtractControlId | src/features/VoiceManager/voiceManager.js:304-310 | a control id built for a channel parses back to that channel |
| VoicePanel.PanelDefaults | src/features/VoiceManager/voiceManager.js:193-239 | the owner picker pre-selects the owner; the others pre-select a prefix of their list: the whole list when it fits in 10 or 25, exactly 10 or 25 entries otherwise; no picker pre-selects more than it accepts |
| VoicePanel.PanelIdsRoundTrip | src/features/VoiceManager/voiceManager.js:193-239 | the panel has the five rows of controls, and every control's id parses back to the room |
| VoicePanel.PanelContentInjective | src/features/VoiceManager/voiceManager.js:245 | the status line tells every lock state and limit apart |
| VoicePanel.ReplaceMessage | src/features/VoiceManager/voiceManager.js:265 | editing a message replaces exactly the messages with its id |
| VoicePanel.EditPanelMessage | src/features/VoiceManager/voiceManager.js:265-269 | an edited panel is pinned; its text and controls change only if the bot wrote it |
| VoicePanel.PlacementResolves | src/features/VoiceManager/voiceManager.js:249-270 | after placement the record names a pinned message in the chat, showing the room when the bot wrote it; ids stay unique; the chat grows by a message exactly when the recorded one was gone |
| VoicePanel.PlacementInEmptyChat | src/features/VoiceManager/voiceManager.js:249-270 | in a chat with no recorded panel the panel is sent as the first message and its id is recorded |
| VoicePanel.PlacementStable | src/features/VoiceManager/voiceManager.js:249-270 | placing again with the recorded id sends nothing new |
| VoicePanel.UpsertPanel | src/features/VoiceManager/voiceManager.js:242-271 | a chat that is not text-based is left alone; otherwise the chat and the record become the placement's |
| VoiceManager.Managed | src/features/VoiceManager/voiceManager.js:312-331 | a room is found exactly when the chat is a voice channel with a record |
| VoiceManager.SelectRespectsAuthority | src/features/VoiceManager/voiceManager.js:596-640 | only owners and admins change owner or mods; a mod's change leaves owner, mods, lock and limit alone |
| VoiceManager.OutcomesKeepListsApart | src/features/VoiceManager/voiceManager.js:588-760 | every change keeps allow and deny disjoint; a picker change leaves at most 10 mods or the mods as they were |
| VoiceManager.ButtonContract | src/features/VoiceManager/voiceManager.js:657-715 | lock and unlock set only the lock; clear empties lists and limit and keeps the owner; forms open only for owners and admins |
| VoiceManager.ModalContract | src/features/VoiceManager/voiceManager.js:728-760 | a limit is accepted only in 0..99 and set on record and channel; a rename changes no record field; refusals change nothing |
| VoiceManager.DenyDisconnects | src/features/VoiceManager/voiceManager.js:626-640 | a deny pick disconnects exactly the new deny list |
| VoiceManager.AutoUpdateTempTemplate | src/features/VoiceManager/voiceManager.js:284-293 | an ephemeral room's settings become the guild template; a persistent room leaves it |
| VoiceManager.AfterChange | src/features/VoiceManager/voiceManager.js:295-301 | overwrites reconciled, record stored with the new managed ids and panel id, template updated; members, limit, name, deleted flag, names and configs untouched |
| VoiceManager.Perform | src/features/VoiceManager/voiceManager.js:596-760 | `Performed`: the listed members are disconnected, limit and name set when given (else kept), overwrites reconciled, the panel placed in the room's chat and its record stored, the template refreshed for an ephemeral room, a new name remembered for the owner; deleted flag and guild configs unchanged |
| VoiceManager.EditChannel | src/features/VoiceManager/voiceManager.js:633-754 | the channel edits before `afterChange`: the listed members are disconnected, the limit and name are set when given, and a new name is remembered for the owner; overwrites, chat, deleted flag and the rest of the store untouched |
| VoiceManager.Resync | src/features/VoiceManager/voiceManager.js:471-475 | the accepted `/panel`: the record is synced from the channel, stored, and the panel placed again |
| VoiceManager.Adopt | src/features/VoiceManager/voiceManager.js:542-547 | the accepted `/setup`: the persistent record is reconciled onto the channel, stored, and given a panel |
| VoiceManager.HandleSelect | src/features/VoiceManager/voiceManager.js:586-643 | the picker's outcome is `SelectStep` on the state before; a refusal changes nothing; a change is carried out exactly as `Performed` states |
| VoiceManager.HandleButton | src/features/VoiceManager/voiceManager.js:646-718 | the button's outcome is `ButtonStep` on the state before; a refusal changes nothing; a change is carried out exactly as `Performed` states |
| VoiceManager.HandleModal | src/features/VoiceManager/voiceManager.js:720-762 | the form's outcome is `ModalStep` on the state before; a refusal changes nothing; a change is carried out exactly as `Performed` states |
| VoiceManager.VoiceChat | src/features/VoiceManager/voiceManager.js:186-190 | the chat's channel is returned exactly when it is a voice channel |
| VoiceManager.SetCreate | src/features/VoiceManager/voiceManager.js:413-437 | only admins; only voice channels; stores the trigger and creates a default template when none exists |
| VoiceManager.PanelCommand | src/features/VoiceManager/voiceManager.js:446-476 | only in a managed room's chat, for owner or admin; a refusal changes neither store nor channel; on success the stored record is the channel-synced one and the panel is placed, and no other channel field changes |
| VoiceManager.Setup | src/features/VoiceManager/voiceManager.js:485-550 | target resolution, admin check, refusal of a managed room, with no change on refusal; the new persistent record is reconciled, stored and given a panel; the target's name, limit, members and deleted flag and the other channel are unchanged |
| VoiceManager.Kapat | src/features/VoiceManager/voiceManager.js:552-580 | for admins on a managed room: the recorded panel is deleted when found, limit 0, no overwrites, record deleted; name, members and deleted flag kept; the other channels and, on refusal, everything unchanged |
| VoiceManager.OnlyEmptyEphemeralRoomsGo | src/features/VoiceManager/voiceManager.js:387-393 | persistent, occupied or unmanaged rooms are never torn down |
| VoiceManager.CreateRoom | src/features/VoiceManager/voiceManager.js:340-385 | `IsNewRoom`: a fresh voice room under the joined channel's category, named per `RoomName`, holding only the joiner (who leaves the joined channel), with the template's limit, overwrites reconciled from the template, the panel as its only message; the template stored; the record `FirstRecord` stored under its id |
| VoiceManager.FirstRecord | src/features/VoiceManager/voiceManager.js:370-385 | a new room's record is owned by the joiner, ephemeral, carries the template's lock and limit, its panel's id and its desired managed ids |
| VoiceManager.GuildTemplate | src/features/VoiceManager/voiceManager.js:346-350 | the guild's template is read, and the default one is stored first when there is none |
| VoiceManager.OpenRoom | src/features/VoiceManager/voiceManager.js:358-366 | the new voice channel sits under the joined channel's category, with the joiner moved into it and the template's limit |
| VoiceManager.StartRoom | src/features/VoiceManager/voiceManager.js:370-385 | the new room's record is stored, its overwrites are reconciled, and its panel is the only message, recorded in the stored record |
| VoiceManager.TearDown | src/features/VoiceManager/voiceManager.js:387-393 | an abandoned room's record and channel are deleted; otherwise nothing changes; templates, configs and the channel's other fields are untouched |
| VoiceManager.VoiceStateUpdate | src/features/VoiceManager/voiceManager.js:335-397 | a room is created exactly when the joined channel is the trigger, as `IsNewRoom` states, with record `FirstRecord`; an abandoned left room and its record are deleted; the other fields of the joined and left channels, configs and names are untouched |
| VoiceManager.CreateOnJoin | src/features/VoiceManager/voiceManager.js:341-385 | a room is created exactly when the joined channel is the join-to-create channel, as `IsNewRoom` states, adding the one record `FirstRecord`; otherwise nothing changes; the joined channel's other fields, configs and names are untouched |
| TicketPanel.Pad | src/features/Ticket/ticket.js:19-21 | `pad(n)` is a digit string of length max(4, digits of n) whose value is n |
| TicketPanel.PadInjective | src/features/Ticket/ticket.js:19-21 | different numbers pad differently |
| TicketPanel.PadShape | src/features/Ticket/ticket.js:19-21 | numbers below 1000 pad to 4 characters, others are written in full; 7 pads to "0007" |
| TicketPanel.TicketNameInjective | src/features/Ticket/ticket.js:335 | different ticket numbers give different channel names |
| TicketPanel.IsTicketPanelMessageSpec | src/features/Ticket/ticket.js:111-127 | a message is a panel exactly when some embed title, lower-cased and trimmed, is "ticket" and some component of some row is the open button |
| TicketPanel.PanelMessageRecognised | src/features/Ticket/ticket.js:31-46 | the bot's own panel is recognised as a panel |
| TicketPanel.Window | src/features/Ticket/ticket.js:142 | the fetch returns the newest min(n, history) messages |
| TicketPanel.PanelsBy | src/features/Ticket/ticket.js:148-158 | the sweep's targets are exactly the bot-authored panels of the window |
| TicketPanel.SweepTargetsSpec | src/features/Ticket/ticket.js:130-161 | nothing is deleted when the channel is not text-based, the bot member is unknown, it may not manage messages, or the fetch fails; otherwise only bot panels among the newest min(maxScan, 100), all of them, and never more |
| TicketPanel.SweepRemovesOnlyBotPanels | src/features/Ticket/ticket.js:148-158 | with unique ids, every message that is not a bot panel survives the sweep |
| TicketPanel.CleanupOldTicketPanels | src/features/Ticket/ticket.js:130-161 | deletes exactly the sweep's targets and returns their count |
| TicketPanel.DeletePanels | src/features/Ticket/ticket.js:148-158 | the loop deletes the window's bot panels one by one and counts them |
| Ticket.OrNull | src/features/Ticket/ticket.js:232-233 | `x \|\| null` keeps a non-empty id and drops an absent or empty one |
| Ticket.SetupContract | src/features/Ticket/ticket.js:213-234 | setup succeeds exactly when the category is a category, the panel a text or announcement channel, and a given log one too; the stored config has no panel message and holds a role or log only when given |
| Ticket.Setup | src/features/Ticket/ticket.js:205-248 | a refusal writes nothing; success stores the config |
| Ticket.Off | src/features/Ticket/ticket.js:269-272 | the guild's config is forgotten |
| Ticket.WithoutRecorded | src/features/Ticket/ticket.js:171-174 | deleting the recorded panel removes exactly the message with that id |
| Ticket.SweptSpec | src/features/Ticket/ticket.js:177 | the sweep keeps unique ids and every non-panel message; over a short enough history it leaves no bot panel |
| Ticket.ReplacedHistoryEndsWithPanel | src/features/Ticket/ticket.js:164-192 | after a replacement the newest message is the bot's pinned panel under the new id, and ids stay unique |
| Ticket.ReplacedHistoryKeeps | src/features/Ticket/ticket.js:164-192 | the recorded panel is gone; every message that is neither recorded nor a bot panel survives; nothing else is added; over a short history no other bot panel remains |
| Ticket.ReplaceTicketPanelMessage | src/features/Ticket/ticket.js:164-192 | a missing or non-text panel channel is refused with no change; otherwise the history is replaced and the new id is stored in the config |
| Ticket.ReplaceHistory | src/features/Ticket/ticket.js:170-184 | the panel channel's history after deleting the recorded panel, the sweep, and sending and pinning the new panel |
| Ticket.PanelCommand | src/features/Ticket/ticket.js:251-266 | without a config naming panel and category nothing happens; otherwise the panel is replaced and the channel's other fields are kept |
| Ticket.OpenedMessageIsNoPanel | src/features/Ticket/ticket.js:48-54 | a ticket's opening message is never taken for a panel |
| Ticket.ButtonContract | src/features/Ticket/ticket.js:276-313 | the open and close buttons open their forms exactly when configured; only `t_` buttons act |
| Ticket.OpenContract | src/features/Ticket/ticket.js:325-335 | a ticket opens exactly when the open form of a configured guild has a non-blank complaint; its number is the counter plus one |
| Ticket.CloseContract | src/features/Ticket/ticket.js:409-420 | a ticket closes exactly when the close form of a configured guild has a non-blank reason and the channel has a record |
| Ticket.BlankInputRefused | src/features/Ticket/ticket.js:328-329 | a blank complaint or reason is refused, whatever the counter or record |
| Ticket.TicketOverwrites | src/features/Ticket/ticket.js:337-361 | the overwrites name @everyone, the opener, and the staff role exactly when set |
| Ticket.TicketPrivacy | src/features/Ticket/ticket.js:337-361 | only the opener and the staff role may view; @everyone is denied viewing; both may view, write and read history |
| Ticket.OpenTicket | src/features/Ticket/ticket.js:331-384 | counter stored; text channel `ticket-<pad(n)>` under the category with the ticket's overwrites and opening message; record stored under its id |
| Ticket.HandleModal | src/features/Ticket/ticket.js:316-443 | the form's outcome is `ModalStep` on the state before; refusals change nothing; an open creates the channel `OpenTicket` states (id, kind, name, parent, overwrites, opening message); a close deletes record and channel |
| Ticket.SuccessiveTicketsDiffer | src/features/Ticket/ticket.js:331-335 | two tickets opened in a row get consecutive numbers and different names |
| Routing.ButtonsRouted | src/features/VoiceManager/voiceManager.js:402-405 | no button is acted on by both features |
| Routing.ModalsRouted | src/features/VoiceManager/voiceManager.js:721-722 | no form the ticket feature acts on is acted on by the voice manager |
| Routing.CommandsRouted | src/features/VoiceManager/voiceManager.js:409-410 | `/ticket` is not a voice-manager command |

## Left out

- The 500 ms debounce of `upsertPanel` (`panelTimers`, `setTimeout`) is left out. Placement is modelled as the synchronous edit-or-send step.
- VoicePerms.SyncDataFromChannel: the synced allow and deny lists are fixed only up to order. The code pushes ids in the order of the overwrite cache (src/features/VoiceManager/voiceManager.js:160-175), which the model does not have. The order matters only for which 25 entries the panel pre-selects when a list is longer.
- Concurrency is left out. In join-to-create, `applyVoicePerms` and `upsertPanel` are not awaited. They are modelled as running to completion in order, after the record is stored.
- Every Discord call is modelled as succeeding. This covers overwrite edits, deletes, pins, `setUserLimit`, `setName`, `setChannel`, disconnects and message deletes. Their `.catch(() => {})` failure paths are not modelled.
- Fetch failures are modelled where the code branches on them: the history fetch of the sweep, and a missing panel or channel.
- Reply plumbing is left out: `safeReply`, `safeFollowUp`, `deferReply`, `showModal`, and all user-facing text, labels, placeholders, emojis and styles.
- Text that is only shown is left out: embed descriptions and the channel topic.
- `ensurePanelPerms` and `ensureLogPerms` are left out. They are unconditional permission writes on the ticket panel and log channels.
- `sendTicketLog` is left out. It is fire-and-forget posting to the log channel.
- `Date.now()` timestamps are left out, and so is `openedByTag`. The ticket record holds the number, the opener's id and the complaint.
- `/ticket` has no permission check in the code. Any restriction comes from the command registration, which is not part of this model.
- `src/commands/register.js` and `src/index.js` are not part of this model.
- Strs.ToLower: lower-cases ASCII letters only, so it always keeps the length. JavaScript's `toLowerCase` also maps other letters, for example the Kelvin sign to "k", and can change the length: "İ" lowers to two code units.
- VoiceRoom.RoomData: `userLimit` is always an integer. So the `Number.isInteger(...)` fallbacks on stored records and templates are not modelled. The channel's own limit is an `Option<int>`, and its fallback is modelled.
- Inheritance of category permissions by newly created channels is not modelled. A new channel starts with exactly the overwrites the code passes.
- The `!newState.guild || !newState.member` guard is not modelled. The guild and member are parameters and always present.
- Ticket.TicketOverwrites: overwrites are a map keyed by id. If the opener's id equalled the staff role's id or @everyone's id, the later entry would win. Discord ids of users and roles never coincide.
- Message order inside the sweep is not modelled. The source iterates newest first, and the model deletes oldest first. The set of deleted messages and the count are the same.

## Findings

None. `Keys.UserTplKeyCollision` shows that `user_tpl_<guild>_<user>` keys collide for ids containing `_`. Discord ids are digit strings, so the collision cannot happen in practice.
