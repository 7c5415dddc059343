/** The parts of Discord the two features touch: ids, channel kinds, permission
    overwrites, message components and messages as values, and a channel as the
    one mutable object whose fields the bot changes through the API. */
module Platform {
  import opened Util

  /** A snowflake, as the string discord.js hands out. */
  type Id = string

  datatype ChannelKind = GuildText | GuildVoice | GuildCategory | GuildAnnouncement | OtherKind

  /** discord.js `isTextBased()`: text and announcement channels, and voice
      channels, which carry their own chat. */
  predicate TextBased(k: ChannelKind) {
    k == GuildText || k == GuildVoice || k == GuildAnnouncement
  }

  datatype Perm = Connect | ViewChannel | SendMessages | ReadMessageHistory

  /** discord.js `ow.type`: 0 for a role, 1 for a member. */
  datatype OverwriteKind = RoleOverwrite | MemberOverwrite

  /** One permission overwrite: the bits it allows and the bits it denies. */
  datatype Overwrite = Overwrite(kind: OverwriteKind, allow: set<Perm>, deny: set<Perm>)

  datatype Component =
    | UserSelect(customId: string, minValues: nat, maxValues: nat, defaultUsers: seq<Id>)
    | Button(customId: string)

  /** A message as the bot sees it: author, text, embed titles (an embed
      without a title has ""), rows of components, and whether it is pinned. */
  datatype Message = Message(
    id: Id, authorId: Id, content: string, embedTitles: seq<string>,
    rows: seq<seq<Component>>, pinned: bool)

  /** A guild: its id and the id of its owner. */
  datatype Guild = Guild(id: Id, ownerId: Id)

  /** The @everyone role of a guild has the guild's own id. */
  function EveryoneId(g: Guild): Id {
    g.id
  }

  /** The member who triggered an interaction: `member.guild` is present
      exactly when `inGuild`, and `administrator` is the Administrator bit. */
  datatype Actor = Actor(id: Id, inGuild: bool, administrator: bool)

  predicate UniqueIds(msgs: seq<Message>) {
    forall i, j :: 0 <= i < j < |msgs| ==> msgs[i].id != msgs[j].id
  }

  function MessageIds(msgs: seq<Message>): (r: set<Id>)
    ensures forall id :: id in r <==> exists m :: m in msgs && m.id == id
  {
    set m | m in msgs :: m.id
  }

  /** `channel.messages.fetch(id)`: the message with that id, if any. */
  function FindMessage(msgs: seq<Message>, id: Id): (r: Option<Message>)
    ensures r.Some? <==> id in MessageIds(msgs)
    ensures r.Some? ==> r.value in msgs && r.value.id == id
  {
    if msgs == [] then None
    else if msgs[0].id == id then Some(msgs[0])
    else
      var r := FindMessage(msgs[1..], id);
      assert msgs == [msgs[0]] + msgs[1..];
      r
  }

  /** The history after deleting every message whose id is in `ids`. */
  function RemoveMessages(msgs: seq<Message>, ids: set<Id>): (r: seq<Message>)
    ensures forall m :: m in r <==> m in msgs && m.id !in ids
    ensures |r| <= |msgs|
    ensures UniqueIds(msgs) ==> UniqueIds(r)
  {
    if msgs == [] then []
    else
      var init := msgs[..|msgs| - 1];
      var last := msgs[|msgs| - 1];
      assert msgs == init + [last];
      var r := RemoveMessages(init, ids);
      if last.id in ids then r
      else
        assert UniqueIds(msgs) ==> last.id !in MessageIds(init);
        r + [last]
  }

  /** Two deletions in a row remove both sets of ids. */
  lemma {:induction false} RemoveMessagesTwice(msgs: seq<Message>, a: set<Id>, b: set<Id>)
    ensures RemoveMessages(RemoveMessages(msgs, a), b) == RemoveMessages(msgs, a + b)
  {
    if msgs != [] {
      var init := msgs[..|msgs| - 1];
      RemoveMessagesTwice(init, a, b);
      var last := msgs[|msgs| - 1];
      if last.id !in a {
        var r := RemoveMessages(init, a);
        assert RemoveMessages(msgs, a) == r + [last];
        assert (r + [last])[..|r + [last]| - 1] == r;
      }
    }
  }

  /** The channels among up to three possibly absent ones, as a frame. */
  function Present(a: Channel?, b: Channel?, c: Channel?): set<Channel> {
    (if a == null then {} else {a}) + (if b == null then {} else {b}) + (if c == null then {} else {c})
  }

  /** A voice or text channel, with the state the bot reads and writes. */
  class Channel {
    const id: Id
    const kind: ChannelKind
    const parentId: Option<Id>
    var name: string
    /** `channel.userLimit`; `None` when the platform reports no integer. */
    var userLimit: Option<int>
    var overwrites: map<Id, Overwrite>
    /** Ids of the members currently connected (voice channels). */
    var members: set<Id>
    /** The chat history, oldest first. */
    var messages: seq<Message>
    var deleted: bool

    constructor (id: Id, kind: ChannelKind, parentId: Option<Id>, name: string,
                 userLimit: Option<int>, overwrites: map<Id, Overwrite>)
      ensures this.id == id && this.kind == kind && this.parentId == parentId
      ensures this.name == name && this.userLimit == userLimit && this.overwrites == overwrites
      ensures members == {} && messages == [] && !deleted
    {
      this.id := id;
      this.kind := kind;
      this.parentId := parentId;
      this.name := name;
      this.userLimit := userLimit;
      this.overwrites := overwrites;
      members := {};
      messages := [];
      deleted := false;
    }
  }
}
