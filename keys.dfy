/** The key-value store is one flat string-keyed map shared by both features.
    These are its key builders; the lemmas show that the seven key families
    never collide, which is why the model keeps one map per family. */
module Keys {
  import opened Strs

  function VcKey(id: string): string { "vc_" + id }
  function TempTemplateKey(gid: string): string { "temp_template_" + gid }
  function UserTplKey(gid: string, userId: string): string { "user_tpl_" + gid + "_" + userId }
  function GuildCfgKey(gid: string): string { "guild_cfg_" + gid }
  function TicketCfgKey(gid: string): string { "ticket_cfg_" + gid }
  function TicketDataKey(channelId: string): string { "ticket_data_" + channelId }
  function TicketCountKey(gid: string): string { "ticket_counter_" + gid }

  /** Keys built by two different builders are different, whatever the ids. */
  lemma FamiliesDisjoint(a: string, b: string, c: string)
    ensures VcKey(a) != TempTemplateKey(b) && VcKey(a) != UserTplKey(b, c) && VcKey(a) != GuildCfgKey(b)
    ensures VcKey(a) != TicketCfgKey(b) && VcKey(a) != TicketDataKey(b) && VcKey(a) != TicketCountKey(b)
    ensures TempTemplateKey(a) != UserTplKey(b, c) && TempTemplateKey(a) != GuildCfgKey(b)
    ensures TempTemplateKey(a) != TicketCfgKey(b) && TempTemplateKey(a) != TicketDataKey(b)
    ensures TempTemplateKey(a) != TicketCountKey(b)
    ensures UserTplKey(a, b) != GuildCfgKey(c) && UserTplKey(a, b) != TicketCfgKey(c)
    ensures UserTplKey(a, b) != TicketDataKey(c) && UserTplKey(a, b) != TicketCountKey(c)
    ensures GuildCfgKey(a) != TicketCfgKey(b) && GuildCfgKey(a) != TicketDataKey(b)
    ensures GuildCfgKey(a) != TicketCountKey(b)
    ensures TicketCfgKey(a) != TicketDataKey(b) && TicketCfgKey(a) != TicketCountKey(b)
    ensures TicketDataKey(a) != TicketCountKey(b)
  {
    assert VcKey(a)[0] == 'v' && TempTemplateKey(b)[0] == 't' && UserTplKey(b, c)[0] == 'u';
    assert GuildCfgKey(b)[0] == 'g' && TicketCfgKey(b)[0] == 't' && TempTemplateKey(a)[1] == 'e';
    assert TicketCfgKey(b)[1] == 'i' && TicketDataKey(b)[1] == 'i' && TicketCountKey(b)[1] == 'i';
    assert UserTplKey(a, b)[0] == 'u' && GuildCfgKey(c)[0] == 'g' && GuildCfgKey(a)[0] == 'g';
    assert TicketCfgKey(a)[7] == 'c' && TicketDataKey(b)[7] == 'd' && TicketCountKey(b)[7] == 'c';
    assert TicketCfgKey(a)[8] == 'f' && TicketCountKey(b)[8] == 'o';
    assert TicketDataKey(a)[7] == 'd';
  }

  /** Within a family, the single-id builders are injective. */
  lemma SingleIdKeysInjective(a: string, b: string)
    ensures VcKey(a) == VcKey(b) ==> a == b
    ensures TempTemplateKey(a) == TempTemplateKey(b) ==> a == b
    ensures GuildCfgKey(a) == GuildCfgKey(b) ==> a == b
    ensures TicketCfgKey(a) == TicketCfgKey(b) ==> a == b
    ensures TicketDataKey(a) == TicketDataKey(b) ==> a == b
    ensures TicketCountKey(a) == TicketCountKey(b) ==> a == b
  {
    if VcKey(a) == VcKey(b) { assert a == VcKey(a)[3..] && b == VcKey(b)[3..]; }
    if TempTemplateKey(a) == TempTemplateKey(b) { assert a == TempTemplateKey(a)[14..] && b == TempTemplateKey(b)[14..]; }
    if GuildCfgKey(a) == GuildCfgKey(b) { assert a == GuildCfgKey(a)[10..] && b == GuildCfgKey(b)[10..]; }
    if TicketCfgKey(a) == TicketCfgKey(b) { assert a == TicketCfgKey(a)[11..] && b == TicketCfgKey(b)[11..]; }
    if TicketDataKey(a) == TicketDataKey(b) { assert a == TicketDataKey(a)[12..] && b == TicketDataKey(b)[12..]; }
    if TicketCountKey(a) == TicketCountKey(b) { assert a == TicketCountKey(a)[15..] && b == TicketCountKey(b)[15..]; }
  }

  /** `user_tpl_<guild>_<user>` is injective on snowflakes (all digits): the
      first "_" after the prefix ends the guild id. */
  lemma UserTplKeyInjective(g1: string, u1: string, g2: string, u2: string)
    requires AllDigits(g1) && AllDigits(g2)
    requires UserTplKey(g1, u1) == UserTplKey(g2, u2)
    ensures g1 == g2 && u1 == u2
  {
    var k := UserTplKey(g1, u1);
    var t1 := g1 + "_" + u1;
    var t2 := g2 + "_" + u2;
    assert t1 == k[9..] && t2 == k[9..];
    assert '_' !in g1 && '_' !in g2;
    IndexOfAfter(g1, '_', u1);
    IndexOfAfter(g2, '_', u2);
    assert g1 == t1[..|g1|] && g2 == t2[..|g2|];
    assert u1 == t1[|g1| + 1..] && u2 == t2[|g2| + 1..];
  }

  /** Without that restriction two different (guild, user) pairs can share a key. */
  lemma UserTplKeyCollision()
    ensures UserTplKey("1_2", "3") == UserTplKey("1", "2_3")
  {
  }
}
