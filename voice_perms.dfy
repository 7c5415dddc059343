/** The two directions between a room record and the live channel: the
    reconciler (`applyVoicePerms`) makes the channel's Connect overwrites match
    the record, and the synchronizer (`syncDataFromChannel`) rebuilds the
    record's lock, limit, allow and deny from the channel. */
module VoicePerms {
  import opened Util
  import opened Platform
  import opened VoiceRoom

  // ---------------- one overwrite edit ----------------

  predicate Granted(o: Overwrite) {
    Connect in o.allow && Connect !in o.deny
  }

  predicate Denied(o: Overwrite) {
    Connect in o.deny && Connect !in o.allow
  }

  /** Kind of an overwrite the platform creates: @everyone is a role, any other
      id a member. */
  function NewKind(id: Id, everyone: Id): OverwriteKind {
    if id == everyone then RoleOverwrite else MemberOverwrite
  }

  /** The overwrite an edit of `id` starts from: the existing one, or an empty one. */
  function BaseOf(ow: map<Id, Overwrite>, id: Id, everyone: Id): Overwrite {
    if id in ow then ow[id] else Overwrite(NewKind(id, everyone), {}, {})
  }

  /** `{ Connect: grant }` applied to one overwrite: Connect moves to the allow
      or the deny side; every other bit and the kind stay. */
  function WithConnect(o: Overwrite, grant: bool): (r: Overwrite)
    ensures r.kind == o.kind
    ensures r.allow - {Connect} == o.allow - {Connect} && r.deny - {Connect} == o.deny - {Connect}
    ensures grant ==> Granted(r)
    ensures !grant ==> Denied(r)
  {
    if grant then o.(allow := o.allow + {Connect}, deny := o.deny - {Connect})
    else o.(allow := o.allow - {Connect}, deny := o.deny + {Connect})
  }

  /** Of two Connect edits in a row only the last one shows. */
  lemma WithConnectLastWins(o: Overwrite, g1: bool, g2: bool)
    ensures WithConnect(WithConnect(o, g1), g2) == WithConnect(o, g2)
  {
  }

  /** An overwrite already in the requested state is left as it is. */
  lemma WithConnectNoOp(o: Overwrite, grant: bool)
    requires if grant then Granted(o) else Denied(o)
    ensures WithConnect(o, grant) == o
  {
    if grant {
      assert o.allow + {Connect} == o.allow && o.deny - {Connect} == o.deny;
    } else {
      assert o.deny + {Connect} == o.deny && o.allow - {Connect} == o.allow;
    }
  }

  /** `voice.permissionOverwrites.edit(id, { Connect: grant })`. */
  function EditConnect(ow: map<Id, Overwrite>, id: Id, grant: bool, everyone: Id): map<Id, Overwrite> {
    ow[id := WithConnect(BaseOf(ow, id, everyone), grant)]
  }

  /** The same edit for every id of a list, in order. */
  function EditAll(ow: map<Id, Overwrite>, ids: seq<Id>, grant: bool, everyone: Id): map<Id, Overwrite> {
    if ids == [] then ow
    else EditConnect(EditAll(ow, ids[..|ids| - 1], grant, everyone), ids[|ids| - 1], grant, everyone)
  }

  /** After editing a list, a listed id carries the requested Connect over its
      old overwrite; any other id is as it was. */
  lemma {:induction false} EditAllAt(ow: map<Id, Overwrite>, ids: seq<Id>, grant: bool, everyone: Id, k: Id)
    ensures k in ids ==>
      (k in EditAll(ow, ids, grant, everyone)
       && EditAll(ow, ids, grant, everyone)[k] == WithConnect(BaseOf(ow, k, everyone), grant))
    ensures k !in ids ==>
      ((k in EditAll(ow, ids, grant, everyone) <==> k in ow)
       && (k in ow ==> EditAll(ow, ids, grant, everyone)[k] == ow[k]))
  {
    if ids != [] {
      var init := ids[..|ids| - 1];
      assert ids == init + [ids[|ids| - 1]];
      EditAllAt(ow, init, grant, everyone, k);
      if k in init {
        WithConnectLastWins(BaseOf(ow, k, everyone), grant, grant);
      }
    }
  }

  // ---------------- the reconciler ----------------

  /** Ids whose overwrite is deleted: managed last time, no longer wanted, and
      not @everyone. */
  function StaleIds(d: RoomData, everyone: Id): (r: set<Id>)
    ensures forall id :: id in r <==> id in d.managedPermIds && id !in Desired(d) && id != everyone
  {
    set id | id in d.managedPermIds && id !in Desired(d) && id != everyone
  }

  /** The overwrite map `applyVoicePerms` leaves behind: stale ids deleted,
      @everyone Connect from `locked`, then deny, allow, owner and mods. */
  function Reconcile(ow: map<Id, Overwrite>, everyone: Id, d: RoomData): map<Id, Overwrite> {
    var cleaned := ow - StaleIds(d, everyone);
    var withEveryone := EditConnect(cleaned, everyone, !d.locked, everyone);
    var denied := EditAll(withEveryone, d.deny, false, everyone);
    var allowed := EditAll(denied, d.allow, true, everyone);
    var owned := if d.ownerId != "" then EditConnect(allowed, d.ownerId, true, everyone) else allowed;
    EditAll(owned, d.mods, true, everyone)
  }

  /** Ids the reconciler writes an overwrite for. */
  predicate Touched(d: RoomData, everyone: Id, k: Id) {
    k == everyone || k in d.deny || k in d.allow || Winner(d, k)
  }

  /** The Connect state a touched id ends with: owner and mods win over
      everything, allow over deny, and @everyone follows `locked`. */
  function FinalGrant(d: RoomData, k: Id): bool {
    if Winner(d, k) || k in d.allow then true
    else if k in d.deny then false
    else !d.locked
  }

  /** Where every id ends after reconciliation. */
  lemma ReconcileAt(ow: map<Id, Overwrite>, everyone: Id, d: RoomData, k: Id)
    ensures Touched(d, everyone, k) ==>
      (k in Reconcile(ow, everyone, d)
       && Reconcile(ow, everyone, d)[k] == WithConnect(BaseOf(ow - StaleIds(d, everyone), k, everyone), FinalGrant(d, k)))
    ensures !Touched(d, everyone, k) && k in StaleIds(d, everyone) ==> k !in Reconcile(ow, everyone, d)
    ensures !Touched(d, everyone, k) && k !in StaleIds(d, everyone) ==>
      (k in Reconcile(ow, everyone, d) <==> k in ow) && (k in ow ==> Reconcile(ow, everyone, d)[k] == ow[k])
  {
    if Touched(d, everyone, k) {
      ReconcileTouched(ow, everyone, d, k);
    } else {
      ReconcileUntouched(ow, everyone, d, k);
    }
  }

  /** A touched id carries its base overwrite with the final Connect state. */
  lemma ReconcileTouched(ow: map<Id, Overwrite>, everyone: Id, d: RoomData, k: Id)
    requires Touched(d, everyone, k)
    ensures k in Reconcile(ow, everyone, d)
    ensures Reconcile(ow, everyone, d)[k] == WithConnect(BaseOf(ow - StaleIds(d, everyone), k, everyone), FinalGrant(d, k))
  {
    var cleaned := ow - StaleIds(d, everyone);
    var withEveryone := EditConnect(cleaned, everyone, !d.locked, everyone);
    var denied := EditAll(withEveryone, d.deny, false, everyone);
    var allowed := EditAll(denied, d.allow, true, everyone);
    var owned := if d.ownerId != "" then EditConnect(allowed, d.ownerId, true, everyone) else allowed;
    var base := BaseOf(cleaned, k, everyone);
    // the Connect state k has after each stage, if any stage wrote it yet
    var c1 := After(None, k == everyone, !d.locked);
    var c2 := After(c1, k in d.deny, false);
    var c3 := After(c2, k in d.allow, true);
    var c4 := if d.ownerId != "" then After(c3, k == d.ownerId, true) else c3;
    var c5 := After(c4, k in d.mods, true);
    EditConnectStep(cleaned, everyone, !d.locked, everyone, k, base, None);
    EditAllStep(withEveryone, d.deny, false, everyone, k, base, c1);
    EditAllStep(denied, d.allow, true, everyone, k, base, c2);
    if d.ownerId != "" {
      EditConnectStep(allowed, d.ownerId, true, everyone, k, base, c3);
    }
    EditAllStep(owned, d.mods, true, everyone, k, base, c4);
    assert c5 == Some(FinalGrant(d, k));
  }

  /** The Connect state of `k` after an edit that writes `grant` when `hit`. */
  function After(c: Option<bool>, hit: bool, grant: bool): Option<bool> {
    if hit then Some(grant) else c
  }

  /** `k`'s overwrite in `m` is `base`, untouched (`c` is `None`), or `base`
      with its Connect bit set to `c`. */
  predicate ConnectAt(m: map<Id, Overwrite>, k: Id, everyone: Id, base: Overwrite, c: Option<bool>) {
    if c.None? then BaseOf(m, k, everyone) == base else k in m && m[k] == WithConnect(base, c.value)
  }

  lemma EditConnectStep(m: map<Id, Overwrite>, id: Id, grant: bool, everyone: Id, k: Id, base: Overwrite, c: Option<bool>)
    requires ConnectAt(m, k, everyone, base, c)
    ensures ConnectAt(EditConnect(m, id, grant, everyone), k, everyone, base, After(c, k == id, grant))
  {
    if k == id && c.Some? {
      WithConnectLastWins(base, c.value, grant);
    }
  }

  lemma EditAllStep(m: map<Id, Overwrite>, ids: seq<Id>, grant: bool, everyone: Id, k: Id, base: Overwrite, c: Option<bool>)
    requires ConnectAt(m, k, everyone, base, c)
    ensures ConnectAt(EditAll(m, ids, grant, everyone), k, everyone, base, After(c, k in ids, grant))
  {
    EditAllAt(m, ids, grant, everyone, k);
    if k in ids && c.Some? {
      WithConnectLastWins(base, c.value, grant);
    }
  }

  /** An untouched id is deleted when stale and otherwise left as it was. */
  lemma ReconcileUntouched(ow: map<Id, Overwrite>, everyone: Id, d: RoomData, k: Id)
    requires !Touched(d, everyone, k)
    ensures k in StaleIds(d, everyone) ==> k !in Reconcile(ow, everyone, d)
    ensures k !in StaleIds(d, everyone) ==>
      (k in Reconcile(ow, everyone, d) <==> k in ow) && (k in ow ==> Reconcile(ow, everyone, d)[k] == ow[k])
  {
    var cleaned := ow - StaleIds(d, everyone);
    var withEveryone := EditConnect(cleaned, everyone, !d.locked, everyone);
    var denied := EditAll(withEveryone, d.deny, false, everyone);
    var allowed := EditAll(denied, d.allow, true, everyone);
    var owned := if d.ownerId != "" then EditConnect(allowed, d.ownerId, true, everyone) else allowed;
    EditAllAt(withEveryone, d.deny, false, everyone, k);
    EditAllAt(denied, d.allow, true, everyone, k);
    EditAllAt(owned, d.mods, true, everyone, k);
  }

  /** What the reconciler promises about the channel afterwards. */
  lemma ReconcileGuarantees(ow: map<Id, Overwrite>, everyone: Id, d: RoomData, k: Id)
    ensures Winner(d, k) ==> k in Reconcile(ow, everyone, d) && Granted(Reconcile(ow, everyone, d)[k])
    ensures k in d.allow ==> k in Reconcile(ow, everyone, d) && Granted(Reconcile(ow, everyone, d)[k])
    ensures k in d.deny && k !in d.allow && !Winner(d, k) ==>
      k in Reconcile(ow, everyone, d) && Denied(Reconcile(ow, everyone, d)[k])
    ensures k == everyone && k !in d.allow && k !in d.deny && !Winner(d, k) ==>
      k in Reconcile(ow, everyone, d)
      && (Denied(Reconcile(ow, everyone, d)[k]) <==> d.locked)
      && (Granted(Reconcile(ow, everyone, d)[k]) <==> !d.locked)
    ensures (k in d.managedPermIds && k != everyone && k != d.ownerId
             && k !in d.mods && k !in d.allow && k !in d.deny) ==> k !in Reconcile(ow, everyone, d)
    ensures k !in d.managedPermIds && !Touched(d, everyone, k) ==>
      (k in Reconcile(ow, everyone, d) <==> k in ow) && (k in ow ==> Reconcile(ow, everyone, d)[k] == ow[k])
    ensures k != "" && k in ow && k in Reconcile(ow, everyone, d) ==>
      var o := Reconcile(ow, everyone, d)[k];
      o.kind == ow[k].kind && o.allow - {Connect} == ow[k].allow - {Connect}
      && o.deny - {Connect} == ow[k].deny - {Connect}
  {
    ReconcileAt(ow, everyone, d, k);
  }

  /** Reconciling a second time with the record the first run produced deletes
      nothing and changes nothing. */
  lemma ReconcileIdempotent(ow: map<Id, Overwrite>, everyone: Id, d: RoomData)
    ensures StaleIds(d.(managedPermIds := Desired(d)), everyone) == {}
    ensures Reconcile(Reconcile(ow, everyone, d), everyone, d.(managedPermIds := Desired(d)))
         == Reconcile(ow, everyone, d)
  {
    var d1 := d.(managedPermIds := Desired(d));
    var r1 := Reconcile(ow, everyone, d);
    var r2 := Reconcile(r1, everyone, d1);
    assert Desired(d1) == Desired(d);
    assert StaleIds(d1, everyone) == {};
    assert r1 - StaleIds(d1, everyone) == r1;
    forall k
      ensures (k in r2 <==> k in r1) && (k in r1 ==> r2[k] == r1[k])
    {
      ReconcileAt(ow, everyone, d, k);
      ReconcileAt(r1, everyone, d1, k);
      if Touched(d, everyone, k) {
        WithConnectLastWins(BaseOf(ow - StaleIds(d, everyone), k, everyone), FinalGrant(d, k), FinalGrant(d, k));
      }
    }
    assert r2.Keys == r1.Keys;
  }

  /** `applyVoicePerms`: makes the channel's overwrites match the record and
      records the desired ids as the new managed set. */
  method ApplyVoicePerms(g: Guild, voice: Channel, data: RoomData) returns (r: RoomData)
    modifies voice`overwrites
    ensures voice.overwrites == Reconcile(old(voice.overwrites), EveryoneId(g), data)
    ensures r == data.(managedPermIds := Desired(data))
  {
    var everyone := EveryoneId(g);
    DeleteStale(voice, data, everyone);
    voice.overwrites := EditConnect(voice.overwrites, everyone, !data.locked, everyone);
    EditEach(voice, data.deny, false, everyone);
    EditEach(voice, data.allow, true, everyone);
    if data.ownerId != "" {
      voice.overwrites := EditConnect(voice.overwrites, data.ownerId, true, everyone);
    }
    EditEach(voice, data.mods, true, everyone);
    r := data.(managedPermIds := Desired(data));
  }

  /** The first loop of `applyVoicePerms`: every previously managed id that is
      no longer wanted, other than @everyone, loses its overwrite. */
  method DeleteStale(voice: Channel, data: RoomData, everyone: Id)
    modifies voice`overwrites
    ensures voice.overwrites == old(voice.overwrites) - StaleIds(data, everyone)
  {
    var previous := Uniq(data.managedPermIds);
    var desired := Desired(data);
    ghost var start := voice.overwrites;
    var i := 0;
    while i < |previous|
      invariant 0 <= i <= |previous|
      invariant voice.overwrites == start - StaleAmong(previous[..i], desired, everyone)
    {
      var id := previous[i];
      StaleAmongGrows(previous[..i], id, desired, everyone);
      assert previous[..i + 1] == previous[..i] + [id];
      if id !in desired && id != everyone {
        voice.overwrites := voice.overwrites - {id};
      }
      i := i + 1;
    }
    assert previous[..i] == previous;
    assert StaleAmong(previous, desired, everyone) == StaleIds(data, everyone);
  }

  /** The ids of a list that are no longer wanted, other than @everyone. */
  function StaleAmong(ids: seq<Id>, desired: seq<Id>, everyone: Id): set<Id> {
    set id | id in ids && id !in desired && id != everyone
  }

  lemma StaleAmongGrows(ids: seq<Id>, x: Id, desired: seq<Id>, everyone: Id)
    ensures StaleAmong(ids + [x], desired, everyone) ==
      if x !in desired && x != everyone then StaleAmong(ids, desired, everyone) + {x}
      else StaleAmong(ids, desired, everyone)
    ensures forall m: map<Id, Overwrite> :: m - StaleAmong(ids, desired, everyone) - {x} == m - (StaleAmong(ids, desired, everyone) + {x})
  {
  }

  /** One `for (const id of ids) edit(id, { Connect: grant })` loop. */
  method EditEach(voice: Channel, ids: seq<Id>, grant: bool, everyone: Id)
    modifies voice`overwrites
    ensures voice.overwrites == EditAll(old(voice.overwrites), ids, grant, everyone)
  {
    ghost var start := voice.overwrites;
    var i := 0;
    while i < |ids|
      invariant 0 <= i <= |ids|
      invariant voice.overwrites == EditAll(start, ids[..i], grant, everyone)
    {
      assert ids[..i + 1][..i] == ids[..i];
      voice.overwrites := EditConnect(voice.overwrites, ids[i], grant, everyone);
      i := i + 1;
    }
    assert ids[..i] == ids;
  }

  // ---------------- the synchronizer ----------------

  /** `locked` as read from the channel: @everyone denies Connect. */
  predicate LockedFrom(ow: map<Id, Overwrite>, everyone: Id) {
    everyone in ow && Connect in ow[everyone].deny
  }

  /** A member overwrite (not @everyone, not a role, not the owner or a mod)
      that plainly allows Connect. */
  predicate SyncAllowed(ow: map<Id, Overwrite>, everyone: Id, d: RoomData, k: Id) {
    k in ow && k != everyone && ow[k].kind != RoleOverwrite && Granted(ow[k])
    && k != d.ownerId && k !in d.mods
  }

  /** The same for one that plainly denies Connect. */
  predicate SyncDenied(ow: map<Id, Overwrite>, everyone: Id, d: RoomData, k: Id) {
    k in ow && k != everyone && ow[k].kind != RoleOverwrite && Denied(ow[k])
    && k != d.ownerId && k !in d.mods
  }

  /** `r` is `d` rebuilt from a channel with limit `limit` and overwrites `ow`:
      limit (0 when not an integer), lock, allow and deny come from the
      channel; owner, mods, persistence and panel id stay; the managed set is
      recomputed. The overwrite cache has no order the model can rely on, so
      the lists are fixed up to order. */
  ghost predicate SyncedFrom(d: RoomData, limit: Option<int>, ow: map<Id, Overwrite>, everyone: Id, r: RoomData) {
    && r.userLimit == limit.GetOr(0)
    && r.locked == LockedFrom(ow, everyone)
    && NoDup(r.allow) && NoDup(r.deny)
    && (forall k :: k in r.allow <==> SyncAllowed(ow, everyone, d, k))
    && (forall k :: k in r.deny <==> SyncDenied(ow, everyone, d, k))
    && r.managedPermIds == Desired(r)
    && r == d.(userLimit := r.userLimit, locked := r.locked, allow := r.allow,
               deny := r.deny, managedPermIds := r.managedPermIds)
  }

  /** `syncDataFromChannel`. */
  method SyncDataFromChannel(g: Guild, voice: Channel, data: RoomData) returns (r: RoomData)
    ensures SyncedFrom(data, voice.userLimit, voice.overwrites, EveryoneId(g), r)
    ensures AllowDenyDisjoint(r)
  {
    var everyone := EveryoneId(g);
    var ow := voice.overwrites;
    var limit := voice.userLimit.GetOr(0);
    var locked := everyone in ow && Connect in ow[everyone].deny;
    var allow: seq<Id> := [];
    var deny: seq<Id> := [];
    var remaining := ow.Keys;
    while remaining != {}
      invariant remaining <= ow.Keys
      invariant forall k :: k in allow <==> k in ow.Keys - remaining && SyncAllowed(ow, everyone, data, k)
      invariant forall k :: k in deny <==> k in ow.Keys - remaining && SyncDenied(ow, everyone, data, k)
      decreases remaining
    {
      var id :| id in remaining;
      remaining := remaining - {id};
      var o := ow[id];
      if id != everyone && o.kind != RoleOverwrite {
        var allowConnect := Connect in o.allow;
        var denyConnect := Connect in o.deny;
        if allowConnect && !denyConnect {
          if id != data.ownerId && id !in data.mods {
            allow := allow + [id];
          }
        } else if denyConnect && !allowConnect {
          if id != data.ownerId && id !in data.mods {
            deny := deny + [id];
          }
        }
      }
    }
    r := data.(userLimit := limit, locked := locked, allow := Uniq(allow), deny := Uniq(deny));
    r := r.(managedPermIds := Uniq(Without([r.ownerId] + r.mods + r.allow + r.deny, [""])));
  }

  /** Synchronizing and then reconciling deletes nothing and leaves every
      overwrite other than @everyone's, the owner's and the mods' exactly as
      the channel had it. */
  lemma SyncThenReconcile(d: RoomData, limit: Option<int>, ow: map<Id, Overwrite>, everyone: Id, r: RoomData, k: Id)
    requires SyncedFrom(d, limit, ow, everyone, r)
    requires k != everyone && !Winner(r, k)
    ensures StaleIds(r, everyone) == {}
    ensures k in Reconcile(ow, everyone, r) <==> k in ow
    ensures k in ow ==> Reconcile(ow, everyone, r)[k] == ow[k]
  {
    assert StaleIds(r, everyone) == {};
    assert ow - StaleIds(r, everyone) == ow;
    ReconcileAt(ow, everyone, r, k);
    if k in r.allow {
      WithConnectNoOp(ow[k], true);
    } else if k in r.deny {
      WithConnectNoOp(ow[k], false);
    }
  }
}
