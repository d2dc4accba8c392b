/** Workspace access settings in packages/messaging-gateway/src/registry.ts, over the config store and
    the binding store, and what keeps a locked-down workspace locked. */
module AccessLockdown {
  import opened JsText
  import opened Messaging
  import opened Wrappers
  import opened Sequences
  import opened AccessPolicy
  import opened BindingStore

  datatype State = State(config: Config, bindings: seq<Binding>)

  /** The row of the pending store that an Allow click was matched to. */
  datatype PendingRow = PendingRow(
    userId: Text, displayName: Option<Text>, username: Option<Text>, reason: PendingReason, bindingId: Option<Text>)

  datatype TelegramPatch = TelegramPatch(
    enabled: Option<bool>, supergroup: Option<Option<Text>>, accessMode: Option<PlatformMode>, owners: Option<seq<Owner>>)

  const NO_PATCH := TelegramPatch(None, None, None, None)

  /** UpdateConfig: a key of platforms may be missing, or present and undefined. */
  datatype Op =
    | Bind(binding: Binding, given: Option<PartialConfig>)
    | Remove(removal: Removal)
    | SetBindingAccess(bindingId: Text, mode: BindingMode, senders: Option<seq<Text>>)
    | SetPlatformAccessMode(platformMode: PlatformMode)
    | SetPlatformOwners(owners: seq<Owner>)
    | SeedFirstOwner(candidate: Owner)
    | AllowPendingSender(row: Option<PendingRow>, now: int)
    | SaveToken
    | BindSupergroup(supergroup: Text)
    | UnbindSupergroup
    | DisconnectTelegram
    | UpdateConfig(enabled: Option<bool>, telegram: Option<Option<TelegramConfig>>)

  /* ---- Config writes ---- */

  function TelegramOf(config: Config): TelegramConfig {
    Or(config.telegram, TelegramConfig(true, None, None, None))
  }

  function PatchTelegram(config: Config, patch: TelegramPatch, ensureEnabled: bool): Config {
    var tg := TelegramOf(config);
    config.(enabled := ensureEnabled || config.enabled,
            telegram := Some(TelegramConfig(
              Or(patch.enabled, tg.enabled), Or(patch.supergroup, tg.supergroup),
              if patch.accessMode.Some? then patch.accessMode else tg.accessMode,
              if patch.owners.Some? then patch.owners else tg.owners)))
  }

  function ModeOr(config: Config, otherwise: PlatformMode): PlatformMode {
    if config.telegram.Some? then Or(config.telegram.value.accessMode, otherwise) else otherwise
  }

  function OwnerIndex(owners: seq<Owner>, userId: Text): (i: nat)
    ensures i <= |owners| && (i < |owners| ==> owners[i].userId == userId)
    ensures forall j | 0 <= j < i :: owners[j].userId != userId
  {
    FirstIndex(owners, (o: Owner) => o.userId == userId)
  }

  /** A Map filled in order: a repeated id keeps its first position and takes the later value. */
  function PutOwner(owners: seq<Owner>, o: Owner): seq<Owner> {
    if o.userId == [] then owners
    else
      var i := OwnerIndex(owners, o.userId);
      if i < |owners| then owners[i := o] else owners + [o]
  }

  function Dedupe(owners: seq<Owner>, done: seq<Owner>): seq<Owner> {
    if owners == [] then done else Dedupe(owners[1..], PutOwner(done, owners[0]))
  }

  function DropId(ids: seq<Text>, id: Text): (r: seq<Text>)
    ensures |r| <= |ids|
    ensures forall x :: x in r <==> x in ids && x != id
  {
    if ids == [] then [] else (if ids[0] == id then [] else [ids[0]]) + DropId(ids[1..], id)
  }

  /** The elements of a Set filled in order. */
  function Distinct(ids: seq<Text>): (r: seq<Text>)
    ensures forall x :: x in r <==> x in ids
  {
    if ids == [] then [] else [ids[0]] + DropId(Distinct(ids[1..]), ids[0])
  }

  /* ---- Lock-down ---- */

  const CLOSE := NOTHING.(accessMode := Some(Inherit), allowedSenderIds := Some([]))

  predicate IsOpen(b: Binding) { b.platform == Telegram && b.config.accessMode == Open }

  /** The loop over a snapshot of the bindings. */
  function CloseOpen(snapshot: seq<Binding>, current: seq<Binding>): seq<Binding> {
    if snapshot == [] then current
    else CloseOpen(snapshot[1..], if IsOpen(snapshot[0]) then Updated(current, snapshot[0].id, CLOSE) else current)
  }

  /* ---- Operations ---- */

  function AccessPatch(mode: BindingMode, senders: Option<seq<Text>>): PartialConfig {
    NOTHING.(accessMode := Some(mode), allowedSenderIds := Some(if mode == AllowList then Or(senders, []) else []))
  }

  /** The state afterwards, and whether the call ends without an error. */
  function Apply(s: State, op: Op): (State, bool) {
    match op
    case Bind(b, given) => (s.(bindings := Bound(s.bindings, b.(config := Normalize(b.platform, given)))), true)
    case Remove(r) => (s.(bindings := Without(s.bindings, r)), true)
    case SetBindingAccess(id, mode, senders) =>
      (s.(bindings := Updated(s.bindings, id, AccessPatch(mode, senders))), IdIndex(s.bindings, id) < |s.bindings|)
    case SetPlatformAccessMode(mode) =>
      (State(PatchTelegram(s.config, NO_PATCH.(accessMode := Some(mode)), false),
             if mode == OwnerOnly then CloseOpen(s.bindings, s.bindings) else s.bindings), true)
    case SetPlatformOwners(owners) =>
      (s.(config := PatchTelegram(s.config, NO_PATCH.(owners := Some(Dedupe(owners, []))), false)), true)
    case SeedFirstOwner(candidate) =>
      (if OwnersOf(s.config, Telegram) != [] then s
       else s.(config := PatchTelegram(s.config, NO_PATCH.(accessMode := Some(ModeOr(s.config, OwnerOnly)), owners := Some([candidate])), false)), true)
    case AllowPendingSender(row, now) => AllowPending(s, row, now)
    case SaveToken => (s.(config := PatchTelegram(s.config, NO_PATCH.(enabled := Some(true)), true)), true)
    case BindSupergroup(group) =>
      (s.(config := PatchTelegram(s.config, NO_PATCH.(enabled := Some(true), supergroup := Some(Some(group))), true)), true)
    case UnbindSupergroup =>
      (if s.config.telegram.None? || s.config.telegram.value.supergroup.None? then s
       else s.(config := PatchTelegram(s.config, NO_PATCH.(supergroup := Some(None)), false)), true)
    case DisconnectTelegram =>
      (s.(config := s.config.(enabled := Or(s.config.whatsapp, false) || Or(s.config.lark, false),
                              telegram := Some(TelegramOf(s.config).(enabled := false)))), true)
    case UpdateConfig(enabled, telegram) =>
      (s.(config := s.config.(enabled := Or(enabled, s.config.enabled),
                              telegram := Or(telegram, s.config.telegram))), true)
  }

  function AllowPending(s: State, row: Option<PendingRow>, now: int): (State, bool) {
    match row
    case None => (s, false)
    case Some(r) =>
      if r.reason == NotOnBindingAllowlist then
        if r.bindingId.None? || r.bindingId.value == [] then (s, false)
        else
          var i := IdIndex(s.bindings, r.bindingId.value);
          if i == |s.bindings| then (s, false)
          else (s.(bindings := Updated(s.bindings, r.bindingId.value, AllowPatch(s.bindings[i], r.userId))), true)
      else if OwnerIndex(OwnersOf(s.config, Telegram), r.userId) < |OwnersOf(s.config, Telegram)| then (s, true)
      else (s.(config := PatchTelegram(s.config, OwnerPatch(s.config, r, now), false)), true)
  }

  function AllowPatch(b: Binding, userId: Text): PartialConfig {
    NOTHING.(accessMode := Some(AllowList), allowedSenderIds := Some(Distinct(b.config.allowedSenderIds + [userId])))
  }

  function OwnerPatch(config: Config, r: PendingRow, now: int): TelegramPatch {
    NO_PATCH.(owners := Some(OwnersOf(config, Telegram) + [Owner(r.userId, NonEmpty(r.displayName), NonEmpty(r.username), now)]),
              accessMode := Some(ModeOr(config, OwnerOnly)))
  }

  function NonEmpty(text: Option<Text>): Option<Text> { if text == Some([]) then None else text }

  /** The access mode that was chosen, if any was. */
  function ModeField(config: Config): Option<PlatformMode> {
    if config.telegram.None? then None else config.telegram.value.accessMode
  }

  /* ---- The registry ---- */

  class Registry {
    var config: Config
    const store: Store

    function View(): State
      reads this, store
    {
      State(config, store.bindings)
    }

    constructor (config: Config, store: Store)
      ensures this.config == config && this.store == store
    {
      this.config := config;
      this.store := store;
    }

    method PatchTelegramConfig(patch: TelegramPatch, ensureEnabled: bool)
      modifies this
      ensures config == PatchTelegram(old(config), patch, ensureEnabled)
    {
      var tg := TelegramConfig(true, None, None, None);
      if config.telegram.Some? { tg := config.telegram.value; }
      if patch.enabled.Some? { tg := tg.(enabled := patch.enabled.value); }
      if patch.supergroup.Some? { tg := tg.(supergroup := patch.supergroup.value); }
      if patch.accessMode.Some? { tg := tg.(accessMode := patch.accessMode); }
      if patch.owners.Some? { tg := tg.(owners := patch.owners); }
      config := config.(telegram := Some(tg));
      if ensureEnabled { config := config.(enabled := true); }
    }

    method SetAccessMode(mode: PlatformMode)
      modifies this, store
      ensures View() == Apply(old(View()), SetPlatformAccessMode(mode)).0
    {
      PatchTelegramConfig(NO_PATCH.(accessMode := Some(mode)), false);
      if mode == OwnerOnly { MigrateOpenBindingsToInherit(); }
    }

    method MigrateOpenBindingsToInherit()
      modifies store
      ensures store.bindings == CloseOpen(old(store.bindings), old(store.bindings))
    {
      var all := store.bindings;
      var i := 0;
      while i < |all|
        invariant 0 <= i <= |all|
        invariant CloseOpen(all[i..], store.bindings) == CloseOpen(all, all)
      {
        if all[i].platform == Telegram && all[i].config.accessMode == Open {
          var _ := store.UpdateBindingConfig(all[i].id, CLOSE);
        }
        i := i + 1;
      }
    }

    method SetOwners(owners: seq<Owner>)
      modifies this
      ensures View() == Apply(old(View()), SetPlatformOwners(owners)).0
    {
      var distinct: seq<Owner> := [];
      for i := 0 to |owners|
        invariant Dedupe(owners[i..], distinct) == Dedupe(owners, [])
      {
        if owners[i].userId != [] {
          var at := OwnerIndex(distinct, owners[i].userId);
          distinct := if at < |distinct| then distinct[at := owners[i]] else distinct + [owners[i]];
        }
      }
      PatchTelegramConfig(NO_PATCH.(owners := Some(distinct)), false);
    }

    method SeedOwner(candidate: Owner) returns (owners: seq<Owner>)
      modifies this
      ensures View() == Apply(old(View()), SeedFirstOwner(candidate)).0
      ensures owners == OwnersOf(config, Telegram)
      ensures if OwnersOf(old(config), Telegram) != [] then config == old(config) && owners == OwnersOf(old(config), Telegram)
              else owners == [candidate] && ModeField(config) == Some(Or(old(ModeField(config)), OwnerOnly))
    {
      owners := OwnersOf(config, Telegram);
      if owners != [] { return; }
      owners := [candidate];
      PatchTelegramConfig(NO_PATCH.(accessMode := Some(ModeOr(config, OwnerOnly)), owners := Some(owners)), false);
    }

    method SetAccess(bindingId: Text, mode: BindingMode, senders: Option<seq<Text>>) returns (ok: bool)
      modifies store
      ensures (View(), ok) == Apply(old(View()), SetBindingAccess(bindingId, mode, senders))
    {
      ok := store.UpdateBindingConfig(bindingId, AccessPatch(mode, senders));
      var i := IdIndex(old(store.bindings), bindingId);
      assert i < |old(store.bindings)| ==> old(store.bindings)[i] in old(store.bindings);
    }

    method AllowSender(row: Option<PendingRow>, now: int) returns (ok: bool)
      modifies this, store
      ensures (View(), ok) == Apply(old(View()), AllowPendingSender(row, now))
    {
      if row.None? { return false; }
      var found := row.value;
      if found.reason == NotOnBindingAllowlist {
        if found.bindingId.None? || found.bindingId.value == [] { return false; }
        var i := IdIndex(store.bindings, found.bindingId.value);
        if i == |store.bindings| { return false; }
        var _ := store.UpdateBindingConfig(found.bindingId.value, AllowPatch(store.bindings[i], found.userId));
        return true;
      }
      var existing := OwnersOf(config, Telegram);
      if OwnerIndex(existing, found.userId) < |existing| { return true; }
      PatchTelegramConfig(OwnerPatch(config, found, now), false);
      ok := true;
    }
  }

  /* ---- What locked means ---- */

  /** Telegram is owner-only and no Telegram binding is open. */
  predicate Locked(s: State) {
    && s.config.telegram.Some? && s.config.telegram.value.accessMode == Some(OwnerOnly)
    && forall b | b in s.bindings :: !IsOpen(b)
  }

  /** The calls that open a locked workspace again; each can be told from the call and the store. */
  predicate Unlocks(s: State, op: Op) {
    match op
    case Bind(b, given) =>
      b.platform == Telegram && given.Some? && (given.value.accessMode.None? || given.value.accessMode == Some(Open))
    case SetBindingAccess(id, mode, _) =>
      mode == Open && IdIndex(s.bindings, id) < |s.bindings| && s.bindings[IdIndex(s.bindings, id)].platform == Telegram
    case SetPlatformAccessMode(mode) => mode == Public
    case UpdateConfig(_, telegram) =>
      telegram.Some? && (telegram.value.None? || telegram.value.value.accessMode != Some(OwnerOnly))
    case _ => false
  }

  predicate NoneOpen(bindings: seq<Binding>) { forall b | b in bindings :: !IsOpen(b) }

  lemma {:induction false} CloseOpenNothing(snapshot: seq<Binding>, current: seq<Binding>)
    requires NoneOpen(snapshot)
    ensures CloseOpen(snapshot, current) == current
  {
    if snapshot != [] {
      assert snapshot[0] in snapshot;
      forall b | b in snapshot[1..] ensures !IsOpen(b) { assert b in snapshot; }
      CloseOpenNothing(snapshot[1..], current);
    }
  }

  /** Replacing one binding keeps the others closed, so all depends on the new one. */
  lemma {:induction false} UpdatedOpenIff(bindings: seq<Binding>, id: Text, patch: PartialConfig)
    requires NoneOpen(bindings) && patch.accessMode.Some?
    ensures NoneOpen(Updated(bindings, id, patch)) <==>
            !(patch.accessMode == Some(Open) && IdIndex(bindings, id) < |bindings|
              && bindings[IdIndex(bindings, id)].platform == Telegram)
  {
    var i := IdIndex(bindings, id);
    var updated := Updated(bindings, id, patch);
    if i < |bindings| {
      assert updated[i].config.accessMode == patch.accessMode.value;
      assert updated[i] in updated;
      forall b | b in updated && b != updated[i] ensures b in bindings {}
    }
  }

  lemma {:induction false} BoundOpenIff(bindings: seq<Binding>, b: Binding)
    requires NoneOpen(bindings)
    ensures NoneOpen(Bound(bindings, b)) <==> !IsOpen(b)
  {
    WithoutMembers(bindings, OfPlace(PlaceOf(b)));
    assert b in Bound(bindings, b);
  }

  /** A locked workspace stays locked under a call exactly when the call is not one of the four that
      open it: an explicit open, or a binding or config written without its access mode. */
  lemma {:induction false} StaysLockedIff(s: State, op: Op)
    requires Locked(s)
    ensures Locked(Apply(s, op).0) <==> !Unlocks(s, op)
  {
    match op
    case Bind(b, given) =>
      NormalizedModeIff(b.platform, given);
      BoundOpenIff(s.bindings, b.(config := Normalize(b.platform, given)));
    case Remove(r) => WithoutMembers(s.bindings, r);
    case SetBindingAccess(id, mode, senders) => UpdatedOpenIff(s.bindings, id, AccessPatch(mode, senders));
    case SetPlatformAccessMode(mode) => CloseOpenNothing(s.bindings, s.bindings);
    case AllowPendingSender(row, now) => AllowStaysLocked(s, row, now);
    case _ =>
  }

  lemma {:induction false} AllowStaysLocked(s: State, row: Option<PendingRow>, now: int)
    requires Locked(s)
    ensures Locked(AllowPending(s, row, now).0)
  {
    if row.Some? && row.value.reason == NotOnBindingAllowlist && row.value.bindingId.Some? && row.value.bindingId.value != [] {
      var i := IdIndex(s.bindings, row.value.bindingId.value);
      if i < |s.bindings| { UpdatedOpenIff(s.bindings, row.value.bindingId.value, AllowPatch(s.bindings[i], row.value.userId)); }
    }
  }

  /* ---- Locking down ---- */

  /** One of the first i bindings is open, and its id is found at k. */
  ghost predicate Hit(all: seq<Binding>, i: nat, k: nat)
    requires i <= |all|
  {
    exists j :: 0 <= j < i && IsOpen(all[j]) && IdIndex(all, all[j].id) == k
  }

  /** What the loop has done after i bindings. */
  ghost predicate ClosedUpTo(all: seq<Binding>, i: nat, current: seq<Binding>)
    requires i <= |all|
  {
    && |current| == |all|
    && forall k | 0 <= k < |all| :: current[k] == if Hit(all, i, k) then Patched(all[k], CLOSE) else all[k]
  }

  lemma {:induction false} PatchTwice(b: Binding)
    ensures Patched(Patched(b, CLOSE), CLOSE) == Patched(b, CLOSE)
  {
  }

  lemma {:induction false} SameIdsSameIndex(a: seq<Binding>, b: seq<Binding>, id: Text)
    requires |a| == |b| && forall k | 0 <= k < |a| :: a[k].id == b[k].id
    ensures IdIndex(a, id) == IdIndex(b, id)
  {
    var m, n := IdIndex(a, id), IdIndex(b, id);
    assert m < |a| ==> b[m].id == id;
    assert n < |b| ==> a[n].id == id;
  }

  lemma {:induction false} CloseStep(all: seq<Binding>, i: nat, current: seq<Binding>)
    requires i < |all| && ClosedUpTo(all, i, current)
    ensures ClosedUpTo(all, i + 1, if IsOpen(all[i]) then Updated(current, all[i].id, CLOSE) else current)
  {
    if IsOpen(all[i]) {
      SameIdsSameIndex(current, all, all[i].id);
      var m := IdIndex(all, all[i].id);
      assert m <= i;
      PatchTwice(all[m]);
      forall k | 0 <= k < |all| ensures Hit(all, i + 1, k) <==> Hit(all, i, k) || k == m { HitOneMore(all, i, k); }
    } else {
      forall k | 0 <= k < |all| ensures Hit(all, i + 1, k) <==> Hit(all, i, k) { HitOneMore(all, i, k); }
    }
  }

  lemma {:induction false} HitOneMore(all: seq<Binding>, i: nat, k: nat)
    requires i < |all|
    ensures Hit(all, i + 1, k) <==> Hit(all, i, k) || (IsOpen(all[i]) && IdIndex(all, all[i].id) == k)
  {
    if Hit(all, i, k) {
      var j :| 0 <= j < i && IsOpen(all[j]) && IdIndex(all, all[j].id) == k;
      assert 0 <= j < i + 1;
    }
    if IsOpen(all[i]) && IdIndex(all, all[i].id) == k { assert 0 <= i < i + 1; }
  }

  /** The loop sets to inherit exactly the bindings found under the id of an open one, each in place. */
  lemma {:induction false} CloseOpenAt(all: seq<Binding>, i: nat, current: seq<Binding>)
    requires i <= |all| && ClosedUpTo(all, i, current)
    ensures ClosedUpTo(all, |all|, CloseOpen(all[i..], current))
    decreases |all| - i
  {
    if i < |all| {
      CloseStep(all, i, current);
      assert all[i..][1..] == all[i + 1..];
      CloseOpenAt(all, i + 1, if IsOpen(all[i]) then Updated(current, all[i].id, CLOSE) else current);
    }
  }

  /** Every open Telegram binding is the first with its id: a file could repeat one, a new id cannot. */
  predicate Closable(bindings: seq<Binding>) {
    forall k | 0 <= k < |bindings| && IsOpen(bindings[k]) :: IdIndex(bindings, bindings[k].id) == k
  }

  /** Switching to owner-only locks a workspace exactly when every open Telegram binding is the first
      with its id; it changes the bindings found under the ids of open ones and no others. */
  lemma {:induction false} LockDownLocksIff(s: State)
    ensures var t := Apply(s, SetPlatformAccessMode(OwnerOnly)).0;
            && (Locked(t) <==> Closable(s.bindings))
            && ClosedUpTo(s.bindings, |s.bindings|, t.bindings)
            && OwnersOf(t.config, Telegram) == OwnersOf(s.config, Telegram)
  {
    var all := s.bindings;
    var t := Apply(s, SetPlatformAccessMode(OwnerOnly)).0;
    assert forall k | 0 <= k < |all| :: !Hit(all, 0, k);
    CloseOpenAt(all, 0, all);
    assert all[0..] == all;
    forall k | 0 <= k < |all| ensures IsOpen(t.bindings[k]) <==> IsOpen(all[k]) && IdIndex(all, all[k].id) != k {
      HitIff(all, k);
    }
    if Closable(all) {
      forall b | b in t.bindings ensures !IsOpen(b) {}
    } else {
      var k :| 0 <= k < |all| && IsOpen(all[k]) && IdIndex(all, all[k].id) != k;
      assert t.bindings[k] in t.bindings;
    }
  }

  /** An open binding is closed exactly when it is the first with its id. */
  lemma {:induction false} HitIff(all: seq<Binding>, k: nat)
    requires k < |all|
    ensures IsOpen(all[k]) ==> (Hit(all, |all|, k) <==> IdIndex(all, all[k].id) == k)
  {
    if Hit(all, |all|, k) {
      var j :| 0 <= j < |all| && IsOpen(all[j]) && IdIndex(all, all[j].id) == k;
      assert all[k].id == all[j].id;
    }
  }

  /** With unique ids every workspace can be locked, and exactly the open Telegram bindings change. */
  lemma {:induction false} UniqueIdsLock(s: State)
    requires UniqueIds(s.bindings)
    ensures var t := Apply(s, SetPlatformAccessMode(OwnerOnly)).0;
            && Locked(t) && UniqueIds(t.bindings) && |t.bindings| == |s.bindings|
            && forall k | 0 <= k < |s.bindings| ::
                 t.bindings[k] == if IsOpen(s.bindings[k]) then Patched(s.bindings[k], CLOSE) else s.bindings[k]
  {
    var all := s.bindings;
    LockDownLocksIff(s);
    forall k | 0 <= k < |all| ensures IdIndex(all, all[k].id) == k && (Hit(all, |all|, k) <==> IsOpen(all[k])) {
      assert IdIndex(all, all[k].id) <= k;
      if Hit(all, |all|, k) { var j :| 0 <= j < |all| && IsOpen(all[j]) && IdIndex(all, all[j].id) == k; assert j == k; }
    }
  }

  /* ---- Runs ---- */

  predicate Fresh(s: State, op: Op) {
    op.Bind? ==> op.binding.enabled && forall b | b in s.bindings :: b.id != op.binding.id
  }

  /** Every new binding has a new id. */
  predicate Legal(s: State, ops: seq<Op>)
    decreases |ops|
  {
    ops == [] || (Fresh(s, ops[0]) && Legal(Apply(s, ops[0]).0, ops[1..]))
  }

  function After(s: State, ops: seq<Op>): State
    decreases |ops|
  {
    if ops == [] then s else After(Apply(s, ops[0]).0, ops[1..])
  }

  predicate NeverUnlocks(s: State, ops: seq<Op>)
    decreases |ops|
  {
    ops == [] || (!Unlocks(s, ops[0]) && NeverUnlocks(Apply(s, ops[0]).0, ops[1..]))
  }

  lemma {:induction false} ApplyKeepsUnique(s: State, op: Op)
    requires UniqueIds(s.bindings) && Fresh(s, op)
    ensures UniqueIds(Apply(s, op).0.bindings)
  {
    match op
    case Bind(b, given) =>
      WithoutKeepsUnique(s.bindings, OfPlace(PlaceOf(b)));
      WithoutMembers(s.bindings, OfPlace(PlaceOf(b)));
      var kept := Without(s.bindings, OfPlace(PlaceOf(b)));
      forall i | 0 <= i < |kept| ensures kept[i].id != b.id { assert kept[i] in kept; }
    case Remove(r) => WithoutKeepsUnique(s.bindings, r);
    case SetBindingAccess(id, mode, senders) => UpdatedUnique(s.bindings, id, AccessPatch(mode, senders));
    case SetPlatformAccessMode(mode) => UniqueIdsLock(s);
    case AllowPendingSender(row, now) =>
      if row.Some? && row.value.bindingId.Some? && IdIndex(s.bindings, row.value.bindingId.value) < |s.bindings| {
        var i := IdIndex(s.bindings, row.value.bindingId.value);
        UpdatedUnique(s.bindings, row.value.bindingId.value, AllowPatch(s.bindings[i], row.value.userId));
      }
    case _ =>
  }

  lemma {:induction false} UpdatedUnique(bindings: seq<Binding>, id: Text, patch: PartialConfig)
    requires UniqueIds(bindings)
    ensures UniqueIds(Updated(bindings, id, patch))
  {
    if bindings != [] { UpdatedAt(bindings, id, patch, 0); }
  }

  lemma {:induction false} UniqueThroughout(s: State, ops: seq<Op>)
    requires UniqueIds(s.bindings) && Legal(s, ops)
    ensures UniqueIds(After(s, ops).bindings)
    decreases |ops|
  {
    if ops != [] {
      ApplyKeepsUnique(s, ops[0]);
      UniqueThroughout(Apply(s, ops[0]).0, ops[1..]);
    }
  }

  lemma {:induction false} LockedThroughout(s: State, ops: seq<Op>)
    requires Locked(s) && NeverUnlocks(s, ops)
    ensures Locked(After(s, ops))
    decreases |ops|
  {
    if ops != [] {
      StaysLockedIff(s, ops[0]);
      LockedThroughout(Apply(s, ops[0]).0, ops[1..]);
    }
  }

  /** Bindings made under new ids can always be locked. */
  lemma {:induction false} NewIdsAreClosable(start: State, before: seq<Op>)
    requires UniqueIds(start.bindings) && Legal(start, before)
    ensures Closable(After(start, before).bindings)
  {
    UniqueThroughout(start, before);
    UniqueIdsLock(After(start, before));
    LockDownLocksIff(After(start, before));
  }

  /** From any workspace that can be locked, locking down and then running calls none of which unlocks it leaves
      every Telegram message where it belongs: it is let through exactly when its sender is not a bot
      and either the binding inherits and the sender is an owner, or the sender is on its allow-list. */
  lemma {:induction false} LockDownHolds(start: State, later: seq<Op>, sender: Sender, place: Place)
    requires Closable(start.bindings)
    requires NeverUnlocks(Apply(start, SetPlatformAccessMode(OwnerOnly)).0, later)
    requires sender.platform == Telegram && place.platform == Telegram
    ensures var t := After(Apply(start, SetPlatformAccessMode(OwnerOnly)).0, later);
            var b := Found(t.bindings, place);
            && Locked(t)
            && (EvaluatePreBinding(sender, t.config) == Allow <==> !sender.isBot && IsOwner(t.config, sender))
            && (b.Some? ==> (EvaluateBinding(sender, t.config, b.value.config) == Allow <==>
                  !sender.isBot && ((b.value.config.accessMode == Inherit && IsOwner(t.config, sender))
                                    || (b.value.config.accessMode == AllowList && sender.userId in b.value.config.allowedSenderIds))))
  {
    LockDownLocksIff(start);
    LockedThroughout(Apply(start, SetPlatformAccessMode(OwnerOnly)).0, later);
  }

  /* ---- Allowing a pending sender ---- */

  predicate Admits(s: State, b: Binding, userId: Text) {
    EvaluateBinding(Sender(b.platform, userId, false), s.config, b.config) == Allow
  }

  /** A row turned away by one binding lets that sender into the binding found under its id and changes nothing else:
      no owner is added, and no other binding moves. */
  lemma {:induction false} AllowOnOneBinding(s: State, r: PendingRow, now: int, i: nat)
    requires i < |s.bindings| && IdIndex(s.bindings, s.bindings[i].id) == i
    requires r.reason == NotOnBindingAllowlist && r.bindingId == Some(s.bindings[i].id) && s.bindings[i].id != []
    ensures var t := AllowPending(s, Some(r), now).0;
            && t.config == s.config && |t.bindings| == |s.bindings|
            && (forall k | 0 <= k < |s.bindings| && k != i :: t.bindings[k] == s.bindings[k])
            && (forall x :: Admits(t, t.bindings[i], x) <==> x == r.userId || x in s.bindings[i].config.allowedSenderIds)
  {
    var t := AllowPending(s, Some(r), now).0;
    assert t.bindings == s.bindings[i := Patched(s.bindings[i], AllowPatch(s.bindings[i], r.userId))];
  }

  /** In a locked workspace, allowing a sender on a binding keeps everyone else it admitted exactly when
      it used an allow-list or every owner is on that list or is the sender: a binding that inherited
      is switched to its list and turns the other owners away. */
  lemma {:induction false} AllowKeepsOthersIff(s: State, r: PendingRow, now: int, i: nat)
    requires i < |s.bindings| && IdIndex(s.bindings, s.bindings[i].id) == i && Locked(s) && s.bindings[i].platform == Telegram
    requires r.reason == NotOnBindingAllowlist && r.bindingId == Some(s.bindings[i].id) && s.bindings[i].id != []
    ensures (forall x :: Admits(s, s.bindings[i], x) ==> Admits(AllowPending(s, Some(r), now).0, AllowPending(s, Some(r), now).0.bindings[i], x))
            <==> s.bindings[i].config.accessMode == AllowList
                 || forall o | o in OwnersOf(s.config, Telegram) :: o.userId == r.userId || o.userId in s.bindings[i].config.allowedSenderIds
  {
    var b := s.bindings[i];
    var t := AllowPending(s, Some(r), now).0;
    AllowOnOneBinding(s, r, now, i);
    assert b in s.bindings && !IsOpen(b);
    if b.config.accessMode == Inherit {
      if o :| o in OwnersOf(s.config, Telegram) && o.userId != r.userId && o.userId !in b.config.allowedSenderIds {
        assert Admits(s, b, o.userId) && !Admits(t, t.bindings[i], o.userId);
      }
    }
  }

  /* ---- Owners ---- */

  /** Deduplicating owners keeps the ids given, drops empty ones, and leaves each once. */
  lemma {:induction false} DedupeIsExact(owners: seq<Owner>, done: seq<Owner>)
    requires DistinctOwners(done)
    ensures DistinctOwners(Dedupe(owners, done))
    ensures forall id :: HasOwner(Dedupe(owners, done), id) <==> HasOwner(done, id) || (id != [] && HasOwner(owners, id))
  {
    if owners != [] {
      PutOwnerFacts(done, owners[0]);
      DedupeIsExact(owners[1..], PutOwner(done, owners[0]));
      forall id ensures HasOwner(owners, id) <==> owners[0].userId == id || HasOwner(owners[1..], id) {
        HasOwnerCons(owners, id);
      }
    }
  }

  predicate DistinctOwners(owners: seq<Owner>) { forall i, j | 0 <= i < j < |owners| :: owners[i].userId != owners[j].userId }

  predicate HasOwner(owners: seq<Owner>, id: Text) { exists k :: 0 <= k < |owners| && owners[k].userId == id }

  lemma {:induction false} HasOwnerCons(owners: seq<Owner>, id: Text)
    requires owners != []
    ensures HasOwner(owners, id) <==> owners[0].userId == id || HasOwner(owners[1..], id)
  {
    if HasOwner(owners, id) {
      var k :| 0 <= k < |owners| && owners[k].userId == id;
      if k > 0 { assert owners[1..][k - 1].userId == id; }
    }
    if HasOwner(owners[1..], id) {
      var k :| 0 <= k < |owners[1..]| && owners[1..][k].userId == id;
      assert owners[k + 1].userId == id;
    }
  }

  lemma {:induction false} PutOwnerFacts(owners: seq<Owner>, o: Owner)
    requires DistinctOwners(owners)
    ensures DistinctOwners(PutOwner(owners, o))
    ensures forall id :: HasOwner(PutOwner(owners, o), id) <==> HasOwner(owners, id) || (id != [] && id == o.userId)
  {
    var put := PutOwner(owners, o);
    if o.userId != [] {
      var i := OwnerIndex(owners, o.userId);
      assert put[i] == o;
      forall id ensures HasOwner(put, id) <==> HasOwner(owners, id) || id == o.userId {
        if HasOwner(owners, id) {
          var k :| 0 <= k < |owners| && owners[k].userId == id;
          assert put[k].userId == id;
        }
        if HasOwner(put, id) && id != o.userId {
          var k :| 0 <= k < |put| && put[k].userId == id;
          assert k < |owners| && owners[k].userId == id;
        }
      }
    }
  }

  /** The call was an Allow click on a sender whom the workspace, not one binding, had turned away. */
  predicate AllowsOwner(op: Op, id: Text) {
    op.AllowPendingSender? && op.row.Some? && op.row.value.reason == NotOwner && op.row.value.userId == id
  }

  /** What each call does to the owners: only four kinds change them. */
  lemma {:induction false} OwnersAfterCall(s: State, op: Op)
    ensures var before, after := OwnersOf(s.config, Telegram), OwnersOf(Apply(s, op).0.config, Telegram);
            match op
            case SetPlatformOwners(owners) =>
              DistinctOwners(after) && forall id :: HasOwner(after, id) <==> id != [] && HasOwner(owners, id)
            case AllowPendingSender(Some(row), _) =>
              if row.reason != NotOwner || HasOwner(before, row.userId) then after == before
              else |after| == |before| + 1 && before <= after && after[|before|].userId == row.userId
            case SeedFirstOwner(candidate) => after == if before == [] then [candidate] else before
            case UpdateConfig(_, Some(telegram)) =>
              after == if telegram.Some? && telegram.value.owners.Some? then telegram.value.owners.value else []
            case _ => after == before
  {
    match op
    case SetPlatformOwners(owners) => DedupeIsExact(owners, []);
    case AllowPendingSender(row, _) =>
      var owners := OwnersOf(s.config, Telegram);
      if row.Some? { assert OwnerIndex(owners, row.value.userId) < |owners| <==> HasOwner(owners, row.value.userId); }
    case _ =>
  }

  /** What each call does to the chosen access mode: a first owner makes an undecided workspace owner-only,
      and keeps one that was decided. */
  lemma {:induction false} ModeAfterCall(s: State, op: Op)
    ensures var before, after := ModeField(s.config), ModeField(Apply(s, op).0.config);
            match op
            case SetPlatformAccessMode(mode) => after == Some(mode)
            case UpdateConfig(_, Some(telegram)) => after == if telegram.Some? then telegram.value.accessMode else None
            case _ =>
              if OwnersOf(Apply(s, op).0.config, Telegram) == OwnersOf(s.config, Telegram) || op.SetPlatformOwners? then after == before
              else after == Some(if before.Some? then before.value else OwnerOnly)
  {
    OwnersAfterCall(s, op);
  }

  function Supergroup(config: Config): Option<Text> {
    if config.telegram.None? then None else config.telegram.value.supergroup
  }

  predicate TelegramOn(config: Config) { config.telegram.Some? && config.telegram.value.enabled }

  /** What each call does to the other Telegram settings: connecting turns Telegram and messaging on,
      disconnecting turns Telegram off, and messaging with it unless another platform is on; only pairing
      or forgetting a supergroup moves it. */
  lemma {:induction false} SettingsAfterCall(s: State, op: Op)
    ensures var before, after := s.config, Apply(s, op).0.config;
            match op
            case UpdateConfig(enabled, telegram) =>
              (telegram.Some? ==> after.telegram == telegram.value) && (telegram.None? ==> after.telegram == before.telegram)
              && after.enabled == if enabled.Some? then enabled.value else before.enabled
            case SaveToken => after.enabled && TelegramOn(after) && Supergroup(after) == Supergroup(before)
            case BindSupergroup(group) => after.enabled && TelegramOn(after) && Supergroup(after) == Some(group)
            case UnbindSupergroup =>
              Supergroup(after) == None && after.enabled == before.enabled && TelegramOn(after) == TelegramOn(before)
            case DisconnectTelegram =>
              && !TelegramOn(after) && Supergroup(after) == Supergroup(before)
              && (after.enabled <==> before.whatsapp == Some(true) || before.lark == Some(true))
            case _ =>
              after.enabled == before.enabled && Supergroup(after) == Supergroup(before)
              && (before.telegram.Some? ==> TelegramOn(after) == TelegramOn(before))
    ensures Apply(s, op).0.config.whatsapp == s.config.whatsapp && Apply(s, op).0.config.lark == s.config.lark
  {
  }

  predicate KeepsOwners(op: Op) { !op.SetPlatformOwners? && !(op.UpdateConfig? && op.telegram.Some?) }

  /** Unless the owners are set outright, or the config rewritten, every owner stays, in place, and exactly
      the senders of allowed rows join; nobody becomes an owner by redeeming a code. */
  lemma {:induction false} OwnersOnlyGrow(s: State, ops: seq<Op>)
    requires OwnersOf(s.config, Telegram) != [] && forall op | op in ops :: KeepsOwners(op)
    ensures var before, after := OwnersOf(s.config, Telegram), OwnersOf(After(s, ops).config, Telegram);
            && before <= after
            && forall id :: HasOwner(after, id) <==> HasOwner(before, id) || exists op :: op in ops && AllowsOwner(op, id)
    decreases |ops|
  {
    if ops != [] {
      var t := Apply(s, ops[0]).0;
      assert ops[0] in ops;
      OneMoreOwner(s, ops[0]);
      OwnersOnlyGrow(t, ops[1..]);
      forall id ensures (exists op :: op in ops && AllowsOwner(op, id))
                        <==> AllowsOwner(ops[0], id) || exists op :: op in ops[1..] && AllowsOwner(op, id) {
        AllowsCons(ops, id);
      }
    }
  }

  lemma {:induction false} AllowsCons(ops: seq<Op>, id: Text)
    requires ops != []
    ensures (exists op :: op in ops && AllowsOwner(op, id))
            <==> AllowsOwner(ops[0], id) || exists op :: op in ops[1..] && AllowsOwner(op, id)
  {
    forall op ensures op in ops <==> op == ops[0] || op in ops[1..] {}
  }

  lemma {:induction false} OneMoreOwner(s: State, op: Op)
    requires OwnersOf(s.config, Telegram) != [] && KeepsOwners(op)
    ensures var before, after := OwnersOf(s.config, Telegram), OwnersOf(Apply(s, op).0.config, Telegram);
            && before <= after
            && forall id :: HasOwner(after, id) <==> HasOwner(before, id) || AllowsOwner(op, id)
  {
    var before, after := OwnersOf(s.config, Telegram), OwnersOf(Apply(s, op).0.config, Telegram);
    OwnersAfterCall(s, op);
    if |after| == |before| + 1 {
      forall id ensures HasOwner(after, id) <==> HasOwner(before, id) || after[|before|].userId == id {
        HasOwnerLast(before, after, id);
      }
    }
  }

  lemma {:induction false} HasOwnerLast(before: seq<Owner>, after: seq<Owner>, id: Text)
    requires |after| == |before| + 1 && before <= after
    ensures HasOwner(after, id) <==> HasOwner(before, id) || after[|before|].userId == id
  {
    if HasOwner(before, id) {
      var k :| 0 <= k < |before| && before[k].userId == id;
      assert after[k].userId == id;
    }
    if HasOwner(after, id) {
      var k :| 0 <= k < |after| && after[k].userId == id;
      assert k < |before| ==> before[k].userId == id;
    }
  }

  /** The first sender to redeem a code in a workspace without owners is its owner from then on, and later
      redeemers are not; the workspace is owner-only unless another mode was chosen. */
  lemma {:induction false} FirstRedeemerOwns(s: State, candidate: Owner, ops: seq<Op>)
    requires OwnersOf(s.config, Telegram) == [] && forall op | op in ops :: KeepsOwners(op)
    ensures var t := Apply(s, SeedFirstOwner(candidate)).0; var owners := OwnersOf(After(t, ops).config, Telegram);
            && ModeField(t.config) == Some(Or(ModeField(s.config), OwnerOnly))
            && owners != [] && owners[0] == candidate
            && forall id :: HasOwner(owners, id) <==> id == candidate.userId || exists op :: op in ops && AllowsOwner(op, id)
  {
    var t := Apply(s, SeedFirstOwner(candidate)).0;
    OwnersOnlyGrow(t, ops);
    assert OwnersOf(t.config, Telegram)[0].userId == candidate.userId;
  }

  /** Setting a binding's access gives the binding found under that id this mode, and exactly this list
      when the mode uses one; everything else about it, and every other binding, stays. */
  lemma {:induction false} AccessIsSet(s: State, i: nat, mode: BindingMode, senders: Option<seq<Text>>)
    requires i < |s.bindings| && IdIndex(s.bindings, s.bindings[i].id) == i
    ensures var t := Apply(s, SetBindingAccess(s.bindings[i].id, mode, senders)).0;
            var list := if mode == AllowList && senders.Some? then senders.value else [];
            && t.config == s.config && |t.bindings| == |s.bindings|
            && (forall k | 0 <= k < |s.bindings| && k != i :: t.bindings[k] == s.bindings[k])
            && t.bindings[i].config.accessMode == mode && t.bindings[i].config.allowedSenderIds == list
            && (forall x :: mode == AllowList ==> (Admits(t, t.bindings[i], x) <==> x in list))
            && t.bindings[i].(config := s.bindings[i].config) == s.bindings[i]
  {
  }

  /** Calls about the platform leave every binding as it is, but for the lock-down. */
  predicate AboutBindings(op: Op) {
    op.Bind? || op.Remove? || op.SetBindingAccess? || op == SetPlatformAccessMode(OwnerOnly)
    || (op.AllowPendingSender? && op.row.Some? && op.row.value.reason == NotOnBindingAllowlist)
  }

  lemma {:induction false} BindingsStay(s: State, op: Op)
    ensures !AboutBindings(op) ==> Apply(s, op).0.bindings == s.bindings
    ensures AboutBindings(op) && !op.SetPlatformAccessMode? ==> Apply(s, op).0.config == s.config
  {
  }

  predicate HasBinding(s: State, id: Text) { exists b :: b in s.bindings && b.id == id }

  /** A call ends with an error exactly when the row or the binding it is about is not there; it then
      changes nothing. */
  lemma {:induction false} FailsIff(s: State, op: Op)
    ensures !Apply(s, op).1 <==>
            match op
            case AllowPendingSender(None, _) => true
            case AllowPendingSender(Some(row), _) =>
              row.reason == NotOnBindingAllowlist
              && (row.bindingId.None? || row.bindingId.value == [] || !HasBinding(s, row.bindingId.value))
            case SetBindingAccess(id, _, _) => !HasBinding(s, id)
            case _ => false
    ensures !Apply(s, op).1 ==> Apply(s, op).0 == s
  {
    match op
    case AllowPendingSender(row, _) => if row.Some? && row.value.bindingId.Some? { FoundIff(s, row.value.bindingId.value); }
    case SetBindingAccess(id, _, _) => FoundIff(s, id);
    case _ =>
  }

  lemma {:induction false} FoundIff(s: State, id: Text)
    ensures HasBinding(s, id) <==> IdIndex(s.bindings, id) < |s.bindings|
  {
    var i := IdIndex(s.bindings, id);
    if i < |s.bindings| { assert s.bindings[i] in s.bindings; }
  }
}
