/** The store of recently rejected senders in packages/messaging-gateway/src/pending-senders.ts. */
module PendingSenders {
  import opened JsText
  import opened Messaging
  import opened Wrappers
  import opened Sequences

  const MAX_ENTRIES: nat := 50
  const TTL_MS: int := 7 * 24 * 60 * 60 * 1000

  datatype Input = Input(
    platform: Platform, senderId: Text, senderName: Option<Text>, senderUsername: Option<Text>,
    reason: Option<PendingReason>, bindingId: Option<Text>)

  datatype Sender = Sender(
    platform: Platform, userId: Text, displayName: Option<Text>, username: Option<Text>,
    lastAttemptAt: int, attemptCount: nat, reason: PendingReason, bindingId: Option<Text>)

  /** What tells two rows apart. */
  datatype Key = Key(platform: Platform, userId: Text, reason: PendingReason, bindingId: Option<Text>)

  function KeyOf(e: Sender): Key { Key(e.platform, e.userId, e.reason, e.bindingId) }

  function ReasonOf(input: Input): PendingReason {
    Or(input.reason, NotOwner)
  }

  /** The key an attempt is looked up by; the empty binding id is a key of its own here. */
  function SoughtKey(input: Input): Key { Key(input.platform, input.senderId, ReasonOf(input), input.bindingId) }

  /** An empty binding id is falsy, so it is not written into a row. */
  function StoredBinding(input: Input, otherwise: Option<Text>): Option<Text> {
    if input.bindingId.Some? && input.bindingId.value != [] then input.bindingId else otherwise
  }

  /** The key the attempt's row will have. */
  function StoredKey(input: Input): Key { Key(input.platform, input.senderId, ReasonOf(input), StoredBinding(input, None)) }

  function Fresh(entries: seq<Sender>, now: int): seq<Sender> {
    if entries == [] then []
    else (if entries[0].lastAttemptAt >= now - TTL_MS then [entries[0]] else []) + Fresh(entries[1..], now)
  }

  /** findIndex: the first row with the key, or the length. */
  function Find(entries: seq<Sender>, key: Key): (i: nat)
    ensures i <= |entries| && (i < |entries| ==> KeyOf(entries[i]) == key)
    ensures forall j | 0 <= j < i :: KeyOf(entries[j]) != key
  {
    FirstIndex(entries, (e: Sender) => KeyOf(e) == key)
  }

  function Merged(existing: Option<Sender>, now: int, input: Input): Sender {
    match existing
    case None =>
      Sender(input.platform, input.senderId, input.senderName, input.senderUsername, now, 1, ReasonOf(input),
             StoredBinding(input, None))
    case Some(e) =>
      e.(displayName := OrElse(input.senderName, e.displayName), username := OrElse(input.senderUsername, e.username),
         lastAttemptAt := now, attemptCount := e.attemptCount + 1, reason := ReasonOf(input),
         bindingId := StoredBinding(input, e.bindingId))
  }

  function Take<T>(s: seq<T>, n: nat): seq<T> { if |s| <= n then s else s[..n] }

  /** The row found at i is merged and moved to the front; without one a new row goes in front, and the 51st is dropped. */
  function Placed(kept: seq<Sender>, i: nat, now: int, input: Input): (r: seq<Sender>)
    ensures r != []
  {
    if i < |kept| then [Merged(Some(kept[i]), now, input)] + kept[..i] + kept[i + 1..]
    else Take([Merged(None, now, input)] + kept, MAX_ENTRIES)
  }

  function Record(entries: seq<Sender>, now: int, input: Input): (r: seq<Sender>)
    ensures r != []
  {
    var unexpired := Fresh(entries, now);
    Placed(unexpired, Find(unexpired, SoughtKey(input)), now, input)
  }

  class PendingSendersStore {
    var entries: seq<Sender>

    constructor ()
      ensures entries == []
    {
      entries := [];
    }

    method EvictExpired(now: int)
      modifies this
      ensures entries == Fresh(old(entries), now)
    {
      var unexpired := Fresh(entries, now);
      if |unexpired| != |entries| { entries := unexpired; } else { FreshAll(entries, now); }
    }

    /** splice, then unshift. */
    method MoveToFront(i: nat, merged: Sender)
      requires i < |entries|
      modifies this
      ensures entries == [merged] + old(entries)[..i] + old(entries)[i + 1..]
    {
      Assoc([merged], entries[..i], entries[i + 1..]);
      entries := entries[..i] + entries[i + 1..];
      entries := [merged] + entries;
    }

    method PutInFront(merged: Sender)
      modifies this
      ensures entries == Take([merged] + old(entries), MAX_ENTRIES)
    {
      entries := [merged] + entries;
      if |entries| > MAX_ENTRIES { entries := entries[..MAX_ENTRIES]; }
    }

    method RecordRejection(now: int, input: Input) returns (merged: Sender)
      modifies this
      ensures entries == Record(old(entries), now, input)
      ensures entries[0] == merged && merged.lastAttemptAt == now
    {
      EvictExpired(now);
      var i := Find(entries, SoughtKey(input));
      merged := Place(i, now, input);
    }

    method Place(i: nat, now: int, input: Input) returns (merged: Sender)
      modifies this
      ensures entries == Placed(old(entries), i, now, input)
      ensures entries[0] == merged && merged.lastAttemptAt == now
    {
      if i < |entries| {
        merged := Merged(Some(entries[i]), now, input);
        MoveToFront(i, merged);
      } else {
        merged := Merged(None, now, input);
        PutInFront(merged);
      }
    }

    /** What the settings page shows: a stable sort by recency of the rows under seven days old. */
    method List(now: int, platform: Option<Platform>) returns (shown: seq<Sender>)
      ensures multiset(shown) == multiset(Listed(entries, now, platform))
      ensures forall e :: e in shown <==>
                e in entries && now - e.lastAttemptAt < TTL_MS && (platform == None || platform == Some(e.platform))
      ensures ByRecency(shown) && (ByRecency(entries) ==> shown == Listed(entries, now, platform))
    {
      ListedFacts(entries, now, platform);
      SortedFacts(Listed(entries, now, platform));
      SortedOnce(Listed(entries, now, platform));
      shown := Sorted(Listed(entries, now, platform));
    }

    /** Drops every row of the sender, or those with the reason or binding asked for. */
    method Dismiss(platform: Platform, userId: Text, reason: Option<PendingReason>, bindingId: Option<Text>)
      returns (removed: bool)
      modifies this
      ensures entries == Kept(old(entries), platform, userId, reason, bindingId)
      ensures forall e :: e in entries <==>
                e in old(entries)
                && !(e.platform == platform && e.userId == userId
                     && (reason == None || reason == Some(e.reason)) && (bindingId == None || bindingId == e.bindingId))
      ensures removed <==> entries != old(entries)
    {
      var before := entries;
      KeptAll(entries, platform, userId, reason, bindingId);
      KeptMembers(entries, platform, userId, reason, bindingId);
      entries := Kept(entries, platform, userId, reason, bindingId);
      removed := |entries| != |before|;
    }
  }

  predicate Shown(e: Sender, now: int, platform: Option<Platform>) {
    now - e.lastAttemptAt < TTL_MS && (platform.Some? ==> e.platform == platform.value)
  }

  function Listed(entries: seq<Sender>, now: int, platform: Option<Platform>): seq<Sender> {
    if entries == [] then []
    else (if Shown(entries[0], now, platform) then [entries[0]] else []) + Listed(entries[1..], now, platform)
  }

  /** Before the first row that is not more recent. */
  function Inserted(e: Sender, rows: seq<Sender>): seq<Sender> {
    if rows == [] || rows[0].lastAttemptAt <= e.lastAttemptAt then [e] + rows else [rows[0]] + Inserted(e, rows[1..])
  }

  function Sorted(entries: seq<Sender>): seq<Sender> {
    if entries == [] then [] else Inserted(entries[0], Sorted(entries[1..]))
  }

  predicate ByRecency(entries: seq<Sender>) {
    forall i, j | 0 <= i < j < |entries| :: entries[i].lastAttemptAt >= entries[j].lastAttemptAt
  }

  lemma {:induction false} ListedFacts(entries: seq<Sender>, now: int, platform: Option<Platform>)
    ensures forall e :: e in Listed(entries, now, platform) <==> e in entries && Shown(e, now, platform)
    ensures ByRecency(entries) ==> ByRecency(Listed(entries, now, platform))
  {
    if entries != [] {
      ListedFacts(entries[1..], now, platform);
      var rest := Listed(entries[1..], now, platform);
      assert entries == [entries[0]] + entries[1..];
      forall i | 0 <= i < |rest| ensures rest[i] in entries[1..] { assert rest[i] in rest; }
    }
  }

  lemma {:induction false} InsertedOnce(e: Sender, rows: seq<Sender>)
    ensures multiset(Inserted(e, rows)) == multiset([e] + rows)
  {
    if rows != [] && rows[0].lastAttemptAt > e.lastAttemptAt {
      InsertedOnce(e, rows[1..]);
      assert rows == [rows[0]] + rows[1..];
    }
  }

  lemma {:induction false} SortedOnce(entries: seq<Sender>)
    ensures multiset(Sorted(entries)) == multiset(entries)
  {
    if entries != [] {
      SortedOnce(entries[1..]);
      InsertedOnce(entries[0], Sorted(entries[1..]));
      assert entries == [entries[0]] + entries[1..];
    }
  }

  lemma {:induction false} InsertedFacts(e: Sender, rows: seq<Sender>)
    ensures forall x :: x in Inserted(e, rows) <==> x == e || x in rows
    ensures ByRecency(rows) ==> ByRecency(Inserted(e, rows))
  {
    if rows != [] && rows[0].lastAttemptAt > e.lastAttemptAt {
      InsertedFacts(e, rows[1..]);
      var rest := Inserted(e, rows[1..]);
      assert rows == [rows[0]] + rows[1..];
      forall i | 0 <= i < |rest| ensures rest[i] == e || rest[i] in rows[1..] { assert rest[i] in rest; }
    }
  }

  lemma {:induction false} SortedFacts(entries: seq<Sender>)
    ensures forall x :: x in Sorted(entries) <==> x in entries
    ensures ByRecency(Sorted(entries))
    ensures ByRecency(entries) ==> Sorted(entries) == entries
  {
    if entries != [] {
      SortedFacts(entries[1..]);
      InsertedFacts(entries[0], Sorted(entries[1..]));
      assert entries == [entries[0]] + entries[1..];
    }
  }

  predicate Dismissed(e: Sender, platform: Platform, userId: Text, reason: Option<PendingReason>, bindingId: Option<Text>) {
    && e.platform == platform && e.userId == userId
    && (reason.Some? ==> e.reason == reason.value)
    && (bindingId.Some? ==> e.bindingId == bindingId)
  }

  function Kept(entries: seq<Sender>, platform: Platform, userId: Text, reason: Option<PendingReason>, bindingId: Option<Text>): seq<Sender> {
    if entries == [] then []
    else
      (if Dismissed(entries[0], platform, userId, reason, bindingId) then [] else [entries[0]])
      + Kept(entries[1..], platform, userId, reason, bindingId)
  }

  lemma {:induction false} KeptAll(entries: seq<Sender>, platform: Platform, userId: Text, reason: Option<PendingReason>, bindingId: Option<Text>)
    ensures var kept := Kept(entries, platform, userId, reason, bindingId);
            |kept| <= |entries| && (|kept| == |entries| ==> kept == entries)
  {
    if entries != [] {
      KeptAll(entries[1..], platform, userId, reason, bindingId);
      assert entries == [entries[0]] + entries[1..];
    }
  }

  lemma {:induction false} FreshAll(entries: seq<Sender>, now: int)
    ensures |Fresh(entries, now)| <= |entries|
    ensures |Fresh(entries, now)| == |entries| ==> Fresh(entries, now) == entries
  {
    if entries != [] {
      FreshAll(entries[1..], now);
      assert entries == [entries[0]] + entries[1..];
    }
  }

  /* ---- The reference: distinct keys from newest to oldest ---- */

  datatype Attempt = Attempt(at: int, input: Input)
  datatype Row = Row(key: Key, at: int)

  function RowsOf(entries: seq<Sender>): (rows: seq<Row>)
    ensures |rows| == |entries|
    ensures forall i | 0 <= i < |rows| :: rows[i] == Row(KeyOf(entries[i]), entries[i].lastAttemptAt)
  {
    seq(|entries|, i requires 0 <= i < |entries| => Row(KeyOf(entries[i]), entries[i].lastAttemptAt))
  }

  function Without(rows: seq<Row>, key: Key): seq<Row> {
    if rows == [] then [] else (if rows[0].key == key then [] else [rows[0]]) + Without(rows[1..], key)
  }

  /** Every key once, with its latest attempt, the most recent first. */
  function Latest(attempts: seq<Attempt>): seq<Row> {
    if attempts == [] then []
    else
      var last := attempts[|attempts| - 1];
      [Row(StoredKey(last.input), last.at)] + Without(Latest(attempts[..|attempts| - 1]), StoredKey(last.input))
  }

  function Recent(rows: seq<Row>, now: int): seq<Row> {
    if rows == [] then [] else (if rows[0].at >= now - TTL_MS then [rows[0]] else []) + Recent(rows[1..], now)
  }

  /** What the store should hold: the first 50 distinct keys, newest first, within seven days. */
  function Expected(attempts: seq<Attempt>, now: int): seq<Row> {
    Take(Recent(Latest(attempts), now), MAX_ENTRIES)
  }

  function Recorded(attempts: seq<Attempt>): seq<Sender> {
    if attempts == [] then []
    else
      var last := attempts[|attempts| - 1];
      Record(Recorded(attempts[..|attempts| - 1]), last.at, last.input)
  }

  predicate Ordered(rows: seq<Row>) { forall i, j | 0 <= i < j < |rows| :: rows[i].at >= rows[j].at }
  predicate UniqueKeys(rows: seq<Row>) { forall i, j | 0 <= i < j < |rows| :: rows[i].key != rows[j].key }

  predicate Nondecreasing(attempts: seq<Attempt>) {
    forall i, j | 0 <= i < j < |attempts| :: attempts[i].at <= attempts[j].at
  }

  lemma {:induction false} WithoutMembers(rows: seq<Row>, key: Key)
    ensures forall r :: r in Without(rows, key) <==> r in rows && r.key != key
  {
    if rows != [] {
      WithoutMembers(rows[1..], key);
      assert rows == [rows[0]] + rows[1..];
    }
  }

  lemma {:induction false} WithoutFacts(rows: seq<Row>, key: Key)
    ensures Ordered(rows) ==> Ordered(Without(rows, key))
    ensures UniqueKeys(rows) ==> UniqueKeys(Without(rows, key))
  {
    if rows != [] {
      var rest := Without(rows[1..], key);
      WithoutFacts(rows[1..], key);
      WithoutMembers(rows[1..], key);
      forall i | 0 <= i < |rest| ensures rest[i] in rows[1..] { assert rest[i] in rest; }
    }
  }

  /** Removing a key that occurs once, at i. */
  lemma {:induction false} WithoutAt(rows: seq<Row>, key: Key, i: nat)
    requires UniqueKeys(rows) && i <= |rows| && (i < |rows| ==> rows[i].key == key)
    requires forall j | 0 <= j < i :: rows[j].key != key
    ensures Without(rows, key) == if i < |rows| then rows[..i] + rows[i + 1..] else rows
  {
    if rows != [] {
      if i == 0 {
        WithoutAbsent(rows[1..], key);
      } else {
        WithoutAt(rows[1..], key, i - 1);
        assert rows == [rows[0]] + rows[1..];
        if i < |rows| { assert rows[..i] + rows[i + 1..] == [rows[0]] + (rows[1..][..i - 1] + rows[1..][i..]); }
      }
    }
  }

  lemma {:induction false} WithoutAbsent(rows: seq<Row>, key: Key)
    requires forall r | r in rows :: r.key != key
    ensures Without(rows, key) == rows
  {
    if rows != [] {
      WithoutAbsent(rows[1..], key);
      assert rows == [rows[0]] + rows[1..];
    }
  }

  lemma {:induction false} LatestFacts(attempts: seq<Attempt>)
    requires Nondecreasing(attempts)
    ensures Ordered(Latest(attempts)) && UniqueKeys(Latest(attempts))
    ensures forall r | r in Latest(attempts) :: attempts != [] && r.at <= attempts[|attempts| - 1].at
  {
    if attempts != [] {
      var last := attempts[|attempts| - 1];
      var before := attempts[..|attempts| - 1];
      LatestFacts(before);
      WithoutFacts(Latest(before), StoredKey(last.input));
      WithoutMembers(Latest(before), StoredKey(last.input));
      var rest := Without(Latest(before), StoredKey(last.input));
      forall i | 0 <= i < |rest| ensures rest[i] in Latest(before) && rest[i].key != StoredKey(last.input) { assert rest[i] in rest; }
    }
  }

  /** How many leading rows are recent. */
  function Cut(rows: seq<Row>, now: int): (n: nat)
    ensures n <= |rows|
  {
    if rows == [] || rows[0].at < now - TTL_MS then 0 else 1 + Cut(rows[1..], now)
  }

  /** In an ordered list the recent rows come first. */
  lemma {:induction false} RecentIsPrefix(rows: seq<Row>, now: int)
    requires Ordered(rows)
    ensures Recent(rows, now) == rows[..Cut(rows, now)]
    ensures forall i | 0 <= i < |rows| :: i < Cut(rows, now) <==> rows[i].at >= now - TTL_MS
  {
    if rows != [] {
      RecentIsPrefix(rows[1..], now);
      assert rows == [rows[0]] + rows[1..];
      if rows[0].at < now - TTL_MS { RecentNone(rows[1..], now); }
    }
  }

  lemma {:induction false} RecentNone(rows: seq<Row>, now: int)
    requires forall r | r in rows :: r.at < now - TTL_MS
    ensures Recent(rows, now) == []
  {
    if rows != [] { RecentNone(rows[1..], now); }
  }

  lemma {:induction false} FreshRows(entries: seq<Sender>, now: int)
    ensures RowsOf(Fresh(entries, now)) == Recent(RowsOf(entries), now)
  {
    if entries != [] {
      FreshRows(entries[1..], now);
      assert RowsOf(entries)[1..] == RowsOf(entries[1..]);
      var first := if entries[0].lastAttemptAt >= now - TTL_MS then [entries[0]] else [];
      assert RowsOf(first + Fresh(entries[1..], now)) == RowsOf(first) + RowsOf(Fresh(entries[1..], now));
      assert RowsOf(first) == if entries[0].lastAttemptAt >= now - TTL_MS then [RowsOf(entries)[0]] else [];
    }
  }

  lemma {:induction false} RecentCons(row: Row, rows: seq<Row>, now: int)
    ensures Recent([row] + rows, now) == (if row.at >= now - TTL_MS then [row] else []) + Recent(rows, now)
  {
    assert ([row] + rows)[1..] == rows;
  }

  lemma {:induction false} WithoutCons(row: Row, rows: seq<Row>, key: Key)
    ensures Without([row] + rows, key) == (if row.key == key then [] else [row]) + Without(rows, key)
  {
    assert ([row] + rows)[1..] == rows;
  }

  lemma {:induction false} FiltersCommute(rows: seq<Row>, now: int, key: Key)
    ensures Recent(Without(rows, key), now) == Without(Recent(rows, now), key)
  {
    if rows != [] {
      FiltersCommute(rows[1..], now, key);
      RecentCons(rows[0], Without(rows[1..], key), now);
      WithoutCons(rows[0], Recent(rows[1..], now), key);
      assert [] + Without(rows[1..], key) == Without(rows[1..], key);
      assert [] + Recent(rows[1..], now) == Recent(rows[1..], now);
      assert [] + Without(Recent(rows[1..], now), key) == Without(Recent(rows[1..], now), key);
    }
  }

  /** Expiring a store that already holds a recent prefix. */
  lemma {:induction false} RecentOfTaken(rows: seq<Row>, before: int, now: int)
    requires Ordered(rows) && before <= now
    ensures Recent(Take(Recent(rows, before), MAX_ENTRIES), now) == Take(Recent(rows, now), MAX_ENTRIES)
  {
    RecentIsPrefix(rows, before);
    RecentIsPrefix(rows, now);
    var held := Take(Recent(rows, before), MAX_ENTRIES);
    assert held == rows[..|held|];
    RecentIsPrefix(held, now);
    var m, n := Cut(held, now), Cut(rows, now);
    if m < |held| { assert held[m] == rows[m]; }
    if n < |held| { assert held[n] == rows[n]; }
    if n < |rows| && n >= Cut(rows, before) { assert rows[n] == rows[n]; }
    if Cut(rows, before) < |rows| { assert rows[Cut(rows, before)].at < now - TTL_MS; }
    assert m == if n < |held| then n else |held|;
    assert held[..m] == rows[..m];
  }

  /** A row beyond the 50th cannot matter again. */
  lemma {:induction false} TakeWithout(rows: seq<Row>, row: Row, i: nat)
    requires UniqueKeys(rows) && i <= |rows| && (i < |rows| ==> rows[i].key == row.key)
    requires forall j | 0 <= j < i :: rows[j].key != row.key
    ensures Take([row] + Without(Take(rows, MAX_ENTRIES), row.key), MAX_ENTRIES) == Take([row] + Without(rows, row.key), MAX_ENTRIES)
  {
    if |rows| > MAX_ENTRIES {
      WithoutAt(rows, row.key, i);
      WithoutAt(rows[..MAX_ENTRIES], row.key, if i < MAX_ENTRIES then i else MAX_ENTRIES);
      if i < MAX_ENTRIES { SkippedAlike(rows, row, i, MAX_ENTRIES); } else { SkippedLater(rows, row, i, MAX_ENTRIES); }
    }
  }

  lemma {:induction false} SkippedAlike(rows: seq<Row>, row: Row, i: nat, n: nat)
    requires i < n < |rows|
    ensures Take([row] + (rows[..n][..i] + rows[..n][i + 1..]), n) == Take([row] + (rows[..i] + rows[i + 1..]), n)
  {
    var a, b := [row] + (rows[..n][..i] + rows[..n][i + 1..]), [row] + (rows[..i] + rows[i + 1..]);
    assert |a| == n && |b| == |rows| && Take(a, n) == a;
    forall j | 0 <= j < n ensures a[j] == b[..n][j] {}
    assert a == b[..n];
  }

  lemma {:induction false} SkippedLater(rows: seq<Row>, row: Row, i: nat, n: nat)
    requires 0 < n <= i <= |rows| && n < |rows|
    ensures Take([row] + rows[..n], n) == Take([row] + (if i < |rows| then rows[..i] + rows[i + 1..] else rows), n)
  {
    var a, b := [row] + rows[..n], [row] + (if i < |rows| then rows[..i] + rows[i + 1..] else rows);
    forall j | 0 <= j < n ensures a[..n][j] == b[..n][j] {}
    assert a[..n] == b[..n];
  }

  function IndexOfKey(rows: seq<Row>, key: Key): (i: nat)
    ensures i <= |rows| && (i < |rows| ==> rows[i].key == key)
    ensures forall j | 0 <= j < i :: rows[j].key != key
  {
    FirstIndex(rows, (r: Row) => r.key == key)
  }

  /** A row with this key that stays when one more is put in front. */
  ghost predicate Shadowed(kept: seq<Sender>, key: Key) {
    exists i :: 0 <= i < |kept| && i < MAX_ENTRIES - 1 && KeyOf(kept[i]) == key
  }

  /** The attempt brings an empty binding id while the store shows, above its last place, that sender's
      row without a binding: it is looked up under a key no row can have, and stored under that row's key. */
  ghost predicate Shadows(entries: seq<Sender>, now: int, input: Input) {
    input.bindingId == Some([]) && Shadowed(Fresh(entries, now), StoredKey(input))
  }

  ghost predicate NoEmptyBinding(entries: seq<Sender>) { forall e | e in entries :: e.bindingId != Some([]) }

  /** One recorded rejection, on rows. */
  lemma {:induction false} RecordRows(entries: seq<Sender>, now: int, input: Input)
    requires UniqueKeys(RowsOf(entries)) && |entries| <= MAX_ENTRIES && NoEmptyBinding(entries)
    requires !Shadows(entries, now, input)
    ensures RowsOf(Record(entries, now, input)) ==
            Take([Row(StoredKey(input), now)] + Without(Recent(RowsOf(entries), now), StoredKey(input)), MAX_ENTRIES)
  {
    var kept := Fresh(entries, now);
    FreshRows(entries, now);
    FreshAll(entries, now);
    FreshSubset(entries, now);
    RecentUnique(RowsOf(entries), now);
    if input.bindingId == Some([]) {
      NeverFound(kept, input);
      UnseenRows(kept, now, input);
    } else {
      PlacedRows(kept, Find(kept, SoughtKey(input)), now, input);
    }
  }

  lemma {:induction false} NeverFound(kept: seq<Sender>, input: Input)
    requires NoEmptyBinding(kept) && input.bindingId == Some([])
    ensures Find(kept, SoughtKey(input)) == |kept|
  {
    forall i | 0 <= i < |kept| ensures KeyOf(kept[i]) != SoughtKey(input) { assert kept[i] in kept; }
  }

  /** An attempt put in front without a lookup; only the row in last place can have its key. */
  lemma {:induction false} UnseenRows(kept: seq<Sender>, now: int, input: Input)
    requires UniqueKeys(RowsOf(kept)) && |kept| <= MAX_ENTRIES && !Shadowed(kept, StoredKey(input))
    ensures RowsOf(Placed(kept, |kept|, now, input)) ==
            Take([Row(StoredKey(input), now)] + Without(RowsOf(kept), StoredKey(input)), MAX_ENTRIES)
  {
    var key := StoredKey(input);
    var i := IndexOfKey(RowsOf(kept), key);
    RecordNew(kept, now, input);
    assert i < |kept| ==> i == MAX_ENTRIES - 1;
    LastOrNone(RowsOf(kept), Row(key, now), i);
  }

  lemma {:induction false} LastOrNone(rows: seq<Row>, row: Row, i: nat)
    requires UniqueKeys(rows) && i <= |rows| && (i < |rows| ==> rows[i].key == row.key && i == MAX_ENTRIES - 1)
    requires forall j | 0 <= j < i :: rows[j].key != row.key
    ensures Take([row] + rows, MAX_ENTRIES) == Take([row] + Without(rows, row.key), MAX_ENTRIES)
  {
    WithoutAt(rows, row.key, i);
    if i < |rows| { LastDoesNotMatter(rows, row, i, MAX_ENTRIES); }
  }

  lemma {:induction false} LastDoesNotMatter(rows: seq<Row>, row: Row, i: nat, n: nat)
    requires i < |rows| && n == i + 1
    ensures Take([row] + rows, n) == Take([row] + (rows[..i] + rows[i + 1..]), n)
  {
    var a, b := [row] + rows, [row] + (rows[..i] + rows[i + 1..]);
    assert |b| >= n;
    assert a[..n] == [row] + rows[..i] && b[..n] == [row] + rows[..i];
    if |b| == n { assert b[..n] == b; }
  }

  lemma {:induction false} PlacedRows(kept: seq<Sender>, i: nat, now: int, input: Input)
    requires UniqueKeys(RowsOf(kept)) && |kept| <= MAX_ENTRIES && input.bindingId != Some([])
    requires i <= |kept| && (i < |kept| ==> KeyOf(kept[i]) == StoredKey(input))
    requires forall j | 0 <= j < i :: KeyOf(kept[j]) != StoredKey(input)
    ensures RowsOf(Placed(kept, i, now, input)) ==
            Take([Row(StoredKey(input), now)] + Without(RowsOf(kept), StoredKey(input)), MAX_ENTRIES)
  {
    WithoutAt(RowsOf(kept), StoredKey(input), i);
    if i < |kept| {
      RecordFound(kept, i, now, input);
      assert |RowsOf(kept)[..i] + RowsOf(kept)[i + 1..]| == |kept| - 1;
    } else {
      RecordNew(kept, now, input);
    }
  }

  lemma {:induction false} RecordFound(kept: seq<Sender>, i: nat, now: int, input: Input)
    requires i < |kept| && KeyOf(kept[i]) == StoredKey(input) && input.bindingId != Some([])
    ensures RowsOf([Merged(Some(kept[i]), now, input)] + kept[..i] + kept[i + 1..])
            == [Row(StoredKey(input), now)] + (RowsOf(kept)[..i] + RowsOf(kept)[i + 1..])
  {
    assert KeyOf(Merged(Some(kept[i]), now, input)) == StoredKey(input);
  }

  lemma {:induction false} RecordNew(kept: seq<Sender>, now: int, input: Input)
    ensures RowsOf(Take([Merged(None, now, input)] + kept, MAX_ENTRIES))
            == Take([Row(StoredKey(input), now)] + RowsOf(kept), MAX_ENTRIES)
  {
    assert KeyOf(Merged(None, now, input)) == StoredKey(input);
  }

  lemma {:induction false} RecentUnique(rows: seq<Row>, now: int)
    ensures UniqueKeys(rows) ==> UniqueKeys(Recent(rows, now))
    ensures forall r | r in Recent(rows, now) :: r in rows
  {
    if rows != [] {
      RecentUnique(rows[1..], now);
      var rest := Recent(rows[1..], now);
      assert rows == [rows[0]] + rows[1..];
      forall i | 0 <= i < |rest| ensures rest[i] in rows[1..] { assert rest[i] in rest; }
    }
  }

  /* ---- Main results ---- */

  lemma {:induction false} RecordedPrefix(attempts: seq<Attempt>, n: nat)
    requires n < |attempts|
    ensures Recorded(attempts[..n + 1]) == Record(Recorded(attempts[..n]), attempts[n].at, attempts[n].input)
  {
    assert attempts[..n + 1][..n] == attempts[..n];
  }

  lemma {:induction false} RecordedNamesBindings(attempts: seq<Attempt>)
    ensures NoEmptyBinding(Recorded(attempts))
    decreases |attempts|
  {
    if attempts != [] {
      var last := attempts[|attempts| - 1];
      var before := Recorded(attempts[..|attempts| - 1]);
      RecordedNamesBindings(attempts[..|attempts| - 1]);
      FreshSubset(before, last.at);
      PlacedNamesBindings(Fresh(before, last.at), Find(Fresh(before, last.at), SoughtKey(last.input)), last.at, last.input);
    }
  }

  lemma {:induction false} PlacedNamesBindings(kept: seq<Sender>, i: nat, now: int, input: Input)
    requires NoEmptyBinding(kept)
    ensures NoEmptyBinding(Placed(kept, i, now, input))
  {
    if i < |kept| { assert kept[i] in kept; }
    var placed := Placed(kept, i, now, input);
    forall k | 0 <= k < |placed| ensures placed[k].bindingId != Some([]) {
      if k > 0 { assert placed[k] in kept; }
    }
  }

  /** At no call does an attempt shadow a row of the store. */
  ghost predicate NeverShadows(attempts: seq<Attempt>) {
    forall n | 0 <= n < |attempts| :: !Shadows(Recorded(attempts[..n]), attempts[n].at, attempts[n].input)
  }

  /** The store holds exactly the first 50 distinct keys read from the newest attempt to the oldest,
      restricted to seven days. */
  predicate HoldsTheMostRecent(attempts: seq<Attempt>)
    requires attempts != []
  {
    RowsOf(Recorded(attempts)) == Expected(attempts, attempts[|attempts| - 1].at)
  }

  /** One attempt that does not shadow a row, on a store that shows the most recent of these rows. */
  lemma {:induction false} RecordsTheMostRecent(store: seq<Sender>, rows: seq<Row>, last: Attempt)
    requires UniqueKeys(RowsOf(store)) && |store| <= MAX_ENTRIES && NoEmptyBinding(store)
    requires !Shadows(store, last.at, last.input) && UniqueKeys(rows)
    requires Recent(RowsOf(store), last.at) == Take(Recent(rows, last.at), MAX_ENTRIES)
    ensures var row := Row(StoredKey(last.input), last.at);
            RowsOf(Record(store, last.at, last.input)) == Take(Recent([row] + Without(rows, row.key), last.at), MAX_ENTRIES)
  {
    var row := Row(StoredKey(last.input), last.at);
    RecordRows(store, last.at, last.input);
    RecentUnique(rows, last.at);
    TakeWithout(Recent(rows, last.at), row, IndexOfKey(Recent(rows, last.at), row.key));
    FiltersCommute(rows, last.at, row.key);
    RecentCons(row, Without(rows, row.key), last.at);
  }

  /** After every run of rejections none of which shadows a row, the store holds the most recent;
      keys are unique, newest first. */
  lemma {:induction false} StoreHoldsTheMostRecent(attempts: seq<Attempt>)
    requires attempts != [] && Nondecreasing(attempts) && NeverShadows(attempts)
    ensures HoldsTheMostRecent(attempts)
    ensures Ordered(RowsOf(Recorded(attempts))) && UniqueKeys(RowsOf(Recorded(attempts)))
    ensures |Recorded(attempts)| <= MAX_ENTRIES
    decreases |attempts|
  {
    var n := |attempts| - 1;
    NeverShadowsBefore(attempts, n);
    if n > 0 { StoreHoldsTheMostRecent(attempts[..n]); }
    LatestFacts(attempts[..n]);
    RecordedNamesBindings(attempts[..n]);
    HeldLater(attempts[..n], attempts[n].at);
    RecordsTheMostRecent(Recorded(attempts[..n]), Latest(attempts[..n]), attempts[n]);
    ExpectedIsPrefix(attempts, attempts[n].at);
  }

  /** What a store that holds the most recent still shows at a later time. */
  lemma {:induction false} HeldLater(attempts: seq<Attempt>, now: int)
    requires Nondecreasing(attempts)
    requires attempts != [] ==> HoldsTheMostRecent(attempts) && attempts[|attempts| - 1].at <= now
    ensures Recent(RowsOf(Recorded(attempts)), now) == Take(Recent(Latest(attempts), now), MAX_ENTRIES)
  {
    LatestFacts(attempts);
    if attempts == [] {
      assert RowsOf(Recorded(attempts)) == [];
    } else {
      RecentOfTaken(Latest(attempts), attempts[|attempts| - 1].at, now);
    }
  }

  lemma {:induction false} NeverShadowsBefore(attempts: seq<Attempt>, n: nat)
    requires NeverShadows(attempts) && n <= |attempts|
    ensures NeverShadows(attempts[..n])
  {
    var early := attempts[..n];
    forall m | 0 <= m < n ensures !Shadows(Recorded(early[..m]), early[m].at, early[m].input) {
      assert early[..m] == attempts[..m];
    }
  }

  /** Throughout a run the store holds the most recent exactly when no attempt shadows a row. */
  lemma {:induction false} HoldsThroughoutIff(attempts: seq<Attempt>)
    requires Nondecreasing(attempts)
    ensures (forall n | 0 < n <= |attempts| :: HoldsTheMostRecent(attempts[..n])) <==> NeverShadows(attempts)
  {
    if NeverShadows(attempts) {
      forall n | 0 < n <= |attempts| ensures HoldsTheMostRecent(attempts[..n]) { HoldsAt(attempts, n); }
    } else {
      var n :| 0 <= n < |attempts| && Shadows(Recorded(attempts[..n]), attempts[n].at, attempts[n].input);
      if n == 0 || HoldsTheMostRecent(attempts[..n]) { ShadowingBreaks(attempts, n); }
    }
  }

  lemma {:induction false} HoldsAt(attempts: seq<Attempt>, n: nat)
    requires Nondecreasing(attempts) && NeverShadows(attempts) && 0 < n <= |attempts|
    ensures HoldsTheMostRecent(attempts[..n])
  {
    NeverShadowsBefore(attempts, n);
    StoreHoldsTheMostRecent(attempts[..n]);
  }

  lemma {:induction false} HeldIsUnique(attempts: seq<Attempt>)
    requires Nondecreasing(attempts) && (attempts != [] ==> HoldsTheMostRecent(attempts))
    ensures UniqueKeys(RowsOf(Recorded(attempts))) && |Recorded(attempts)| <= MAX_ENTRIES
  {
    if attempts != [] { ExpectedIsPrefix(attempts, attempts[|attempts| - 1].at); }
  }

  lemma {:induction false} ShadowingBreaks(attempts: seq<Attempt>, n: nat)
    requires Nondecreasing(attempts) && n < |attempts|
    requires n == 0 || HoldsTheMostRecent(attempts[..n])
    requires Shadows(Recorded(attempts[..n]), attempts[n].at, attempts[n].input)
    ensures !HoldsTheMostRecent(attempts[..n + 1])
  {
    HeldIsUnique(attempts[..n]);
    RecordedNamesBindings(attempts[..n]);
    RecordedPrefix(attempts, n);
    KeepsKeysUniqueIff(Recorded(attempts[..n]), attempts[n].at, attempts[n].input);
    if HoldsTheMostRecent(attempts[..n + 1]) { HeldIsUnique(attempts[..n + 1]); }
  }

  lemma {:induction false} ExpectedIsPrefix(attempts: seq<Attempt>, now: int)
    requires Nondecreasing(attempts)
    ensures Expected(attempts, now) <= Latest(attempts) && |Expected(attempts, now)| <= MAX_ENTRIES
    ensures Ordered(Expected(attempts, now)) && UniqueKeys(Expected(attempts, now))
  {
    LatestFacts(attempts);
    RecentIsPrefix(Latest(attempts), now);
  }

  /** One attempt keeps the keys unique exactly when it does not shadow a row. */
  lemma {:induction false} KeepsKeysUniqueIff(entries: seq<Sender>, now: int, input: Input)
    requires UniqueKeys(RowsOf(entries)) && |entries| <= MAX_ENTRIES && NoEmptyBinding(entries)
    ensures UniqueKeys(RowsOf(Record(entries, now, input))) <==> !Shadows(entries, now, input)
  {
    FreshRows(entries, now);
    RecentUnique(RowsOf(entries), now);
    if Shadows(entries, now, input) {
      FreshSubset(entries, now);
      NeverFound(Fresh(entries, now), input);
      FrontUniqueIff(Merged(None, now, input), Fresh(entries, now));
    } else {
      RecordRows(entries, now, input);
      ReplacedUnique(Recent(RowsOf(entries), now), StoredKey(input), now);
    }
  }

  lemma {:induction false} FrontUniqueIff(m: Sender, kept: seq<Sender>)
    requires UniqueKeys(RowsOf(kept))
    ensures UniqueKeys(RowsOf(Take([m] + kept, MAX_ENTRIES))) <==> !Shadowed(kept, KeyOf(m))
  {
    var stored := Take([m] + kept, MAX_ENTRIES);
    var rows := RowsOf(stored);
    if Shadowed(kept, KeyOf(m)) {
      var i :| 0 <= i < |kept| && i < MAX_ENTRIES - 1 && KeyOf(kept[i]) == KeyOf(m);
      assert stored[i + 1] == kept[i];
      assert rows[0].key == rows[i + 1].key;
    } else {
      forall i, j | 0 <= i < j < |rows| ensures rows[i].key != rows[j].key {
        assert stored[j] == kept[j - 1];
        if i > 0 {
          assert stored[i] == kept[i - 1];
          assert RowsOf(kept)[i - 1].key != RowsOf(kept)[j - 1].key;
        }
      }
    }
  }

  lemma {:induction false} ReplacedUnique(rows: seq<Row>, key: Key, now: int)
    requires UniqueKeys(rows)
    ensures UniqueKeys(Take([Row(key, now)] + Without(rows, key), MAX_ENTRIES))
  {
    WithoutFacts(rows, key);
    WithoutMembers(rows, key);
    var rest := Without(rows, key);
    forall i | 0 <= i < |rest| ensures rest[i].key != key { assert rest[i] in rest; }
  }

  lemma {:induction false} FreshSubset(entries: seq<Sender>, now: int)
    ensures forall e | e in Fresh(entries, now) :: e in entries
  {
    if entries != [] { FreshSubset(entries[1..], now); }
  }

  /** Two attempts with an empty binding id leave two rows that no key tells apart. */
  lemma {:induction false} EmptyBindingDuplicates()
    ensures exists first: Input, second: Input ::
              && first.bindingId == second.bindingId == Some([])
              && !UniqueKeys(RowsOf(Recorded([Attempt(0, first), Attempt(0, second)])))
  {
    var input := Input(Telegram, [55], None, None, None, Some([]));
    var attempts := [Attempt(0, input), Attempt(0, input)];
    assert attempts[..1] == [Attempt(0, input)] && attempts[..1][..0] == [];
    var m := Merged(None, 0, input);
    assert Recorded(attempts[..1]) == Record([], 0, input) == [m];
    assert Fresh([m], 0) == [m] + Fresh([m][1..], 0) == [m];
    assert Find([m], SoughtKey(input)) == 1;
    assert Recorded(attempts) == [m, m];
    assert RowsOf([m, m])[0].key == RowsOf([m, m])[1].key;
  }

  /** Dismissing removes exactly the rows asked for, and leaves the rest unique and in order. */
  lemma {:induction false} DismissIsExact(
      entries: seq<Sender>, platform: Platform, userId: Text, reason: Option<PendingReason>, bindingId: Option<Text>)
    ensures var kept := Kept(entries, platform, userId, reason, bindingId);
            && (forall e :: e in kept <==>
                  e in entries
                  && (e.platform != platform || e.userId != userId
                      || (reason.Some? && reason.value != e.reason) || (bindingId.Some? && bindingId != e.bindingId)))
            && (UniqueKeys(RowsOf(entries)) ==> UniqueKeys(RowsOf(kept)))
            && (Ordered(RowsOf(entries)) ==> Ordered(RowsOf(kept)))
  {
    KeptMembers(entries, platform, userId, reason, bindingId);
    KeptOrder(entries, platform, userId, reason, bindingId);
  }

  lemma {:induction false} KeptMembers(
      entries: seq<Sender>, platform: Platform, userId: Text, reason: Option<PendingReason>, bindingId: Option<Text>)
    ensures var kept := Kept(entries, platform, userId, reason, bindingId);
            forall e :: e in kept <==> e in entries && !Dismissed(e, platform, userId, reason, bindingId)
  {
    if entries != [] {
      KeptMembers(entries[1..], platform, userId, reason, bindingId);
      assert entries == [entries[0]] + entries[1..];
    }
  }

  lemma {:induction false} KeptSubset(
      entries: seq<Sender>, platform: Platform, userId: Text, reason: Option<PendingReason>, bindingId: Option<Text>)
    ensures forall e | e in Kept(entries, platform, userId, reason, bindingId) :: e in entries
  {
    KeptMembers(entries, platform, userId, reason, bindingId);
  }

  lemma {:induction false} KeptOrder(
      entries: seq<Sender>, platform: Platform, userId: Text, reason: Option<PendingReason>, bindingId: Option<Text>)
    ensures var kept := Kept(entries, platform, userId, reason, bindingId);
            && (UniqueKeys(RowsOf(entries)) ==> UniqueKeys(RowsOf(kept)))
            && (Ordered(RowsOf(entries)) ==> Ordered(RowsOf(kept)))
  {
    if entries != [] {
      var rest := Kept(entries[1..], platform, userId, reason, bindingId);
      KeptOrder(entries[1..], platform, userId, reason, bindingId);
      KeptSubset(entries[1..], platform, userId, reason, bindingId);
      FrontRows(entries[0], entries[1..], rest);
      assert [entries[0]] + entries[1..] == entries;
      KeptStep(entries, platform, userId, reason, bindingId);
    }
  }

  lemma {:induction false} KeptStep(
      entries: seq<Sender>, platform: Platform, userId: Text, reason: Option<PendingReason>, bindingId: Option<Text>)
    requires entries != []
    ensures var rest := Kept(entries[1..], platform, userId, reason, bindingId);
            Kept(entries, platform, userId, reason, bindingId) == rest
            || Kept(entries, platform, userId, reason, bindingId) == [entries[0]] + rest
  {
    assert [] + Kept(entries[1..], platform, userId, reason, bindingId) == Kept(entries[1..], platform, userId, reason, bindingId);
  }

  lemma {:induction false} FrontRows(first: Sender, all: seq<Sender>, rest: seq<Sender>)
    requires forall e | e in rest :: e in all
    ensures UniqueKeys(RowsOf([first] + all)) ==> UniqueKeys(RowsOf(all))
    ensures UniqueKeys(RowsOf([first] + all)) && UniqueKeys(RowsOf(rest)) ==> UniqueKeys(RowsOf([first] + rest))
    ensures Ordered(RowsOf([first] + all)) ==> Ordered(RowsOf(all))
    ensures Ordered(RowsOf([first] + all)) && Ordered(RowsOf(rest)) ==> Ordered(RowsOf([first] + rest))
  {
    forall r | r in RowsOf(rest) ensures r in RowsOf(all) {
      var i :| 0 <= i < |rest| && RowsOf(rest)[i] == r;
      assert rest[i] in all;
      var k :| 0 <= k < |all| && all[k] == rest[i];
      assert RowsOf(all)[k] == r;
    }
    var row := RowsOf([first])[0];
    assert RowsOf([first] + all) == [row] + RowsOf(all);
    assert RowsOf([first] + rest) == [row] + RowsOf(rest);
    FrontUnique(row, RowsOf(all), RowsOf(rest));
    FrontOrdered(row, RowsOf(all), RowsOf(rest));
  }

  lemma {:induction false} FrontUnique(row: Row, all: seq<Row>, rest: seq<Row>)
    requires forall r | r in rest :: r in all
    ensures UniqueKeys([row] + all) ==> UniqueKeys(all)
    ensures UniqueKeys([row] + all) && UniqueKeys(rest) ==> UniqueKeys([row] + rest)
  {
    if UniqueKeys([row] + all) {
      assert all == ([row] + all)[1..];
      forall i | 0 <= i < |rest| ensures rest[i].key != row.key {
        assert rest[i] in all;
        var k :| 0 <= k < |all| && all[k] == rest[i];
        assert ([row] + all)[0].key != ([row] + all)[k + 1].key;
      }
    }
  }

  lemma {:induction false} FrontOrdered(row: Row, all: seq<Row>, rest: seq<Row>)
    requires forall r | r in rest :: r in all
    ensures Ordered([row] + all) ==> Ordered(all)
    ensures Ordered([row] + all) && Ordered(rest) ==> Ordered([row] + rest)
  {
    if Ordered([row] + all) {
      assert all == ([row] + all)[1..];
      forall i | 0 <= i < |rest| ensures row.at >= rest[i].at {
        assert rest[i] in all;
        var k :| 0 <= k < |all| && all[k] == rest[i];
        assert ([row] + all)[0].at >= ([row] + all)[k + 1].at;
      }
    }
  }

  /* ---- What a row says about its sender ---- */

  /** The attempts behind the row with this key, since the last of them that found no row. */
  function Streak(attempts: seq<Attempt>, key: Key): seq<Input> {
    if attempts == [] then []
    else
      var before, last := attempts[..|attempts| - 1], attempts[|attempts| - 1];
      if StoredKey(last.input) != key then Streak(before, key)
      else (if Has(Fresh(Recorded(before), last.at), SoughtKey(last.input)) then Streak(before, key) else []) + [last.input]
  }

  predicate Has(entries: seq<Sender>, key: Key) { exists k :: 0 <= k < |entries| && KeyOf(entries[k]) == key }

  /** The latest name given, if any was. */
  function LastName(inputs: seq<Input>): Option<Text> {
    if inputs == [] then None
    else if inputs[|inputs| - 1].senderName.Some? then inputs[|inputs| - 1].senderName
    else LastName(inputs[..|inputs| - 1])
  }

  function LastUsername(inputs: seq<Input>): Option<Text> {
    if inputs == [] then None
    else if inputs[|inputs| - 1].senderUsername.Some? then inputs[|inputs| - 1].senderUsername
    else LastUsername(inputs[..|inputs| - 1])
  }

  predicate Tells(e: Sender, inputs: seq<Input>) {
    e.attemptCount == |inputs| && e.displayName == LastName(inputs) && e.username == LastUsername(inputs)
  }

  lemma {:induction false} MergedTells(existing: Option<Sender>, now: int, input: Input, inputs: seq<Input>)
    requires existing.Some? ==> Tells(existing.value, inputs)
    requires existing.None? ==> inputs == []
    ensures Tells(Merged(existing, now, input), inputs + [input])
  {
    assert (inputs + [input])[..|inputs + [input]| - 1] == inputs;
  }

  /** The row of the latest attempt has the key it is stored under. */
  lemma {:induction false} FrontKey(kept: seq<Sender>, now: int, input: Input)
    requires NoEmptyBinding(kept)
    ensures var i := Find(kept, SoughtKey(input)); var placed := Placed(kept, i, now, input);
            && KeyOf(placed[0]) == StoredKey(input)
            && (i < |kept| <==> Has(kept, SoughtKey(input)))
            && (i < |kept| ==> KeyOf(kept[i]) == StoredKey(input))
            && forall e | e in placed :: e == placed[0] || e in kept
  {
    var i := Find(kept, SoughtKey(input));
    if i < |kept| { assert kept[i] in kept; }
    if k :| 0 <= k < |kept| && KeyOf(kept[k]) == SoughtKey(input) { assert i <= k; }
  }

  lemma {:induction false} FrontTells(kept: seq<Sender>, now: int, input: Input, inputs: seq<Input>)
    requires NoEmptyBinding(kept)
    requires forall e | e in kept && KeyOf(e) == StoredKey(input) :: Tells(e, inputs)
    ensures Tells(Placed(kept, Find(kept, SoughtKey(input)), now, input)[0],
                  (if Has(kept, SoughtKey(input)) then inputs else []) + [input])
  {
    FrontKey(kept, now, input);
    var i := Find(kept, SoughtKey(input));
    if i < |kept| {
      assert kept[i] in kept;
      MergedTells(Some(kept[i]), now, input, inputs);
    } else {
      MergedTells(None, now, input, []);
    }
  }

  /** In every run that shadows no row, each row counts the attempts under its key since it was put into
      the store, and shows the latest display name and username that any of them gave. */
  lemma {:induction false} RowsTellTheirAttempts(attempts: seq<Attempt>)
    requires Nondecreasing(attempts) && NeverShadows(attempts)
    ensures forall e | e in Recorded(attempts) :: Tells(e, Streak(attempts, KeyOf(e)))
    decreases |attempts|
  {
    if attempts != [] {
      var n := |attempts| - 1;
      var before, last := attempts[..n], attempts[n];
      var kept := Fresh(Recorded(before), last.at);
      NeverShadowsBefore(attempts, n);
      RowsTellTheirAttempts(before);
      FreshSubset(Recorded(before), last.at);
      RecordedNamesBindings(before);
      FrontKey(kept, last.at, last.input);
      FrontTells(kept, last.at, last.input, Streak(before, StoredKey(last.input)));
      StoreHoldsTheMostRecent(attempts);
      forall e | e in Recorded(attempts) ensures Tells(e, Streak(attempts, KeyOf(e))) {
        if KeyOf(e) == StoredKey(last.input) { OnlyRow(Recorded(attempts), e); }
      }
    }
  }

  lemma {:induction false} OnlyRow(entries: seq<Sender>, e: Sender)
    requires UniqueKeys(RowsOf(entries)) && e in entries && KeyOf(e) == KeyOf(entries[0])
    ensures e == entries[0]
  {
    var k :| 0 <= k < |entries| && entries[k] == e;
    assert k > 0 ==> RowsOf(entries)[0].key != RowsOf(entries)[k].key;
  }
}
