/** One-time pairing codes: packages/messaging-gateway/src/pairing.ts. */
module Pairing {
  import opened JsText
  import opened Messaging
  import opened Wrappers
  import opened PairingThrottle

  /** The first draw and up to five retries. */
  const DRAWS: nat := 6

  datatype Kind = ForSession | ForSupergroup

  datatype Entry = Entry(
    kind: Kind, workspaceId: Text, sessionId: Option<Text>, platform: Platform, code: Text, expiresAt: int)

  function CodeKey(p: Platform, code: Text): Text { Name(p) + [COLON] + code }

  function SenderKey(workspaceId: Text, p: Platform, senderId: Text): Text {
    workspaceId + ([COLON] + (Name(p) + ([COLON] + senderId)))
  }

  datatype Config = Config(ttlMs: int, ratePerMinute: int, consumeRatePerMinute: int)

  datatype State = State(entries: map<Text, Entry>, buckets: map<Text, Bucket>, consumeBuckets: map<Text, Bucket>)

  const START := State(map[], map[], map[])

  datatype Call =
    | Generate(kind: Kind, workspaceId: Text, sessionId: Option<Text>, platform: Platform, draws: seq<Text>)
    | Consume(workspaceId: Text, platform: Platform, code: Text)
    | Attempt(workspaceId: Text, platform: Platform, senderId: Text)
    | ClearWorkspace(workspaceId: Text)

  datatype Event = Event(at: int, call: Call)

  datatype Answer = Issued(entry: Entry) | RateLimited | Redeemed(entry: Entry) | NotRedeemed | Allowed | Throttled | Cleared

  function Lookup(buckets: map<Text, Bucket>, key: Text): Option<Bucket> {
    if key in buckets then Some(buckets[key]) else None
  }

  function AdmitKey(buckets: map<Text, Bucket>, key: Text, now: int, rate: int): (map<Text, Bucket>, bool) {
    var (bucket, granted) := Admit(Lookup(buckets, key), now, rate);
    (if bucket.Some? then buckets[key := bucket.value] else buckets, granted)
  }

  function Live(entries: map<Text, Entry>, now: int): map<Text, Entry> {
    map k | k in entries && entries[k].expiresAt >= now :: entries[k]
  }

  function Others(entries: map<Text, Entry>, workspaceId: Text): map<Text, Entry> {
    map k | k in entries && entries[k].workspaceId != workspaceId :: entries[k]
  }

  /** The draw that is used: the first free one, else the last. */
  function Pick(entries: map<Text, Entry>, p: Platform, draws: seq<Text>, i: nat): (n: nat)
    requires i < |draws|
    ensures i <= n < |draws|
    ensures forall j | i <= j < n :: CodeKey(p, draws[j]) in entries
    ensures n < |draws| - 1 ==> CodeKey(p, draws[n]) !in entries
    decreases |draws| - i
  {
    if i == |draws| - 1 || CodeKey(p, draws[i]) !in entries then i else Pick(entries, p, draws, i + 1)
  }

  function Fill(cfg: Config, e: Event, code: Text): Entry
    requires e.call.Generate?
  {
    Entry(e.call.kind, e.call.workspaceId, e.call.sessionId, e.call.platform, code, e.at + cfg.ttlMs)
  }

  /** An event draws as many codes as the loop can ask for. */
  predicate WellFormed(e: Event) { e.call.Generate? ==> |e.call.draws| == DRAWS }

  function Issue(cfg: Config, s: State, e: Event): (State, Answer)
    requires e.call.Generate? && WellFormed(e)
  {
    var (buckets, granted) := AdmitKey(s.buckets, e.call.workspaceId, e.at, cfg.ratePerMinute);
    if !granted then (s, RateLimited)
    else
      var live := Live(s.entries, e.at);
      var entry := Fill(cfg, e, e.call.draws[Pick(live, e.call.platform, e.call.draws, 0)]);
      (s.(entries := live[CodeKey(e.call.platform, entry.code) := entry], buckets := buckets), Issued(entry))
  }

  function Redeem(s: State, e: Event): (State, Answer)
    requires e.call.Consume?
  {
    var key := CodeKey(e.call.platform, e.call.code);
    if key !in s.entries || s.entries[key].workspaceId != e.call.workspaceId then (s, NotRedeemed)
    else
      (s.(entries := s.entries - {key}), if s.entries[key].expiresAt < e.at then NotRedeemed else Redeemed(s.entries[key]))
  }

  function Perform(cfg: Config, s: State, e: Event): (State, Answer)
    requires WellFormed(e)
  {
    match e.call
    case Generate(_, _, _, _, _) => Issue(cfg, s, e)
    case Consume(_, _, _) => Redeem(s, e)
    case Attempt(workspaceId, platform, senderId) =>
      var (buckets, granted) := AdmitKey(s.consumeBuckets, SenderKey(workspaceId, platform, senderId), e.at, cfg.consumeRatePerMinute);
      (s.(consumeBuckets := buckets), if granted then Allowed else Throttled)
    case ClearWorkspace(workspaceId) => (s.(entries := Others(s.entries, workspaceId)), Cleared)
  }

  class PairingCodeManager {
    var entries: map<Text, Entry>
    var buckets: map<Text, Bucket>
    var consumeBuckets: map<Text, Bucket>
    const cfg: Config

    function View(): State
      reads this
    {
      State(entries, buckets, consumeBuckets)
    }

    constructor (ttlMs: int, ratePerMinute: int, consumeRatePerMinute: int)
      ensures View() == START && cfg == Config(ttlMs, ratePerMinute, consumeRatePerMinute)
    {
      entries, buckets, consumeBuckets := map[], map[], map[];
      cfg := Config(ttlMs, ratePerMinute, consumeRatePerMinute);
    }

    method GenerateCode(e: Event) returns (answer: Answer)
      requires e.call.Generate? && WellFormed(e)
      modifies this
      ensures (View(), answer) == Perform(cfg, old(View()), e)
    {
      var granted := CheckRate(e.call.workspaceId, e.at);
      if !granted { return RateLimited; }
      Gc(e.at);
      var i := 0;
      var code := e.call.draws[0];
      while i < DRAWS - 1 && CodeKey(e.call.platform, code) in entries
        invariant 0 <= i < DRAWS && code == e.call.draws[i]
        invariant Pick(entries, e.call.platform, e.call.draws, 0) == Pick(entries, e.call.platform, e.call.draws, i)
      {
        i := i + 1;
        code := e.call.draws[i];
      }
      var entry := Entry(e.call.kind, e.call.workspaceId, e.call.sessionId, e.call.platform, code, e.at + cfg.ttlMs);
      entries := entries[CodeKey(e.call.platform, code) := entry];
      answer := Issued(entry);
    }

    method ConsumeCode(now: int, workspaceId: Text, platform: Platform, code: Text) returns (answer: Answer)
      modifies this
      ensures (View(), answer) == Perform(cfg, old(View()), Event(now, Consume(workspaceId, platform, code)))
    {
      var key := CodeKey(platform, code);
      if key !in entries { return NotRedeemed; }
      var entry := entries[key];
      if entry.workspaceId != workspaceId { return NotRedeemed; }
      if entry.expiresAt < now {
        entries := entries - {key};
        return NotRedeemed;
      }
      entries := entries - {key};
      answer := Redeemed(entry);
    }

    method ClearWorkspaceCodes(now: int, workspaceId: Text)
      modifies this
      ensures (View(), Cleared) == Perform(cfg, old(View()), Event(now, ClearWorkspace(workspaceId)))
    {
      var pending := entries.Keys;
      while pending != {}
        invariant entries == map k | k in old(entries) && (k in pending || old(entries)[k].workspaceId != workspaceId) :: old(entries)[k]
        invariant pending <= old(entries).Keys
        invariant buckets == old(buckets) && consumeBuckets == old(consumeBuckets)
        decreases |pending|
      {
        var k :| k in pending;
        pending := pending - {k};
        if entries[k].workspaceId == workspaceId { entries := entries - {k}; }
      }
      assert entries == Others(old(entries), workspaceId);
    }

    method CanConsume(now: int, workspaceId: Text, platform: Platform, senderId: Text) returns (allowed: bool)
      modifies this
      ensures (View(), if allowed then Allowed else Throttled)
              == Perform(cfg, old(View()), Event(now, Attempt(workspaceId, platform, senderId)))
    {
      var key := SenderKey(workspaceId, platform, senderId);
      if key !in consumeBuckets || now - consumeBuckets[key].windowStart > WINDOW_MS {
        consumeBuckets := consumeBuckets[key := Bucket(now, 1)];
        return true;
      }
      if consumeBuckets[key].count >= cfg.consumeRatePerMinute {
        assert consumeBuckets[key := consumeBuckets[key]] == consumeBuckets;
        return false;
      }
      consumeBuckets := consumeBuckets[key := Bucket(consumeBuckets[key].windowStart, consumeBuckets[key].count + 1)];
      allowed := true;
    }

    method CheckRate(workspaceId: Text, now: int) returns (granted: bool)
      modifies this
      ensures (buckets, granted) == AdmitKey(old(buckets), workspaceId, now, cfg.ratePerMinute)
      ensures !granted ==> buckets == old(buckets)
      ensures entries == old(entries) && consumeBuckets == old(consumeBuckets)
    {
      if workspaceId !in buckets || now - buckets[workspaceId].windowStart > WINDOW_MS {
        buckets := buckets[workspaceId := Bucket(now, 1)];
        return true;
      }
      if buckets[workspaceId].count >= cfg.ratePerMinute {
        assert buckets[workspaceId := buckets[workspaceId]] == buckets;
        return false;
      }
      buckets := buckets[workspaceId := Bucket(buckets[workspaceId].windowStart, buckets[workspaceId].count + 1)];
      granted := true;
    }

    method Gc(now: int)
      modifies this
      ensures entries == Live(old(entries), now)
      ensures buckets == old(buckets) && consumeBuckets == old(consumeBuckets)
    {
      var pending := entries.Keys;
      while pending != {}
        invariant entries == map k | k in old(entries) && (k in pending || old(entries)[k].expiresAt >= now) :: old(entries)[k]
        invariant pending <= old(entries).Keys
        invariant buckets == old(buckets) && consumeBuckets == old(consumeBuckets)
        decreases |pending|
      {
        var k :| k in pending;
        pending := pending - {k};
        if entries[k].expiresAt < now { entries := entries - {k}; }
      }
    }
  }
}
