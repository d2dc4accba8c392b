/** What every run of the pairing manager keeps: codes are redeemed once, in their own workspace and
    platform and before they expire, and both throttles grant no more than PairingThrottle allows. */
module PairingRuns {
  import opened JsText
  import opened Messaging
  import opened Sequences
  import opened Wrappers
  import opened PairingThrottle
  import opened Pairing

  /** A run from an empty manager, its clock never going back. */
  predicate IsRun(events: seq<Event>) {
    && (forall i | 0 <= i < |events| :: WellFormed(events[i]))
    && forall i, j | 0 <= i < j < |events| :: events[i].at <= events[j].at
  }

  /** The states before, between and after the first n events, and the answers to them. */
  function Trace(cfg: Config, events: seq<Event>, n: nat): (trace: (seq<State>, seq<Answer>))
    requires IsRun(events) && n <= |events|
    ensures |trace.0| == n + 1 && |trace.1| == n
    decreases n
  {
    if n == 0 then ([START], [])
    else
      var (states, answers) := Trace(cfg, events, n - 1);
      var (state, answer) := Perform(cfg, states[n - 1], events[n - 1]);
      (states + [state], answers + [answer])
  }

  function StateAt(cfg: Config, events: seq<Event>, i: nat): State
    requires IsRun(events) && i <= |events|
  {
    Trace(cfg, events, |events|).0[i]
  }

  function AnswerAt(cfg: Config, events: seq<Event>, i: nat): Answer
    requires IsRun(events) && i < |events|
  {
    Trace(cfg, events, |events|).1[i]
  }

  lemma {:induction false} TraceStep(cfg: Config, events: seq<Event>, n: nat, i: nat)
    requires IsRun(events) && i < n <= |events|
    ensures var (states, answers) := Trace(cfg, events, n); (states[i + 1], answers[i]) == Perform(cfg, states[i], events[i])
    decreases n
  {
    if i < n - 1 { TraceStep(cfg, events, n - 1, i); }
  }

  lemma {:induction false} TraceStart(cfg: Config, events: seq<Event>, n: nat)
    requires IsRun(events) && n <= |events|
    ensures Trace(cfg, events, n).0[0] == START
    decreases n
  {
    if n > 0 { TraceStart(cfg, events, n - 1); }
  }

  /** One event takes the state before it to the state after it, with its answer. */
  lemma {:induction false} EventPerforms(cfg: Config, events: seq<Event>, i: nat)
    requires IsRun(events) && i < |events|
    ensures (StateAt(cfg, events, i + 1), AnswerAt(cfg, events, i)) == Perform(cfg, StateAt(cfg, events, i), events[i])
  {
    TraceStep(cfg, events, |events|, i);
  }

  function KeyOf(entry: Entry): Text { CodeKey(entry.platform, entry.code) }

  /** At k the code stored under this key is replaced, redeemed or cleared. */
  predicate Ends(cfg: Config, events: seq<Event>, k: nat, key: Text, workspaceId: Text)
    requires IsRun(events) && k < |events|
  {
    match AnswerAt(cfg, events, k)
    case Issued(entry) => KeyOf(entry) == key
    case Redeemed(entry) => KeyOf(entry) == key
    case Cleared => events[k].call.ClearWorkspace? && events[k].call.workspaceId == workspaceId
    case _ => false
  }

  /** The code issued at i is the one its key still stands for at n. */
  predicate Stands(cfg: Config, events: seq<Event>, i: nat, n: nat, entry: Entry)
    requires IsRun(events) && i < n <= |events|
  {
    && AnswerAt(cfg, events, i) == Issued(entry)
    && forall k | i < k < n :: !Ends(cfg, events, k, KeyOf(entry), entry.workspaceId)
  }

  /** Different platforms and codes have different keys. */
  lemma {:induction false} CodeKeyInjective(p: Platform, code: Text, q: Platform, other: Text)
    ensures CodeKey(p, code) == CodeKey(q, other) <==> p == q && code == other
  {
    if CodeKey(p, code) == CodeKey(q, other) {
      assert CodeKey(p, code)[0] == Name(p)[0] && CodeKey(q, other)[0] == Name(q)[0];
      assert CodeKey(p, code)[|Name(p)| + 1..] == code;
      assert CodeKey(q, other)[|Name(q)| + 1..] == other;
    }
  }

  /** Every stored entry is filed under its own key. */
  predicate Filed(s: State) { forall k | k in s.entries :: KeyOf(s.entries[k]) == k }

  lemma {:induction false} PerformFiles(cfg: Config, s: State, e: Event)
    requires WellFormed(e) && Filed(s)
    ensures Filed(Perform(cfg, s, e).0)
  {
  }

  /** What is stored under a key after one event, in terms of what was there before. */
  lemma {:induction false} StoredAfter(cfg: Config, s: State, e: Event, key: Text, entry: Entry)
    requires WellFormed(e) && Filed(s) && KeyOf(entry) == key
    ensures var (t, answer) := Perform(cfg, s, e);
            var stored := key in t.entries && t.entries[key] == entry;
            match answer
            case Issued(x) => stored <==> x == entry || (KeyOf(x) != key && key in s.entries && s.entries[key] == entry && entry.expiresAt >= e.at)
            case Redeemed(x) => stored <==> KeyOf(x) != key && key in s.entries && s.entries[key] == entry
            case Cleared => stored <==> key in s.entries && s.entries[key] == entry && entry.workspaceId != e.call.workspaceId
            case NotRedeemed => (stored ==> key in s.entries && s.entries[key] == entry)
                                && (key in s.entries && s.entries[key] == entry && entry.expiresAt >= e.at ==> stored)
            case _ => stored <==> key in s.entries && s.entries[key] == entry
  {
  }

  lemma {:induction false} AlwaysFiled(cfg: Config, events: seq<Event>, n: nat)
    requires IsRun(events) && n <= |events|
    ensures Filed(StateAt(cfg, events, n))
    decreases n
  {
    if n == 0 {
      TraceStart(cfg, events, |events|);
    } else {
      AlwaysFiled(cfg, events, n - 1);
      EventPerforms(cfg, events, n - 1);
      PerformFiles(cfg, StateAt(cfg, events, n - 1), events[n - 1]);
    }
  }

  predicate Holds(s: State, entry: Entry) { KeyOf(entry) in s.entries && s.entries[KeyOf(entry)] == entry }

  /** One event, seen from one entry. */
  lemma {:induction false} HoldsStep(cfg: Config, events: seq<Event>, n: nat, entry: Entry)
    requires IsRun(events) && n < |events|
    ensures var before, after := Holds(StateAt(cfg, events, n), entry), Holds(StateAt(cfg, events, n + 1), entry);
            var ends := Ends(cfg, events, n, KeyOf(entry), entry.workspaceId);
            && (AnswerAt(cfg, events, n) == Issued(entry) ==> after)
            && (AnswerAt(cfg, events, n) != Issued(entry) && after ==> before && !ends)
            && (before && !ends && events[n].at <= entry.expiresAt ==> after)
  {
    EventPerforms(cfg, events, n);
    AlwaysFiled(cfg, events, n);
    StoredAfter(cfg, StateAt(cfg, events, n), events[n], KeyOf(entry), entry);
  }

  /** What the store holds was issued, and still stands. */
  lemma {:induction false} HeldWasIssued(cfg: Config, events: seq<Event>, n: nat, entry: Entry) returns (i: nat)
    requires IsRun(events) && n <= |events| && Holds(StateAt(cfg, events, n), entry)
    ensures i < n && Stands(cfg, events, i, n, entry)
    decreases n
  {
    TraceStart(cfg, events, |events|);
    HoldsStep(cfg, events, n - 1, entry);
    if AnswerAt(cfg, events, n - 1) == Issued(entry) {
      i := n - 1;
    } else {
      i := HeldWasIssued(cfg, events, n - 1, entry);
    }
  }

  /** A standing code that has not expired by the latest event is held. */
  lemma {:induction false} StandingIsHeld(cfg: Config, events: seq<Event>, i: nat, n: nat, entry: Entry)
    requires IsRun(events) && i < n <= |events| && Stands(cfg, events, i, n, entry)
    requires events[n - 1].at <= entry.expiresAt
    ensures Holds(StateAt(cfg, events, n), entry)
    decreases n
  {
    HoldsStep(cfg, events, n - 1, entry);
    if i < n - 1 { StandingIsHeld(cfg, events, i, n - 1, entry); }
  }

  /** The attempt at j fits the entry: same workspace, platform and code, and not too late. */
  predicate Fits(e: Event, entry: Entry) {
    && e.call.Consume? && e.call.workspaceId == entry.workspaceId && e.call.platform == entry.platform && e.call.code == entry.code
    && e.at <= entry.expiresAt
  }

  /** A consume answers with an entry exactly when that entry was issued earlier, its key has not been
      reissued, redeemed or cleared since, and workspace, platform, code and time fit. */
  lemma {:induction false} RedeemedIff(cfg: Config, events: seq<Event>, j: nat, entry: Entry)
    requires IsRun(events) && j < |events|
    ensures AnswerAt(cfg, events, j) == Redeemed(entry)
            <==> Fits(events[j], entry) && exists i :: 0 <= i < j && Stands(cfg, events, i, j, entry)
  {
    EventPerforms(cfg, events, j);
    AlwaysFiled(cfg, events, j);
    if AnswerAt(cfg, events, j) == Redeemed(entry) {
      CodeKeyInjective(events[j].call.platform, events[j].call.code, entry.platform, entry.code);
      var i := HeldWasIssued(cfg, events, j, entry);
    } else if Fits(events[j], entry) && exists i :: 0 <= i < j && Stands(cfg, events, i, j, entry) {
      var i :| 0 <= i < j && Stands(cfg, events, i, j, entry);
      StandingIsHeld(cfg, events, i, j, entry);
      assert false;
    }
  }

  /** Two redemptions never go back to the same issued code. */
  lemma {:induction false} RedeemedOnce(cfg: Config, events: seq<Event>, i: nat, j: nat, k: nat, entry: Entry)
    requires IsRun(events) && i < j < |events| && i < k < |events|
    requires AnswerAt(cfg, events, j) == Redeemed(entry) && Stands(cfg, events, i, j, entry)
    requires AnswerAt(cfg, events, k) == Redeemed(entry) && Stands(cfg, events, i, k, entry)
    ensures j == k
  {
    if j < k { assert Ends(cfg, events, j, KeyOf(entry), entry.workspaceId); }
    if k < j { assert Ends(cfg, events, k, KeyOf(entry), entry.workspaceId); }
  }

  /** A code under this key is stored and has not expired. */
  predicate Taken(s: State, key: Text, now: int) { key in s.entries && s.entries[key].expiresAt >= now }

  /** What an issued code carries, and when issuing it drops a live one: only when all six draws are
      taken by codes still live at that moment. */
  lemma {:induction false} IssuedFrom(cfg: Config, s: State, e: Event, entry: Entry)
    requires e.call.Generate? && WellFormed(e) && Perform(cfg, s, e).1 == Issued(entry)
    ensures entry.workspaceId == e.call.workspaceId && entry.platform == e.call.platform && entry.code in e.call.draws
    ensures entry.kind == e.call.kind && entry.sessionId == e.call.sessionId && entry.expiresAt == e.at + cfg.ttlMs
    ensures Taken(s, KeyOf(entry), e.at) <==> forall d | d in e.call.draws :: Taken(s, CodeKey(e.call.platform, d), e.at)
  {
    var n := Pick(Live(s.entries, e.at), e.call.platform, e.call.draws, 0);
    assert entry.code == e.call.draws[n];
  }

  /* ---- The throttles, over whole runs ---- */

  datatype Meter = Codes | Tries

  /** The counter an event goes through: codes are counted by workspace, tries by sender. */
  function Metered(e: Event): Option<(Meter, Text)> {
    match e.call
    case Generate(_, workspaceId, _, _, _) => Some((Codes, workspaceId))
    case Attempt(workspaceId, platform, senderId) => Some((Tries, SenderKey(workspaceId, platform, senderId)))
    case _ => None
  }

  function Rate(cfg: Config, m: Meter): int {
    match m case Codes => cfg.ratePerMinute case Tries => cfg.consumeRatePerMinute
  }

  function BucketOf(s: State, m: Meter, key: Text): Option<Bucket> {
    match m case Codes => Lookup(s.buckets, key) case Tries => Lookup(s.consumeBuckets, key)
  }

  predicate WasGranted(answer: Answer) { answer.Issued? || answer.Allowed? }

  /** Times of the events metered under this key, from the n-th event on. */
  function TimesFrom(events: seq<Event>, n: nat, m: Meter, key: Text): seq<int>
    requires n <= |events|
    decreases |events| - n
  {
    if n == |events| then []
    else (if Metered(events[n]) == Some((m, key)) then [events[n].at] else []) + TimesFrom(events, n + 1, m, key)
  }

  /** How many events under this key are granted between two times, from the n-th event on. */
  function GrantsFromEvent(cfg: Config, events: seq<Event>, n: nat, m: Meter, key: Text, from: int, to: int): nat
    requires IsRun(events) && n <= |events|
    decreases |events| - n
  {
    if n == |events| then 0
    else
      (if Metered(events[n]) == Some((m, key)) && WasGranted(AnswerAt(cfg, events, n)) && from <= events[n].at <= to then 1 else 0)
      + GrantsFromEvent(cfg, events, n + 1, m, key, from, to)
  }

  /** One event moves exactly the bucket it is metered by, and as Admit says. */
  lemma {:induction false} MeterStep(cfg: Config, s: State, e: Event, m: Meter, key: Text)
    requires WellFormed(e)
    ensures var (t, answer) := Perform(cfg, s, e);
            if Metered(e) == Some((m, key)) then
              (BucketOf(t, m, key), WasGranted(answer)) == Admit(BucketOf(s, m, key), e.at, Rate(cfg, m))
            else BucketOf(t, m, key) == BucketOf(s, m, key)
  {
  }

  lemma {:induction false} RunIsMetered(cfg: Config, events: seq<Event>, n: nat, m: Meter, key: Text, from: int, to: int)
    requires IsRun(events) && n <= |events|
    ensures GrantsFromEvent(cfg, events, n, m, key, from, to)
            == Granted(BucketOf(StateAt(cfg, events, n), m, key), TimesFrom(events, n, m, key), Rate(cfg, m), from, to)
    decreases |events| - n
  {
    if n < |events| {
      EventPerforms(cfg, events, n);
      MeterStep(cfg, StateAt(cfg, events, n), events[n], m, key);
      RunIsMetered(cfg, events, n + 1, m, key, from, to);
      var rest := TimesFrom(events, n + 1, m, key);
      if Metered(events[n]) == Some((m, key)) {
        assert ([events[n].at] + rest)[1..] == rest;
      } else {
        assert [] + rest == rest;
      }
    }
  }

  lemma {:induction false} TimesOrdered(events: seq<Event>, n: nat, m: Meter, key: Text)
    requires IsRun(events) && n <= |events|
    ensures Nondecreasing(TimesFrom(events, n, m, key))
    ensures forall t | t in TimesFrom(events, n, m, key) :: n < |events| && events[n].at <= t
    decreases |events| - n
  {
    if n < |events| {
      TimesOrdered(events, n + 1, m, key);
      var rest := TimesFrom(events, n + 1, m, key);
      forall i | 0 <= i < |rest| ensures events[n].at <= rest[i] { assert rest[i] in rest; }
    }
  }

  /** In every run, no interval of this length sees more codes issued to a workspace, or more attempts
      allowed to a sender, than MaxGrants of the configured rate. */
  lemma {:induction false} RunsAreThrottled(cfg: Config, events: seq<Event>, m: Meter, key: Text, from: int, length: nat)
    requires IsRun(events)
    ensures GrantsFromEvent(cfg, events, 0, m, key, from, from + length) <= MaxGrants(length, Rate(cfg, m))
  {
    RunIsMetered(cfg, events, 0, m, key, from, from + length);
    TraceStart(cfg, events, |events|);
    TimesOrdered(events, 0, m, key);
    GrantsAreBounded(TimesFrom(events, 0, m, key), Rate(cfg, m), from, length);
  }

  lemma {:induction false} GrantsWiden(cfg: Config, events: seq<Event>, n: nat, m: Meter, key: Text, from: int, early: int, to: int)
    requires IsRun(events) && n <= |events| && early <= from
    ensures GrantsFromEvent(cfg, events, n, m, key, from, to) <= GrantsFromEvent(cfg, events, n, m, key, early, to)
    decreases |events| - n
  {
    if n < |events| { GrantsWiden(cfg, events, n + 1, m, key, from, early, to); }
  }

  /** The count of the window that opened then, if it is the bucket's. */
  function CountSince(bucket: Option<Bucket>, start: int): int {
    if bucket.Some? && bucket.value.windowStart == start then bucket.value.count else 0
  }

  lemma {:induction false} AdmitCounts(bucket: Option<Bucket>, now: int, rate: int, start: int)
    requires bucket.Some? ==> bucket.value.count >= 0 && bucket.value.windowStart <= now
    ensures CountSince(Admit(bucket, now, rate).0, start)
            <= CountSince(bucket, start) + (if Admit(bucket, now, rate).1 && start <= now then 1 else 0)
    ensures Admit(bucket, now, rate).0.value.count >= 0 && Admit(bucket, now, rate).0.value.windowStart <= now
  {
  }

  predicate Used(bucket: Option<Bucket>, now: int) {
    bucket.Some? ==> bucket.value.count >= 0 && bucket.value.windowStart <= now
  }

  /** One event adds to the count no more than it adds to the grants. */
  lemma {:induction false} EventCounts(cfg: Config, events: seq<Event>, n: nat, m: Meter, key: Text, start: int, to: int)
    requires IsRun(events) && n < |events| && events[n].at <= to
    requires Used(BucketOf(StateAt(cfg, events, n), m, key), events[n].at)
    ensures Used(BucketOf(StateAt(cfg, events, n + 1), m, key), events[n].at)
    ensures CountSince(BucketOf(StateAt(cfg, events, n + 1), m, key), start) + GrantsFromEvent(cfg, events, n + 1, m, key, start, to)
            <= CountSince(BucketOf(StateAt(cfg, events, n), m, key), start) + GrantsFromEvent(cfg, events, n, m, key, start, to)
  {
    EventPerforms(cfg, events, n);
    MeterStep(cfg, StateAt(cfg, events, n), events[n], m, key);
    AdmitCounts(BucketOf(StateAt(cfg, events, n), m, key), events[n].at, Rate(cfg, m), start);
  }

  /** Every count in a bucket is an event granted since its window opened. */
  lemma {:induction false} CountWasGranted(cfg: Config, events: seq<Event>, n: nat, j: nat, m: Meter, key: Text, start: int)
    requires IsRun(events) && n <= j < |events|
    requires Used(BucketOf(StateAt(cfg, events, n), m, key), events[n].at)
    ensures CountSince(BucketOf(StateAt(cfg, events, j), m, key), start)
            <= CountSince(BucketOf(StateAt(cfg, events, n), m, key), start)
               + GrantsFromEvent(cfg, events, n, m, key, start, events[j].at)
    decreases j - n
  {
    if n < j {
      EventCounts(cfg, events, n, m, key, start, events[j].at);
      CountWasGranted(cfg, events, n + 1, j, m, key, start);
    }
  }

  /** Nobody is turned away early: a refused event comes after at least the configured number of granted
      ones, at least one, in the minute before it. */
  lemma {:induction false} RefusedOnlyAtCap(cfg: Config, events: seq<Event>, j: nat, m: Meter, key: Text)
    requires IsRun(events) && j < |events| && Metered(events[j]) == Some((m, key)) && !WasGranted(AnswerAt(cfg, events, j))
    ensures GrantsFromEvent(cfg, events, 0, m, key, events[j].at - WINDOW_MS, events[j].at) >= Effective(Rate(cfg, m))
  {
    TraceStart(cfg, events, |events|);
    EventPerforms(cfg, events, j);
    MeterStep(cfg, StateAt(cfg, events, j), events[j], m, key);
    var bucket := BucketOf(StateAt(cfg, events, j), m, key).value;
    CountWasGranted(cfg, events, 0, j, m, key, bucket.windowStart);
    BucketsCount(cfg, events, j, m, key);
    GrantsWiden(cfg, events, 0, m, key, bucket.windowStart, events[j].at - WINDOW_MS, events[j].at);
  }

  lemma {:induction false} BucketsCount(cfg: Config, events: seq<Event>, n: nat, m: Meter, key: Text)
    requires IsRun(events) && n <= |events|
    ensures var bucket := BucketOf(StateAt(cfg, events, n), m, key); bucket.Some? ==> bucket.value.count >= 1
    decreases n
  {
    if n == 0 {
      TraceStart(cfg, events, |events|);
    } else {
      EventPerforms(cfg, events, n - 1);
      MeterStep(cfg, StateAt(cfg, events, n - 1), events[n - 1], m, key);
      BucketsCount(cfg, events, n - 1, m, key);
    }
  }

  /** What comes after the workspace in a sender's key. */
  lemma {:induction false} AfterWorkspace(w: Text, p: Platform, sender: Text)
    ensures |SenderKey(w, p, sender)| > |w| && SenderKey(w, p, sender)[|w| + 1..] == Name(p) + ([COLON] + sender)
  {
  }

  /** Platform names differ in their first letter. */
  lemma {:induction false} NameIsPrefix(p: Platform, a: Text, q: Platform, b: Text)
    requires Name(p) + a == Name(q) + b
    ensures p == q && a == b
  {
    assert (Name(p) + a)[0] == Name(p)[0] && (Name(q) + b)[0] == Name(q)[0];
    assert (Name(p) + a)[|Name(p)|..] == a && (Name(q) + b)[|Name(q)|..] == b;
  }

  /** Within a workspace, senders share a counter only when they are the same. */
  lemma {:induction false} SendersOfOneWorkspace(w: Text, p: Platform, sender: Text, q: Platform, other: Text)
    ensures SenderKey(w, p, sender) == SenderKey(w, q, other) <==> p == q && sender == other
  {
    if SenderKey(w, p, sender) == SenderKey(w, q, other) {
      AfterWorkspace(w, p, sender);
      AfterWorkspace(w, q, other);
      NameIsPrefix(p, [COLON] + sender, q, [COLON] + other);
      assert ([COLON] + sender)[1..] == sender && ([COLON] + other)[1..] == other;
    }
  }

  /** How every counter of this workspace and platform begins. */
  function KeyHead(w: Text, p: Platform): Text { w + ([COLON] + (Name(p) + [COLON])) }

  /** One workspace id, a colon and a platform name begin the other id. */
  predicate Nested(w: Text, v: Text) {
    KeyHead(w, Telegram) <= v + [COLON] || KeyHead(w, WhatsApp) <= v + [COLON] || KeyHead(w, Lark) <= v + [COLON]
  }

  /** Two workspaces can share a counter exactly when one id is nested in the other; ids without a
      colon never are. */
  lemma {:induction false} WorkspacesShareIff(w: Text, v: Text)
    requires w != v
    ensures (exists p, sender, q, other :: SenderKey(w, p, sender) == SenderKey(v, q, other)) <==> Nested(w, v) || Nested(v, w)
  {
    if p, sender, q, other :| SenderKey(w, p, sender) == SenderKey(v, q, other) {
      if |w| < |v| { SharedIsNested(w, p, sender, v, q, other); }
      else if |v| < |w| { SharedIsNested(v, q, other, w, p, sender); }
      else { SameLengthIsSame(w, p, sender, v, q, other); }
    }
    if Nested(w, v) {
      var p, sender := NestedShares(w, v);
    } else if Nested(v, w) {
      var p, sender := NestedShares(v, w);
    }
  }

  lemma {:induction false} SameLengthIsSame(w: Text, p: Platform, sender: Text, v: Text, q: Platform, other: Text)
    requires |w| == |v| && SenderKey(w, p, sender) == SenderKey(v, q, other)
    ensures w == v
  {
    assert w == SenderKey(w, p, sender)[..|w|] == v;
  }

  lemma {:induction false} SharedIsNested(w: Text, p: Platform, sender: Text, v: Text, q: Platform, other: Text)
    requires |w| < |v| && SenderKey(w, p, sender) == SenderKey(v, q, other)
    ensures Nested(w, v)
  {
    var key, head := SenderKey(v, q, other), KeyHead(w, p);
    KeyFromHead(w, p, sender);
    KeyFromHead(v, q, other);
    assert key[|v|] == COLON;
    ColonAfterName(w, p, sender, |v|);
    assert head == key[..|head|] && v + [COLON] == key[..|v| + 1];
  }

  /** After the workspace's own colon the next one ends the platform name. */
  lemma {:induction false} ColonAfterName(w: Text, p: Platform, sender: Text, n: nat)
    requires |w| < n < |SenderKey(w, p, sender)| && SenderKey(w, p, sender)[n] == COLON
    ensures n >= |w| + 1 + |Name(p)|
  {
    assert forall k | |w| < k <= |w| + |Name(p)| :: SenderKey(w, p, sender)[k] == Name(p)[k - |w| - 1];
  }

  lemma {:induction false} KeyFromHead(w: Text, p: Platform, sender: Text)
    ensures SenderKey(w, p, sender) == KeyHead(w, p) + sender
  {
  }

  lemma {:induction false} NestedShares(w: Text, v: Text) returns (p: Platform, sender: Text)
    requires Nested(w, v)
    ensures SenderKey(w, p, sender) == SenderKey(v, Telegram, [])
  {
    p := if KeyHead(w, Telegram) <= v + [COLON] then Telegram else if KeyHead(w, WhatsApp) <= v + [COLON] then WhatsApp else Lark;
    var head, rest := KeyHead(w, p), Name(Telegram) + ([COLON] + []);
    var middle := (v + [COLON])[|head|..];
    sender := middle + rest;
    KeyFromHead(w, p, sender);
    Assoc(head, middle, rest);
    assert head + middle == v + [COLON];
    Assoc(v, [COLON], rest);
  }

  lemma {:induction false} NestedHasColon(w: Text, v: Text)
    requires Nested(w, v)
    ensures COLON in v
  {
    var p := if KeyHead(w, Telegram) <= v + [COLON] then Telegram else if KeyHead(w, WhatsApp) <= v + [COLON] then WhatsApp else Lark;
    assert v[|w|] == (v + [COLON])[|w|] == KeyHead(w, p)[|w|] == COLON;
  }
}
