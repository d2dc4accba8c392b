/** Inline Approve/Deny prompts in packages/messaging-gateway/src/gateway.ts: the recorder, the sweep
    that every session event runs, and the claim a button press makes. */
module PermissionPrompts {
  import opened JsText
  import opened Messaging
  import opened Wrappers
  import opened Sequences

  const PERM: Text := [112, 101, 114, 109]
  const ALLOW: Text := [97, 108, 108, 111, 119]
  const DENY: Text := [100, 101, 110, 121]

  datatype Prompt = Prompt(bindingId: Text, sessionId: Text, platform: Platform, channelId: Text, messageId: Text)

  /** What a press that claimed a prompt sends to the session, once the buttons are cleared. */
  datatype Claim = Claim(sessionId: Text, requestId: Text, allowed: bool)

  type Prompts = map<Text, Prompt>

  datatype State = State(prompts: Prompts, waiting: seq<Claim>)

  const START := State(map[], [])

  datatype Event =
    | Record(requestId: Text, prompt: Prompt)
    | SessionEvent(sessionId: Text, permissionRequest: bool, eventRequestId: Option<Text>)
    | Press(platform: Platform, gated: bool, buttonId: Text)
    | Respond(which: nat)

  /* ---- Reading a button id ---- */

  /** The answer and request id a permission button stands for. */
  function ParseButton(buttonId: Text): Option<(bool, Text)> {
    var parts := Split(buttonId, COLON);
    if |parts| < 3 || parts[2] == [] || (parts[1] != ALLOW && parts[1] != DENY) then None
    else Some((parts[1] == ALLOW, parts[2]))
  }

  predicate StartsWith(s: Text, prefix: Text) { prefix <= s }

  function ButtonId(allow: bool, requestId: Text): Text {
    PERM + ([COLON] + ((if allow then ALLOW else DENY) + ([COLON] + requestId)))
  }

  /* ---- The steps ---- */

  /** The request id a prompt may have and still outlive this event. */
  function Spared(e: Event): Option<Text>
    requires e.SessionEvent?
  {
    if e.permissionRequest then e.eventRequestId else None
  }

  predicate Sweeps(e: Event, requestId: Text, prompt: Prompt) {
    e.SessionEvent? && prompt.sessionId == e.sessionId && Spared(e) != Some(requestId)
  }

  function Swept(prompts: Prompts, e: Event): Prompts {
    map id | id in prompts && !Sweeps(e, id, prompts[id]) :: prompts[id]
  }

  /** The prompt a press claims, if any: presses that fail the access gate, or come from WhatsApp, claim none. */
  function Claimed(prompts: Prompts, e: Event): Option<Claim>
    requires e.Press?
  {
    if !e.gated || !StartsWith(e.buttonId, PERM + [COLON]) || e.platform == WhatsApp then None
    else
      match ParseButton(e.buttonId)
      case None => None
      case Some((allowed, id)) => if id in prompts then Some(Claim(prompts[id].sessionId, id, allowed)) else None
  }

  predicate Enabled(s: State, e: Event) { e.Respond? ==> e.which < |s.waiting| }

  function Next(s: State, e: Event): State
    requires Enabled(s, e)
  {
    match e
    case Record(id, prompt) => s.(prompts := s.prompts[id := prompt])
    case SessionEvent(_, _, _) => s.(prompts := Swept(s.prompts, e))
    case Press(_, _, _) =>
      (match Claimed(s.prompts, e)
       case None => s
       case Some(claim) => State(s.prompts - {claim.requestId}, s.waiting + [claim]))
    case Respond(k) => s.(waiting := s.waiting[..k] + s.waiting[k + 1..])
  }

  /** The event is a permission request with this id. */
  predicate IsRequestFor(e: Event, id: Text) {
    e.SessionEvent? && e.permissionRequest && e.eventRequestId == Some(id)
  }

  class PermissionMessages {
    var permissionMessages: Prompts

    constructor ()
      ensures permissionMessages == map[]
    {
      permissionMessages := map[];
    }

    method RecordPermissionMessage(requestId: Text, prompt: Prompt)
      modifies this
      ensures permissionMessages == Next(State(old(permissionMessages), []), Record(requestId, prompt)).prompts
    {
      permissionMessages := permissionMessages[requestId := prompt];
    }

    method SweepStalePermissions(e: Event)
      requires e.SessionEvent?
      modifies this
      ensures permissionMessages == Next(State(old(permissionMessages), []), e).prompts
      ensures forall id :: id in permissionMessages <==>
                id in old(permissionMessages)
                && (old(permissionMessages)[id].sessionId != e.sessionId || IsRequestFor(e, id))
      ensures forall id | id in permissionMessages :: permissionMessages[id] == old(permissionMessages)[id]
    {
      var pending := permissionMessages.Keys;
      while pending != {}
        invariant pending <= old(permissionMessages).Keys
        invariant permissionMessages ==
          map id | id in old(permissionMessages) && (id in pending || !Sweeps(e, id, old(permissionMessages)[id])) :: old(permissionMessages)[id]
        decreases |pending|
      {
        var id :| id in pending;
        pending := pending - {id};
        var stale := permissionMessages[id].sessionId == e.sessionId && Spared(e) != Some(id);
        if stale { permissionMessages := permissionMessages - {id}; }
      }
      assert permissionMessages == Swept(old(permissionMessages), e);
    }

    /** The part of a press that runs before its first await. */
    method ClaimPress(e: Event) returns (claim: Option<Claim>)
      requires e.Press?
      modifies this
      ensures claim == Claimed(old(permissionMessages), e)
      ensures permissionMessages == Next(State(old(permissionMessages), []), e).prompts
    {
      claim := None;
      if !e.gated || !StartsWith(e.buttonId, PERM + [COLON]) || e.platform == WhatsApp { return; }
      var parsed := ParseButton(e.buttonId);
      if parsed.None? || parsed.value.1 !in permissionMessages { return; }
      var requestId := parsed.value.1;
      var prompt := permissionMessages[requestId];
      permissionMessages := permissionMessages - {requestId};
      claim := Some(Claim(prompt.sessionId, requestId, parsed.value.0));
    }
  }

  /* ---- Runs ---- */

  /** The first n events can happen in this order from an empty gateway. */
  predicate Legal(events: seq<Event>, n: nat)
    requires n <= |events|
    decreases n, 0
  {
    n == 0 || (Legal(events, n - 1) && Enabled(StateAt(events, n - 1), events[n - 1]))
  }

  function StateAt(events: seq<Event>, n: nat): State
    requires n <= |events| && Legal(events, n)
    decreases n, 1
  {
    if n == 0 then START else Next(StateAt(events, n - 1), events[n - 1])
  }

  lemma {:induction false} LegalPrefix(events: seq<Event>, m: nat, n: nat)
    requires m <= n <= |events| && Legal(events, n)
    ensures Legal(events, m)
    ensures m < n ==> Enabled(StateAt(events, m), events[m])
    decreases n
  {
    if m < n - 1 { LegalPrefix(events, m, n - 1); }
  }

  function Recordings(events: seq<Event>, n: nat, id: Text): nat
    requires n <= |events|
    decreases n
  {
    if n == 0 then 0
    else Recordings(events, n - 1, id) + (if events[n - 1].Record? && events[n - 1].requestId == id then 1 else 0)
  }

  /** Calls of respondToPermission for this request. */
  function Responses(events: seq<Event>, n: nat, id: Text): nat
    requires n <= |events| && Legal(events, n)
    decreases n
  {
    if n == 0 then 0
    else
      var e := events[n - 1];
      Responses(events, n - 1, id)
      + (if e.Respond? && StateAt(events, n - 1).waiting[e.which].requestId == id then 1 else 0)
  }

  function Waiting(claims: seq<Claim>, id: Text): nat {
    if claims == [] then 0 else (if claims[0].requestId == id then 1 else 0) + Waiting(claims[1..], id)
  }

  function Live(s: State, id: Text): nat { if id in s.prompts then 1 else 0 }

  lemma {:induction false} WaitingAppend(a: seq<Claim>, b: seq<Claim>, id: Text)
    ensures Waiting(a + b, id) == Waiting(a, id) + Waiting(b, id)
  {
    if a == [] {
      assert a + b == b;
    } else {
      assert (a + b)[1..] == a[1..] + b;
      WaitingAppend(a[1..], b, id);
    }
  }

  lemma {:induction false} WaitingWithout(claims: seq<Claim>, k: nat, id: Text)
    requires k < |claims|
    ensures Waiting(claims, id) == Waiting(claims[..k] + claims[k + 1..], id) + (if claims[k].requestId == id then 1 else 0)
  {
    assert claims == claims[..k] + claims[k..];
    WaitingAppend(claims[..k], claims[k..], id);
    WaitingAppend(claims[..k], claims[k + 1..], id);
  }

  /** What is live, waiting or answered for an id never exceeds what was, plus what is recorded. */
  lemma {:induction false} StepBalance(s: State, e: Event, id: Text)
    requires Enabled(s, e)
    ensures Live(Next(s, e), id) + Waiting(Next(s, e).waiting, id)
            + (if e.Respond? && s.waiting[e.which].requestId == id then 1 else 0)
            <= Live(s, id) + Waiting(s.waiting, id) + (if e.Record? && e.requestId == id then 1 else 0)
  {
    match e
    case Record(_, _) =>
    case SessionEvent(_, _, _) =>
    case Press(_, _, _) =>
      if Claimed(s.prompts, e).Some? {
        var claim := Claimed(s.prompts, e).value;
        WaitingAppend(s.waiting, [claim], id);
        assert Waiting([claim], id) == if claim.requestId == id then 1 else 0;
      }
    case Respond(k) => WaitingWithout(s.waiting, k, id);
  }

  /** In every run, the answers to a request, given or on their way, and its live prompt together never
      outnumber the times a prompt for it was recorded. */
  lemma {:induction false} ResponsesWithinRecordings(events: seq<Event>, n: nat, id: Text)
    requires n <= |events| && Legal(events, n)
    ensures Responses(events, n, id) + Waiting(StateAt(events, n).waiting, id) + Live(StateAt(events, n), id)
            <= Recordings(events, n, id)
    decreases n
  {
    if n > 0 {
      ResponsesWithinRecordings(events, n - 1, id);
      StepBalance(StateAt(events, n - 1), events[n - 1], id);
    }
  }

  /** The press names this request and may claim it. */
  predicate Asks(e: Event, allowed: bool, id: Text) {
    && e.Press? && e.gated && e.platform != WhatsApp && StartsWith(e.buttonId, PERM + [COLON])
    && ParseButton(e.buttonId) == Some((allowed, id))
  }

  /** After this event the prompt recorded under this id is not live: it is recorded anew, its session did
      something else, or a press names it. */
  predicate Ends(e: Event, id: Text, prompt: Prompt) {
    match e
    case Record(other, _) => other == id
    case SessionEvent(session, _, _) => session == prompt.sessionId && !IsRequestFor(e, id)
    case Press(_, _, _) => Asks(e, true, id) || Asks(e, false, id)
    case Respond(_) => false
  }

  /** The prompt recorded at i is still the one its id stands for at n. */
  predicate Stands(events: seq<Event>, i: nat, n: nat, id: Text, prompt: Prompt)
    requires i < n <= |events|
  {
    events[i] == Record(id, prompt) && forall k | i < k < n :: !Ends(events[k], id, prompt)
  }

  predicate Holds(s: State, id: Text, prompt: Prompt) { id in s.prompts && s.prompts[id] == prompt }

  /** What each event does to the live prompts: a recording puts its own, an event of a session drops
      exactly that session's prompts but the one it asks for, and a press drops exactly the one it names. */
  lemma {:induction false} StepIsExact(s: State, e: Event)
    requires Enabled(s, e)
    ensures forall id, prompt :: Holds(Next(s, e), id, prompt) <==>
              e == Record(id, prompt) || (Holds(s, id, prompt) && !Ends(e, id, prompt))
  {
  }

  lemma {:induction false} HoldsStep(events: seq<Event>, n: nat, id: Text, prompt: Prompt)
    requires n < |events| && Legal(events, n + 1)
    ensures Holds(StateAt(events, n + 1), id, prompt) <==>
            events[n] == Record(id, prompt) || (Holds(StateAt(events, n), id, prompt) && !Ends(events[n], id, prompt))
  {
    StepIsExact(StateAt(events, n), events[n]);
  }

  lemma {:induction false} HeldWasRecorded(events: seq<Event>, n: nat, id: Text, prompt: Prompt) returns (i: nat)
    requires n <= |events| && Legal(events, n) && Holds(StateAt(events, n), id, prompt)
    ensures i < n && Stands(events, i, n, id, prompt)
    decreases n
  {
    HoldsStep(events, n - 1, id, prompt);
    if events[n - 1] == Record(id, prompt) { i := n - 1; } else { i := HeldWasRecorded(events, n - 1, id, prompt); }
  }

  lemma {:induction false} StandingIsHeld(events: seq<Event>, i: nat, n: nat, id: Text, prompt: Prompt)
    requires i < n <= |events| && Legal(events, n) && Stands(events, i, n, id, prompt)
    ensures Holds(StateAt(events, n), id, prompt)
    decreases n
  {
    HoldsStep(events, n - 1, id, prompt);
    if i < n - 1 { StandingIsHeld(events, i, n - 1, id, prompt); }
  }

  /** A press claims a request exactly when it names it and, since the last recording of a prompt for it,
      no press named it and its session did nothing but ask for it again; the answer goes to that
      prompt's session. */
  lemma {:induction false} ClaimedIff(events: seq<Event>, j: nat, claim: Claim)
    requires j < |events| && Legal(events, j) && events[j].Press?
    ensures Claimed(StateAt(events, j).prompts, events[j]) == Some(claim)
            <==> Asks(events[j], claim.allowed, claim.requestId)
                 && exists i, prompt: Prompt :: 0 <= i < j && Stands(events, i, j, claim.requestId, prompt) && prompt.sessionId == claim.sessionId
  {
    var prompts := StateAt(events, j).prompts;
    if Claimed(prompts, events[j]) == Some(claim) {
      var i := HeldWasRecorded(events, j, claim.requestId, prompts[claim.requestId]);
      assert Stands(events, i, j, claim.requestId, prompts[claim.requestId]);
    } else if Asks(events[j], claim.allowed, claim.requestId) {
      forall i, prompt: Prompt | 0 <= i < j && Stands(events, i, j, claim.requestId, prompt)
        ensures prompt.sessionId != claim.sessionId
      {
        StandingIsHeld(events, i, j, claim.requestId, prompt);
      }
    }
  }

  /** A claim is on its way from the press on, and the prompt is gone: another press claims nothing. */
  lemma {:induction false} ClaimIsQueued(events: seq<Event>, i: nat, j: nat, id: Text, prompt: Prompt, allowed: bool)
    requires i < j < |events| && Legal(events, j + 1)
    requires Stands(events, i, j, id, prompt) && Asks(events[j], allowed, id)
    ensures StateAt(events, j + 1).waiting == StateAt(events, j).waiting + [Claim(prompt.sessionId, id, allowed)]
    ensures id !in StateAt(events, j + 1).prompts
  {
    StandingIsHeld(events, i, j, id, prompt);
  }

  /** The claim a step makes, and the one it answers. */
  function NewClaims(s: State, e: Event): multiset<Claim> {
    if !e.Press? then multiset{}
    else match Claimed(s.prompts, e) case None => multiset{} case Some(claim) => multiset{claim}
  }

  function NewAnswers(s: State, e: Event): multiset<Claim>
    requires Enabled(s, e)
  {
    if e.Respond? then multiset{s.waiting[e.which]} else multiset{}
  }

  function Claims(events: seq<Event>, n: nat): multiset<Claim>
    requires n <= |events| && Legal(events, n)
    decreases n
  {
    if n == 0 then multiset{} else Claims(events, n - 1) + NewClaims(StateAt(events, n - 1), events[n - 1])
  }

  function Answers(events: seq<Event>, n: nat): multiset<Claim>
    requires n <= |events| && Legal(events, n)
    decreases n
  {
    if n == 0 then multiset{} else Answers(events, n - 1) + NewAnswers(StateAt(events, n - 1), events[n - 1])
  }

  lemma {:induction false} Taken(waiting: seq<Claim>, k: nat)
    requires k < |waiting|
    ensures multiset(waiting) == multiset(waiting[..k] + waiting[k + 1..]) + multiset{waiting[k]}
  {
    assert waiting == waiting[..k] + [waiting[k]] + waiting[k + 1..];
  }

  lemma {:induction false} StepConserves(s: State, e: Event)
    requires Enabled(s, e)
    ensures multiset(s.waiting) + NewClaims(s, e) == NewAnswers(s, e) + multiset(Next(s, e).waiting)
  {
    if e.Respond? { Taken(s.waiting, e.which); }
  }

  /** Every claim is answered or still on its way, exactly once: none is lost, none is invented. */
  lemma {:induction false} ClaimsAreConserved(events: seq<Event>, n: nat)
    requires n <= |events| && Legal(events, n)
    ensures Claims(events, n) == Answers(events, n) + multiset(StateAt(events, n).waiting)
    decreases n
  {
    if n > 0 {
      var s, e := StateAt(events, n - 1), events[n - 1];
      ClaimsAreConserved(events, n - 1);
      StepConserves(s, e);
      Rearranged(Claims(events, n - 1), Answers(events, n - 1), multiset(s.waiting), NewClaims(s, e), NewAnswers(s, e),
                 multiset(Next(s, e).waiting));
    }
  }

  lemma {:induction false} Rearranged(claims: multiset<Claim>, answers: multiset<Claim>, waiting: multiset<Claim>,
                                      claimed: multiset<Claim>, answered: multiset<Claim>, next: multiset<Claim>)
    requires claims == answers + waiting && waiting + claimed == answered + next
    ensures claims + claimed == (answers + answered) + next
  {
    assert claims + claimed == answers + (waiting + claimed);
  }

  /** Every answer under way was claimed by an earlier press. */
  lemma {:induction false} WaitingWasClaimed(events: seq<Event>, n: nat, claim: Claim) returns (j: nat)
    requires n <= |events| && Legal(events, n) && claim in StateAt(events, n).waiting
    ensures j < n && Legal(events, j) && events[j].Press? && Claimed(StateAt(events, j).prompts, events[j]) == Some(claim)
    decreases n
  {
    if claim in StateAt(events, n - 1).waiting { j := WaitingWasClaimed(events, n - 1, claim); } else { j := n - 1; }
  }

  /** Each call of respondToPermission goes back to a recorded prompt of that session: between the
      recording and the press no other event of the session was handled. */
  lemma {:induction false} AnswersUseLivePrompts(events: seq<Event>, n: nat) returns (i: nat, j: nat)
    requires n < |events| && Legal(events, n + 1) && events[n].Respond?
    ensures var claim := StateAt(events, n).waiting[events[n].which];
            && i < j < n && events[j].Press? && Asks(events[j], claim.allowed, claim.requestId)
            && events[i].Record? && events[i].requestId == claim.requestId && events[i].prompt.sessionId == claim.sessionId
            && forall k | i < k < j :: events[k].SessionEvent? && events[k].sessionId == claim.sessionId
                                       ==> IsRequestFor(events[k], claim.requestId)
  {
    var claim := StateAt(events, n).waiting[events[n].which];
    j := WaitingWasClaimed(events, n, claim);
    var prompt := StateAt(events, j).prompts[claim.requestId];
    i := HeldWasRecorded(events, j, claim.requestId, prompt);
    forall k | i < k < j && events[k].SessionEvent? && events[k].sessionId == claim.sessionId
      ensures IsRequestFor(events[k], claim.requestId)
    {
      assert !Ends(events[k], claim.requestId, prompt);
    }
  }

  /* ---- Button ids ---- */

  /** Pressing a prompt's button names that prompt's request exactly when the id is not empty and has no colon. */
  lemma {:induction false} ButtonNamesItsRequestIff(allow: bool, id: Text)
    ensures ParseButton(ButtonId(allow, id)) == Some((allow, id)) <==> id != [] && COLON !in id
  {
    var word := if allow then ALLOW else DENY;
    assert ButtonId(allow, id) == PERM + ([COLON] + (word + ([COLON] + id)));
    SplitAfter(PERM, word + ([COLON] + id), COLON);
    SplitAfter(word, id, COLON);
    FirstPart(id, COLON);
    var parts := Split(ButtonId(allow, id), COLON);
    assert parts == [PERM] + ([word] + Split(id, COLON));
    assert parts[1] == word && parts[2] == Split(id, COLON)[0];
  }

  /** With a colon, the button names the request whose id is the part before it. */
  lemma {:induction false} ColonNamesAnother(allow: bool, id: Text, rest: Text)
    requires id != [] && COLON !in id
    ensures ParseButton(ButtonId(allow, id + ([COLON] + rest))) == Some((allow, id))
  {
    var word := if allow then ALLOW else DENY;
    var whole := id + ([COLON] + rest);
    assert ButtonId(allow, whole) == PERM + ([COLON] + (word + ([COLON] + whole)));
    SplitAfter(PERM, word + ([COLON] + whole), COLON);
    SplitAfter(word, whole, COLON);
    SplitAfter(id, rest, COLON);
    var parts := Split(ButtonId(allow, whole), COLON);
    assert parts == [PERM] + ([word] + ([id] + Split(rest, COLON)));
    assert parts[1] == word && parts[2] == id;
  }
}
