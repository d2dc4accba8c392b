/** Password tickets: issueTicket and hasValidTicket of workers/pages/index.js.  The signature
    (HMAC-SHA-256) and the JSON text of the claims are parameters. */
module Tickets {
  import opened JsText
  import opened Wrappers
  import opened Base64Url
  import opened Sequences

  const TTL_SECONDS: nat := 60 * 60 * 12
  const DOT: Unit := 46

  datatype Claims = Claims(id: Text, version: Text, exp: int)

  /** A parsed payload: fields of the wrong type are absent. */
  datatype Parsed = Parsed(id: Option<Text>, version: Option<Text>, exp: Option<int>)

  datatype Protection = Protection(id: Text, version: Option<Text>)

  type Codec = Claims -> Bytes
  type Parser = Bytes -> Option<Parsed>
  type Mac = Text -> Bytes

  function Seconds(nowMs: nat): nat { nowMs / 1000 }

  function Signature(mac: Mac, payload: Text): Text { Encoded(mac(payload)) }

  function IssueTicket(codec: Codec, mac: Mac, id: Text, version: Text, nowMs: nat): Text {
    var payload := Encoded(codec(Claims(id, version, Seconds(nowMs) + TTL_SECONDS)));
    payload + [DOT] + Signature(mac, payload)
  }

  /** Destructuring a missing element yields undefined, which is as falsy as the empty string. */
  function PartAt(parts: seq<Text>, i: nat): Text {
    if i < |parts| then parts[i] else []
  }

  predicate ClaimsHold(p: Parsed, id: Text, version: Text, nowMs: nat) {
    p.id == Some(id) && p.version == Some(version) && p.exp.Some? && p.exp.value > Seconds(nowMs)
  }

  predicate PayloadHolds(parser: Parser, payload: Text, id: Text, version: Text, nowMs: nat) {
    match Base64UrlBytes(payload)
    case None => false
    case Some(bytes) =>
      match parser(bytes)
      case None => false
      case Some(p) => ClaimsHold(p, id, version, nowMs)
  }

  predicate Accepts(parser: Parser, mac: Mac, page: Protection, ticket: Option<Text>, nowMs: nat) {
    page.version.None? ||
    (ticket.Some? && ticket.value != [] &&
     var parts := Split(ticket.value, DOT);
     var payload, signature, extra := PartAt(parts, 0), PartAt(parts, 1), PartAt(parts, 2);
     payload != [] && signature != [] && extra == [] && signature == Signature(mac, payload)
     && PayloadHolds(parser, payload, page.id, page.version.value, nowMs))
  }

  method HasValidTicket(parser: Parser, mac: Mac, page: Protection, ticket: Option<Text>, nowMs: nat) returns (ok: bool)
    ensures ok == Accepts(parser, mac, page, ticket, nowMs)
  {
    if page.version.None? { return true; }
    if ticket.None? || ticket.value == [] { return false; }
    var parts := Split(ticket.value, DOT);
    var payload, signature, extra := PartAt(parts, 0), PartAt(parts, 1), PartAt(parts, 2);
    if payload == [] || signature == [] || extra != [] { return false; }
    var expected := Base64UrlOf(mac(payload));
    var equal := TimingSafeEqual(signature, expected);
    if !equal { return false; }
    return PayloadHolds(parser, payload, page.id, page.version.value, nowMs);
  }

  lemma {:induction false} EncodedHasNoDot(b: Bytes)
    ensures DOT !in Encoded(b)
  {
    EncodedAlphabet(b);
  }

  /** A ticket issued for a page and password version is accepted exactly where the page has no
      password, or id and version are the same and it has not expired. */
  lemma {:induction false} IssuedTicketAcceptedIff(codec: Codec, parser: Parser, mac: Mac, id: Text, version: Text, issuedMs: nat,
                                page: Protection, nowMs: nat)
    requires forall c :: codec(c) != [] && parser(codec(c)) == Some(Parsed(Some(c.id), Some(c.version), Some(c.exp)))
    requires forall t :: mac(t) != []
    ensures Accepts(parser, mac, page, Some(IssueTicket(codec, mac, id, version, issuedMs)), nowMs) <==>
            (page.version.None?
             || (page.id == id && page.version == Some(version) && Seconds(nowMs) < Seconds(issuedMs) + TTL_SECONDS))
  {
    var claims := Claims(id, version, Seconds(issuedMs) + TTL_SECONDS);
    var payload := Encoded(codec(claims));
    var signature := Signature(mac, payload);
    EncodedHasNoDot(codec(claims));
    EncodedHasNoDot(mac(payload));
    Assoc(payload, [DOT], signature);
    SplitAfter(payload, signature, DOT);
    SplitWithout(signature, DOT);
    DecodesWhatWasEncoded(codec(claims));
  }

  /** Nothing else gets in: an accepted ticket for a protected page carries the signature of a
      payload that decodes to that page's id and current password version. */
  lemma {:induction false} AcceptedTicketIsSigned(parser: Parser, mac: Mac, page: Protection, ticket: Text, nowMs: nat)
    requires page.version.Some? && Accepts(parser, mac, page, Some(ticket), nowMs)
    ensures exists payload ::
              && payload + [DOT] + Signature(mac, payload) <= ticket
              && PayloadHolds(parser, payload, page.id, page.version.value, nowMs)
  {
    var parts := Split(ticket, DOT);
    SplitPrefix(ticket, DOT);
    var payload := parts[0];
    assert payload + [DOT] + Signature(mac, payload) <= ticket;
  }
}
