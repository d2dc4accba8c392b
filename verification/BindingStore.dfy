/** Channel bindings: packages/messaging-gateway/src/binding-store.ts. */
module BindingStore {
  import opened JsText
  import opened Messaging
  import opened Wrappers
  import opened Sequences
  import opened AccessPolicy

  datatype Binding = Binding(
    id: Text, workspaceId: Text, sessionId: Text, platform: Platform, channelId: Text, threadId: Option<int>,
    channelName: Option<Text>, enabled: bool, createdAt: int, config: BindingConfig)

  /** Where messages come from: one binding answers for it. */
  datatype Place = Place(platform: Platform, channelId: Text, threadId: Option<int>)

  function PlaceOf(b: Binding): Place { Place(b.platform, b.channelId, b.threadId) }

  /** Drops the bindings of a place, or of a session on a platform. */
  datatype Removal = OfPlace(place: Place) | OfId(id: Text) | OfSession(sessionId: Text, platform: Option<Platform>)

  predicate Removes(r: Removal, b: Binding) {
    match r
    case OfPlace(place) => PlaceOf(b) == place
    case OfId(id) => b.id == id
    case OfSession(sessionId, platform) => b.sessionId == sessionId && (platform.Some? ==> b.platform == platform.value)
  }

  function Without(bindings: seq<Binding>, r: Removal): (kept: seq<Binding>)
    ensures |kept| <= |bindings|
  {
    if bindings == [] then [] else (if Removes(r, bindings[0]) then [] else [bindings[0]]) + Without(bindings[1..], r)
  }

  function Bound(bindings: seq<Binding>, b: Binding): seq<Binding> {
    Without(bindings, OfPlace(PlaceOf(b))) + [b]
  }

  function IdIndex(bindings: seq<Binding>, id: Text): (i: nat)
    ensures i <= |bindings| && (i < |bindings| ==> bindings[i].id == id)
    ensures forall j | 0 <= j < i :: bindings[j].id != id
  {
    FirstIndex(bindings, (b: Binding) => b.id == id)
  }

  function Patched(b: Binding, patch: PartialConfig): Binding {
    b.(config := Normalize(b.platform, Some(Overlay(b.config, patch))))
  }

  function Updated(bindings: seq<Binding>, id: Text, patch: PartialConfig): (updated: seq<Binding>)
    ensures |updated| == |bindings|
  {
    var i := IdIndex(bindings, id);
    if i < |bindings| then bindings[i := Patched(bindings[i], patch)] else bindings
  }

  /** The binding a message at this place reaches. */
  function Found(bindings: seq<Binding>, place: Place): (r: Option<Binding>)
    ensures r.Some? ==> r.value in bindings && PlaceOf(r.value) == place && r.value.enabled
    ensures r.None? <==> forall b | b in bindings :: PlaceOf(b) != place || !b.enabled
  {
    if bindings == [] then None
    else if PlaceOf(bindings[0]) == place && bindings[0].enabled then Some(bindings[0])
    else Found(bindings[1..], place)
  }

  class Store {
    var bindings: seq<Binding>

    constructor (loaded: seq<Binding>)
      ensures bindings == loaded
    {
      bindings := loaded;
    }

    method Bind(id: Text, workspaceId: Text, sessionId: Text, platform: Platform, channelId: Text,
                channelName: Option<Text>, config: Option<PartialConfig>, threadId: Option<int>, now: int)
      returns (binding: Binding)
      modifies this
      ensures binding == Binding(id, workspaceId, sessionId, platform, channelId, threadId, channelName, true, now, Normalize(platform, config))
      ensures bindings == Bound(old(bindings), binding)
    {
      bindings := Without(bindings, OfPlace(Place(platform, channelId, threadId)));
      binding := Binding(id, workspaceId, sessionId, platform, channelId, threadId, channelName, true, now, Normalize(platform, config));
      bindings := bindings + [binding];
    }

    method UpdateBindingConfig(bindingId: Text, patch: PartialConfig) returns (found: bool)
      modifies this
      ensures bindings == Updated(old(bindings), bindingId, patch)
      ensures found <==> exists b :: b in old(bindings) && b.id == bindingId
    {
      var i := IdIndex(bindings, bindingId);
      if i == |bindings| { return false; }
      bindings := bindings[i := Patched(bindings[i], patch)];
      found := true;
    }

    method Unbind(place: Place) returns (removed: bool)
      modifies this
      ensures bindings == Without(old(bindings), OfPlace(place))
      ensures forall b :: b in bindings <==>
                b in old(bindings)
                && !(b.platform == place.platform && b.channelId == place.channelId && b.threadId == place.threadId)
      ensures removed <==> bindings != old(bindings)
    {
      var before := bindings;
      WithoutAll(before, OfPlace(place));
      RemovalIsExact(before, OfPlace(place));
      bindings := Without(bindings, OfPlace(place));
      removed := |bindings| != |before|;
    }

    method UnbindById(bindingId: Text) returns (removed: bool)
      modifies this
      ensures bindings == Without(old(bindings), OfId(bindingId))
      ensures forall b :: b in bindings <==> b in old(bindings) && b.id != bindingId
      ensures removed <==> bindings != old(bindings)
    {
      WithoutAll(bindings, OfId(bindingId));
      WithoutMembers(bindings, OfId(bindingId));
      if IdIndex(bindings, bindingId) == |bindings| {
        WithoutNone(bindings, OfId(bindingId));
        return false;
      }
      assert Removes(OfId(bindingId), bindings[IdIndex(bindings, bindingId)]);
      bindings := Without(bindings, OfId(bindingId));
      removed := true;
    }

    method UnbindSession(sessionId: Text, platform: Option<Platform>) returns (count: nat)
      modifies this
      ensures bindings == Without(old(bindings), OfSession(sessionId, platform))
      ensures forall b :: b in bindings <==>
                b in old(bindings) && !(b.sessionId == sessionId && (platform == None || platform == Some(b.platform)))
      ensures count == |old(bindings)| - |bindings|
    {
      RemovalIsExact(bindings, OfSession(sessionId, platform));
      var kept := Without(bindings, OfSession(sessionId, platform));
      count := |bindings| - |kept|;
      bindings := kept;
    }

    method FindByChannel(place: Place) returns (r: Option<Binding>)
      ensures r == Found(bindings, place)
    {
      var i := 0;
      while i < |bindings|
        invariant 0 <= i <= |bindings|
        invariant Found(bindings[i..], place) == Found(bindings, place)
      {
        if PlaceOf(bindings[i]) == place && bindings[i].enabled { return Some(bindings[i]); }
        i := i + 1;
      }
      r := None;
    }
  }

  /* ---- Facts ---- */

  lemma {:induction false} WithoutMembers(bindings: seq<Binding>, r: Removal)
    ensures forall b :: b in Without(bindings, r) <==> b in bindings && !Removes(r, b)
  {
    if bindings != [] {
      WithoutMembers(bindings[1..], r);
      assert bindings == [bindings[0]] + bindings[1..];
    }
  }

  /** A removal drops every binding it is about, and no other; the others stay in order. */
  lemma {:induction false} RemovalIsExact(bindings: seq<Binding>, r: Removal)
    ensures forall b :: b in Without(bindings, r) <==>
              b in bindings
              && match r
                 case OfPlace(place) =>
                   b.platform != place.platform || b.channelId != place.channelId || b.threadId != place.threadId
                 case OfId(id) => b.id != id
                 case OfSession(sessionId, platform) =>
                   b.sessionId != sessionId || (platform.Some? && platform.value != b.platform)
    ensures forall i | 0 <= i <= |bindings| :: Without(bindings, r) == Without(bindings[..i], r) + Without(bindings[i..], r)
  {
    WithoutMembers(bindings, r);
    forall i | 0 <= i <= |bindings| ensures Without(bindings, r) == Without(bindings[..i], r) + Without(bindings[i..], r) {
      assert bindings == bindings[..i] + bindings[i..];
      WithoutConcat(bindings[..i], bindings[i..], r);
    }
  }

  lemma {:induction false} WithoutConcat(a: seq<Binding>, b: seq<Binding>, r: Removal)
    ensures Without(a + b, r) == Without(a, r) + Without(b, r)
  {
    if a == [] {
      assert a + b == b;
    } else {
      assert (a + b)[1..] == a[1..] + b;
      WithoutConcat(a[1..], b, r);
    }
  }

  lemma {:induction false} WithoutAll(bindings: seq<Binding>, r: Removal)
    ensures |Without(bindings, r)| == |bindings| ==> Without(bindings, r) == bindings
  {
    if bindings != [] {
      WithoutAll(bindings[1..], r);
      assert bindings == [bindings[0]] + bindings[1..];
    }
  }

  lemma {:induction false} WithoutNone(bindings: seq<Binding>, r: Removal)
    requires forall i | 0 <= i < |bindings| :: !Removes(r, bindings[i])
    ensures Without(bindings, r) == bindings
  {
    if bindings != [] {
      WithoutNone(bindings[1..], r);
      assert bindings == [bindings[0]] + bindings[1..];
    }
  }

  /** What any removal does to what a place reaches, when it takes all of the place's bindings or none. */
  lemma {:induction false} FoundWithout(bindings: seq<Binding>, r: Removal, place: Place)
    requires forall b | b in bindings && PlaceOf(b) == place :: !Removes(r, b)
    ensures Found(Without(bindings, r), place) == Found(bindings, place)
  {
    if bindings != [] {
      var rest := Without(bindings[1..], r);
      FoundWithout(bindings[1..], r, place);
      FoundInFront(bindings[0], rest, place);
      assert bindings[0] in bindings;
      assert [] + rest == rest;
    }
  }

  lemma {:induction false} FoundInFront(b: Binding, rest: seq<Binding>, place: Place)
    ensures Found([b] + rest, place) == if PlaceOf(b) == place && b.enabled then Some(b) else Found(rest, place)
  {
    assert ([b] + rest)[1..] == rest;
  }

  lemma {:induction false} FoundAppend(a: seq<Binding>, b: seq<Binding>, place: Place)
    ensures Found(a + b, place) == if Found(a, place).Some? then Found(a, place) else Found(b, place)
  {
    if a == [] {
      assert a + b == b;
    } else {
      assert (a + b)[1..] == a[1..] + b;
      FoundAppend(a[1..], b, place);
    }
  }

  /** One place, one session: binding a place makes it reach the new binding, and leaves every other
      place reaching what it reached. */
  lemma {:induction false} BindRedirectsOnePlace(bindings: seq<Binding>, b: Binding, place: Place)
    requires b.enabled
    ensures Found(Bound(bindings, b), place) == if place == PlaceOf(b) then Some(b) else Found(bindings, place)
  {
    var r := OfPlace(PlaceOf(b));
    FoundAppend(Without(bindings, r), [b], place);
    WithoutMembers(bindings, r);
    if place != PlaceOf(b) { FoundWithout(bindings, r, place); }
  }

  /** Unbinding a place leaves it unreachable, and every other place reaching what it reached. */
  lemma {:induction false} UnbindClearsOnePlace(bindings: seq<Binding>, gone: Place, place: Place)
    ensures Found(Without(bindings, OfPlace(gone)), place) == if place == gone then None else Found(bindings, place)
  {
    WithoutMembers(bindings, OfPlace(gone));
    if place != gone { FoundWithout(bindings, OfPlace(gone), place); }
  }

  predicate UniqueIds(bindings: seq<Binding>) { forall i, j | 0 <= i < j < |bindings| :: bindings[i].id != bindings[j].id }

  lemma {:induction false} WithoutKeepsUnique(bindings: seq<Binding>, r: Removal)
    requires UniqueIds(bindings)
    ensures UniqueIds(Without(bindings, r))
  {
    if bindings != [] {
      WithoutKeepsUnique(bindings[1..], r);
      WithoutMembers(bindings[1..], r);
      var rest := Without(bindings[1..], r);
      forall i | 0 <= i < |rest| ensures rest[i].id != bindings[0].id {
        assert rest[i] in bindings[1..];
      }
    }
  }

  /** A config update reaches the one binding with that id. */
  lemma {:induction false} UpdatedAt(bindings: seq<Binding>, id: Text, patch: PartialConfig, k: nat)
    requires UniqueIds(bindings) && k < |bindings|
    ensures Updated(bindings, id, patch)[k] == if bindings[k].id == id then Patched(bindings[k], patch) else bindings[k]
    ensures UniqueIds(Updated(bindings, id, patch))
  {
    assert bindings[k].id == id ==> IdIndex(bindings, id) == k;
  }
}
