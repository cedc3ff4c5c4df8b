/**
  The body of one upsert-protectsurface-location-state request: one item per
  (protect surface, location), carrying one state per content type recorded there.
 */
module Payload {
  import opened OrderedMaps
  import opened IntendedStates
  import opened Geocoder

  /** Every item the enumerator upserts has this relevance. */
  const Relevance: int := 60

  /** One element of `states`; `contentType` is sent as `contentType.Name()`. */
  datatype StateEntry = StateEntry(maintainer: string, description: string, contentType: ContentType, content: seq<string>)

  /** `location_uniqueness_key`, the string `<location>_<lat>_<long>`: kept as the three
      values it is rendered from, since Python's float formatting is not modelled. */
  datatype LocationKey = LocationKey(location: string, lat: real, long: real)

  datatype Item = Item(
    protectSurfaceKey: string,
    locationKey: LocationKey,
    protectSurfaceName: string,
    relevance: int,
    locationName: string,
    coords: Coordinates,
    states: seq<StateEntry>)

  datatype UpsertBody = UpsertBody(items: seq<Item>)

  /** `state_contents`: the (content type, identifiers) pairs of one location, in the
      location's key order. */
  function StateContents(ls: LocationState): (contents: seq<(ContentType, seq<string>)>)
    ensures |contents| == |ls.keys|
  {
    ContentsOver(ls, ls.keys)
  }

  function ContentsOver(ls: LocationState, cts: seq<ContentType>): (contents: seq<(ContentType, seq<string>)>)
    ensures |contents| == |cts|
  {
    if cts == [] then [] else ContentsOver(ls, cts[..|cts| - 1]) + [(cts[|cts| - 1], IdsAt(ls, cts[|cts| - 1]))]
  }

  lemma {:induction false} ContentsOverPointwise(ls: LocationState, cts: seq<ContentType>)
    ensures |ContentsOver(ls, cts)| == |cts|
    ensures forall i | 0 <= i < |cts| :: ContentsOver(ls, cts)[i] == (cts[i], IdsAt(ls, cts[i]))
    decreases |cts|
  {
    if cts != [] {
      ContentsOverPointwise(ls, cts[..|cts| - 1]);
    }
  }

  /** The state the service receives for one content type of protect surface `name`. */
  function StateEntryFor(name: string, provider: string, content: (ContentType, seq<string>)): (e: StateEntry)
    ensures e.maintainer == provider && e.description == name + " " + content.0.Name()
    ensures e.contentType == content.0 && e.content == content.1
  {
    StateEntry(provider, name + " " + content.0.Name(), content.0, content.1)
  }

  /** construct_state_body: one state per element of `state_contents`, in order. */
  function StateBody(name: string, provider: string, contents: seq<(ContentType, seq<string>)>): (states: seq<StateEntry>)
    ensures |states| == |contents|
  {
    if contents == [] then []
    else StateBody(name, provider, contents[..|contents| - 1]) + [StateEntryFor(name, provider, contents[|contents| - 1])]
  }

  lemma {:induction false} StateBodyPointwise(name: string, provider: string, contents: seq<(ContentType, seq<string>)>)
    ensures |StateBody(name, provider, contents)| == |contents|
    ensures forall i | 0 <= i < |contents| :: StateBody(name, provider, contents)[i] == StateEntryFor(name, provider, contents[i])
    decreases |contents|
  {
    if contents != [] {
      StateBodyPointwise(name, provider, contents[..|contents| - 1]);
    }
  }

  /** Lines 142-152. */
  method ConstructStateBody(name: string, provider: string, contents: seq<(ContentType, seq<string>)>) returns (body: seq<StateEntry>)
    ensures body == StateBody(name, provider, contents)
  {
    body := [];
    var i := 0;
    while i < |contents|
      invariant 0 <= i <= |contents|
      invariant body == StateBody(name, provider, contents[..i])
    {
      var (contentType, content) := contents[i];
      assert contents[..i + 1][..i] == contents[..i];
      body := body + [StateEntry(provider, name + " " + contentType.Name(), contentType, content)];
      i := i + 1;
    }
    assert contents[..i] == contents;
  }

  /** Each level of a well-formed state, looked up or empty, is a valid dictionary of
      non-empty lists. */
  lemma LocationOfWellFormed(s: IntendedState, g: string, l: string)
    requires WellFormed(s)
    ensures var ls := LocationOf(GroupOf(s, g), l);
            Valid(ls) && forall ct :: ct in ls.vals ==> ls.vals[ct] != []
  {
    if g in s.vals && l in s.vals[g].vals {
      assert GroupWellFormed(s.vals[g]);
      assert LocationWellFormed(s.vals[g].vals[l]);
    }
  }

  /** The states built from one location's `state_contents`, stated over the location
      itself: one per content type it holds, in key order. */
  lemma LocationStates(ls: LocationState, g: string, provider: string)
    requires Valid(ls)
    ensures var states := StateBody(g, provider, StateContents(ls));
            && |states| == |ls.keys|
            && (forall i | 0 <= i < |states| ::
                  && states[i].maintainer == provider
                  && states[i].description == g + " " + ls.keys[i].Name()
                  && states[i].contentType == ls.keys[i]
                  && states[i].content == IdsAt(ls, ls.keys[i]))
  {
    ContentsOverPointwise(ls, ls.keys);
    StateBodyPointwise(g, provider, StateContents(ls));
  }

  /** The states sent for location `l` of protect surface `g` are exactly its recorded
      lists: one state per content type that holds identifiers, none twice, each
      maintained by the provider, described as "<g> <content type>", and carrying the
      whole list. */
  lemma StatesMatchIntendedState(s: IntendedState, g: string, l: string, provider: string)
    requires WellFormed(s)
    ensures var states := StateBody(g, provider, StateContents(LocationOf(GroupOf(s, g), l)));
            && (forall i | 0 <= i < |states| ::
                  && states[i].maintainer == provider
                  && states[i].description == g + " " + states[i].contentType.Name()
                  && states[i].content == Entries(s, g, l, states[i].contentType))
            && (forall i, j | 0 <= i < j < |states| :: states[i].contentType != states[j].contentType)
            && (forall ct :: Entries(s, g, l, ct) != [] <==> exists i :: 0 <= i < |states| && states[i].contentType == ct)
  {
    var ls := LocationOf(GroupOf(s, g), l);
    LocationOfWellFormed(s, g, l);
    LocationStates(ls, g, provider);
    var states := StateBody(g, provider, StateContents(ls));
    assert forall ct :: Entries(s, g, l, ct) == IdsAt(ls, ct);
    forall ct ensures Entries(s, g, l, ct) != [] <==> exists i :: 0 <= i < |states| && states[i].contentType == ct {
      if Entries(s, g, l, ct) != [] {
        assert ct in ls.keys;
        var i :| 0 <= i < |ls.keys| && ls.keys[i] == ct;
        assert states[i].contentType == ct;
      }
    }
  }

  /** `str.replace(' ', '_')`. */
  function ReplaceSpaces(s: string): (r: string)
    ensures |r| == |s|
    ensures forall i | 0 <= i < |s| :: r[i] == if s[i] == ' ' then '_' else s[i]
  {
    if s == [] then [] else [if s[0] == ' ' then '_' else s[0]] + ReplaceSpaces(s[1..])
  }

  /** A uniqueness key has no spaces, and a name without spaces is its own key. */
  lemma ReplaceSpacesProperties(s: string)
    ensures ' ' !in ReplaceSpaces(s)
    ensures ' ' !in s ==> ReplaceSpaces(s) == s
    ensures ReplaceSpaces(ReplaceSpaces(s)) == ReplaceSpaces(s)
  {
    var r := ReplaceSpaces(s);
    assert forall i | 0 <= i < |r| :: r[i] != ' ';
  }

  /** The body upsert_protectsurface_to_auxo posts for one protect surface and location. */
  function UpsertBodyFor(name: string, location: string, coords: Coordinates, provider: string,
                         contents: seq<(ContentType, seq<string>)>): (b: UpsertBody)
    ensures |b.items| == 1
    ensures b.items[0].protectSurfaceKey == ReplaceSpaces(name) && ' ' !in b.items[0].protectSurfaceKey
    ensures b.items[0].protectSurfaceName == name && b.items[0].locationName == location
    ensures b.items[0].locationKey == LocationKey(location, coords.lat, coords.long)
    ensures b.items[0].relevance == 60 && b.items[0].coords == coords
    ensures |b.items[0].states| == |contents|
  {
    ReplaceSpacesProperties(name);
    StateBodyPointwise(name, provider, contents);
    UpsertBody([Item(ReplaceSpaces(name), LocationKey(location, coords.lat, coords.long), name, Relevance,
                     location, coords, StateBody(name, provider, contents))])
  }

  /** The i-th state of the body is built from the i-th `state_contents` pair: maintained
      by the provider, described as "<name> <content type>", carrying that pair's list. */
  lemma UpsertBodyStates(name: string, location: string, coords: Coordinates, provider: string,
                         contents: seq<(ContentType, seq<string>)>)
    ensures var states := UpsertBodyFor(name, location, coords, provider, contents).items[0].states;
            forall i | 0 <= i < |contents| ::
              && states[i].maintainer == provider
              && states[i].description == name + " " + contents[i].0.Name()
              && states[i].contentType == contents[i].0
              && states[i].content == contents[i].1
  {
    StateBodyPointwise(name, provider, contents);
  }
}
