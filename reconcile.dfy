/**
  One reconciliation run (`main`): upsert every (protect surface, location) of the
  intended state, then read back the provider's states from the service and remove
  those whose protect surface is no longer in the intended state.
 */
module Reconciler {
  import opened Wrappers
  import opened OrderedMaps
  import opened IntendedStates
  import opened Geocoder
  import opened Payload
  import opened AuxoApi
  import opened Enumerator

  /** What a run reads from the environment at start-up: the tag naming a resource's
      protect surface and the provider id written as `maintainer`. */
  datatype Config = Config(protectSurfaceTag: string, providerId: string)

  // ---------------------------------------------------------------------------
  // Upserts (source lines 129-187)
  // ---------------------------------------------------------------------------

  /** The locations of group `g`, paired with `g`, in order. */
  function LocationPairs(g: string, ls: seq<string>): (r: seq<(string, string)>)
    ensures |r| == |ls|
    ensures forall j | 0 <= j < |ls| :: r[j] == (g, ls[j])
  {
    if ls == [] then [] else LocationPairs(g, ls[..|ls| - 1]) + [(g, ls[|ls| - 1])]
  }

  /** Every (group, location) of the groups `gs`, group by group, in key order. */
  function PairsOver(s: IntendedState, gs: seq<string>): seq<(string, string)> {
    if gs == [] then [] else PairsOver(s, gs[..|gs| - 1]) + LocationPairs(gs[|gs| - 1], GroupOf(s, gs[|gs| - 1]).keys)
  }

  /** The order in which prepare_api_body_and_execute_api_call visits the state. */
  function Pairs(s: IntendedState): seq<(string, string)> {
    PairsOver(s, s.keys)
  }

  lemma {:induction false} PairsOverExact(s: IntendedState, gs: seq<string>)
    requires WellFormed(s)
    requires forall i, j :: 0 <= i < j < |gs| ==> gs[i] != gs[j]
    ensures forall g, l :: (g, l) in PairsOver(s, gs) <==> g in gs && l in GroupOf(s, g).vals
    ensures forall i, j :: 0 <= i < j < |PairsOver(s, gs)| ==> PairsOver(s, gs)[i] != PairsOver(s, gs)[j]
    decreases |gs|
  {
    if gs != [] {
      var prefix := gs[..|gs| - 1];
      var g := gs[|gs| - 1];
      PairsOverExact(s, prefix);
      var front := PairsOver(s, prefix);
      var block := LocationPairs(g, GroupOf(s, g).keys);
      assert Valid(GroupOf(s, g)) by {
        if g in s.vals { assert GroupWellFormed(s.vals[g]); }
      }
      assert PairsOver(s, gs) == front + block;
      forall i, j | 0 <= i < j < |front + block| ensures (front + block)[i] != (front + block)[j] {
        if j >= |front| && i < |front| {
          assert front[i] in front;
          assert front[i].0 in prefix;
        }
      }
    }
  }

  /** Each (group, location) of a well-formed state is visited exactly once. */
  lemma PairsExact(s: IntendedState)
    requires WellFormed(s)
    ensures forall g, l :: (g, l) in Pairs(s) <==> g in s.vals && l in s.vals[g].vals
    ensures forall i, j :: 0 <= i < j < |Pairs(s)| ==> Pairs(s)[i] != Pairs(s)[j]
  {
    PairsOverExact(s, s.keys);
  }

  /** The body upserted for (group, location) `p`. */
  function UpsertBodyAt(s: IntendedState, cfg: Config, p: (string, string)): UpsertBody {
    UpsertBodyFor(p.0, p.1, LocationCoords(p.1), cfg.providerId, StateContents(LocationOf(GroupOf(s, p.0), p.1)))
  }

  function UpsertCalls(s: IntendedState, cfg: Config, pairs: seq<(string, string)>): (calls: seq<ApiCall>)
    ensures |calls| == |pairs|
  {
    if pairs == [] then []
    else UpsertCalls(s, cfg, pairs[..|pairs| - 1]) + [ApiCall.Upsert(UpsertBodyAt(s, cfg, pairs[|pairs| - 1]))]
  }

  lemma {:induction false} UpsertCallsPointwise(s: IntendedState, cfg: Config, pairs: seq<(string, string)>)
    ensures |UpsertCalls(s, cfg, pairs)| == |pairs|
    ensures forall i | 0 <= i < |pairs| :: UpsertCalls(s, cfg, pairs)[i] == ApiCall.Upsert(UpsertBodyAt(s, cfg, pairs[i]))
    decreases |pairs|
  {
    if pairs != [] {
      var front := pairs[..|pairs| - 1];
      UpsertCallsPointwise(s, cfg, front);
      var calls := UpsertCalls(s, cfg, front) + [ApiCall.Upsert(UpsertBodyAt(s, cfg, pairs[|pairs| - 1]))];
      assert UpsertCalls(s, cfg, pairs) == calls;
      forall i | 0 <= i < |pairs| ensures calls[i] == ApiCall.Upsert(UpsertBodyAt(s, cfg, pairs[i])) {
        if i < |front| {
          assert calls[i] == UpsertCalls(s, cfg, front)[i];
          assert pairs[i] == front[i];
        }
      }
    }
  }

  lemma UpsertCallsSnoc(s: IntendedState, cfg: Config, pairs: seq<(string, string)>, p: (string, string))
    ensures UpsertCalls(s, cfg, pairs + [p]) == UpsertCalls(s, cfg, pairs) + [ApiCall.Upsert(UpsertBodyAt(s, cfg, p))]
  {
    assert (pairs + [p])[..|pairs|] == pairs;
  }

  lemma LocationPairsSnoc(g: string, ls: seq<string>, j: nat)
    requires j < |ls|
    ensures LocationPairs(g, ls[..j + 1]) == LocationPairs(g, ls[..j]) + [(g, ls[j])]
  {
    assert ls[..j + 1][..j] == ls[..j];
  }

  lemma PairsOverSnoc(s: IntendedState, gs: seq<string>, i: nat)
    requires i < |gs|
    ensures PairsOver(s, gs[..i + 1]) == PairsOver(s, gs[..i]) + LocationPairs(gs[i], GroupOf(s, gs[i]).keys)
  {
    assert gs[..i + 1][..i] == gs[..i];
  }

  /** The requests prepare_api_body_and_execute_api_call sends. */
  function UpsertRequests(s: IntendedState, cfg: Config): (calls: seq<ApiCall>)
    ensures |calls| == |Pairs(s)|
  {
    UpsertCalls(s, cfg, Pairs(s))
  }

  /** A body names the (protect surface, location) it was built for. */
  lemma UpsertBodyNames(s: IntendedState, cfg: Config, p: (string, string))
    ensures |UpsertBodyAt(s, cfg, p).items| == 1
    ensures UpsertBodyAt(s, cfg, p).items[0].protectSurfaceName == p.0
    ensures UpsertBodyAt(s, cfg, p).items[0].locationName == p.1
  {
  }

  /** Distinct (protect surface, location) pairs give distinct requests. */
  lemma UpsertCallsDistinct(s: IntendedState, cfg: Config, pairs: seq<(string, string)>)
    requires forall i, j :: 0 <= i < j < |pairs| ==> pairs[i] != pairs[j]
    ensures forall i, j | 0 <= i < j < |UpsertCalls(s, cfg, pairs)| :: UpsertCalls(s, cfg, pairs)[i] != UpsertCalls(s, cfg, pairs)[j]
  {
    UpsertCallsPointwise(s, cfg, pairs);
    var calls := UpsertCalls(s, cfg, pairs);
    forall i, j | 0 <= i < j < |calls| ensures calls[i] != calls[j] {
      UpsertBodyNames(s, cfg, pairs[i]);
      UpsertBodyNames(s, cfg, pairs[j]);
    }
  }

  /** The request for pair `p` is among those for `pairs` exactly when `p` is. */
  lemma UpsertCallsMembership(s: IntendedState, cfg: Config, pairs: seq<(string, string)>, p: (string, string))
    ensures ApiCall.Upsert(UpsertBodyAt(s, cfg, p)) in UpsertCalls(s, cfg, pairs) <==> p in pairs
  {
    UpsertCallsPointwise(s, cfg, pairs);
    var calls := UpsertCalls(s, cfg, pairs);
    if p in pairs {
      var i :| 0 <= i < |pairs| && pairs[i] == p;
      assert calls[i] == ApiCall.Upsert(UpsertBodyAt(s, cfg, p));
    }
    if ApiCall.Upsert(UpsertBodyAt(s, cfg, p)) in calls {
      var i :| 0 <= i < |calls| && calls[i] == ApiCall.Upsert(UpsertBodyAt(s, cfg, p));
      UpsertBodyNames(s, cfg, pairs[i]);
      UpsertBodyNames(s, cfg, p);
      assert pairs[i] == p;
    }
  }

  /** One upsert per (protect surface, location) of the intended state and no other:
      every request is an upsert, the body for (g, l) is sent exactly when l is a
      location of g, and no request is sent twice. */
  lemma OneUpsertPerLocation(s: IntendedState, cfg: Config)
    requires WellFormed(s)
    ensures forall c | c in UpsertRequests(s, cfg) :: c.Upsert?
    ensures forall g, l :: ApiCall.Upsert(UpsertBodyAt(s, cfg, (g, l))) in UpsertRequests(s, cfg) <==> g in s.vals && l in s.vals[g].vals
    ensures forall i, j | 0 <= i < j < |UpsertRequests(s, cfg)| :: UpsertRequests(s, cfg)[i] != UpsertRequests(s, cfg)[j]
  {
    PairsExact(s);
    UpsertCallsPointwise(s, cfg, Pairs(s));
    UpsertCallsDistinct(s, cfg, Pairs(s));
    forall g, l ensures ApiCall.Upsert(UpsertBodyAt(s, cfg, (g, l))) in UpsertRequests(s, cfg) <==> g in s.vals && l in s.vals[g].vals {
      UpsertCallsMembership(s, cfg, Pairs(s), (g, l));
    }
  }

  /** upsert_protectsurface_to_auxo (lines 157-187): build the body, post it. */
  method UpsertProtectSurface(api: AuxoClient, name: string, location: string, coords: Coordinates,
                              cfg: Config, stateContents: seq<(ContentType, seq<string>)>)
    modifies api
    ensures api.log == old(api.log) + [ApiCall.Upsert(UpsertBodyFor(name, location, coords, cfg.providerId, stateContents))]
  {
    var states := ConstructStateBody(name, cfg.providerId, stateContents);
    var item := Item(ReplaceSpaces(name), LocationKey(location, coords.lat, coords.long), name, Relevance, location, coords, states);
    api.Upsert(UpsertBody([item]));
  }

  /** Lines 133-137: one location of one protect surface: collect its
      `state_contents` in key order, look up its coordinates, upsert. */
  method UpsertLocation(s: IntendedState, cfg: Config, api: AuxoClient, protectSurfaceName: string, location: string)
    modifies api
    ensures api.log == old(api.log) + [ApiCall.Upsert(UpsertBodyAt(s, cfg, (protectSurfaceName, location)))]
  {
    var ls := LocationOf(GroupOf(s, protectSurfaceName), location);
    var stateContents := [];
    var latLong := LocationCoords(location);
    var k := 0;
    while k < |ls.keys|
      invariant 0 <= k <= |ls.keys|
      invariant stateContents == ContentsOver(ls, ls.keys[..k])
    {
      assert ls.keys[..k + 1][..k] == ls.keys[..k];
      stateContents := stateContents + [(ls.keys[k], IdsAt(ls, ls.keys[k]))];
      k := k + 1;
    }
    assert ls.keys[..k] == ls.keys;
    UpsertProtectSurface(api, protectSurfaceName, location, latLong, cfg, stateContents);
  }

  lemma {:induction false} UpsertCallsAppend(s: IntendedState, cfg: Config, a: seq<(string, string)>, b: seq<(string, string)>)
    ensures UpsertCalls(s, cfg, a + b) == UpsertCalls(s, cfg, a) + UpsertCalls(s, cfg, b)
    decreases |b|
  {
    if b == [] {
      assert a + b == a;
    } else {
      assert (a + b)[..|a + b| - 1] == a + b[..|b| - 1];
      UpsertCallsAppend(s, cfg, a, b[..|b| - 1]);
    }
  }

  /** Lines 132-137: every location of one protect surface, in key order. */
  method UpsertGroup(s: IntendedState, cfg: Config, api: AuxoClient, protectSurfaceName: string)
    modifies api
    ensures api.log == old(api.log) + UpsertCalls(s, cfg, LocationPairs(protectSurfaceName, GroupOf(s, protectSurfaceName).keys))
  {
    var locations := GroupOf(s, protectSurfaceName).keys;
    var j := 0;
    while j < |locations|
      invariant 0 <= j <= |locations|
      invariant api.log == old(api.log) + UpsertCalls(s, cfg, LocationPairs(protectSurfaceName, locations[..j]))
    {
      var location := locations[j];
      LocationPairsSnoc(protectSurfaceName, locations, j);
      UpsertCallsSnoc(s, cfg, LocationPairs(protectSurfaceName, locations[..j]), (protectSurfaceName, location));
      UpsertLocation(s, cfg, api, protectSurfaceName, location);
      AppendAssociative(old(api.log), UpsertCalls(s, cfg, LocationPairs(protectSurfaceName, locations[..j])),
                        [ApiCall.Upsert(UpsertBodyAt(s, cfg, (protectSurfaceName, location)))]);
      j := j + 1;
    }
    assert locations[..j] == locations;
  }

  lemma AppendAssociative<T>(a: seq<T>, b: seq<T>, c: seq<T>)
    ensures (a + b) + c == a + (b + c)
  {
  }

  /** prepare_api_body_and_execute_api_call (lines 129-138). */
  method PrepareApiBodyAndExecute(s: IntendedState, cfg: Config, api: AuxoClient)
    modifies api
    ensures api.log == old(api.log) + UpsertRequests(s, cfg)
  {
    var i := 0;
    while i < |s.keys|
      invariant 0 <= i <= |s.keys|
      invariant api.log == old(api.log) + UpsertCalls(s, cfg, PairsOver(s, s.keys[..i]))
    {
      var protectSurfaceName := s.keys[i];
      ghost var front := PairsOver(s, s.keys[..i]);
      ghost var group := LocationPairs(protectSurfaceName, GroupOf(s, protectSurfaceName).keys);
      PairsOverSnoc(s, s.keys, i);
      UpsertCallsAppend(s, cfg, front, group);
      ghost var before := api.log;
      UpsertGroup(s, cfg, api, protectSurfaceName);
      assert api.log == before + UpsertCalls(s, cfg, group);
      AppendAssociative(old(api.log), UpsertCalls(s, cfg, front), UpsertCalls(s, cfg, group));
      assert api.log == old(api.log) + UpsertCalls(s, cfg, PairsOver(s, s.keys[..i + 1]));
      i := i + 1;
    }
    assert s.keys[..i] == s.keys;
  }

  // ---------------------------------------------------------------------------
  // The provider's states in the service (source lines 344-351)
  // ---------------------------------------------------------------------------

  /** `api_maintained_state_list`: protect surface name -> state ids. */
  type RemoteIndex = OMap<string, seq<string>>

  function IdsIn(idx: RemoteIndex, name: string): seq<string> {
    if name in idx.vals then idx.vals[name] else []
  }

  /** `setdefault(name, [])` followed by `append(id)`. */
  function AddToIndex(idx: RemoteIndex, name: string, id: string): (r: RemoteIndex)
    ensures Valid(idx) ==> Valid(r)
    ensures IdsIn(r, name) == IdsIn(idx, name) + [id]
    ensures forall n | n != name :: IdsIn(r, n) == IdsIn(idx, n)
  {
    Put(idx, name, IdsIn(idx, name) + [id])
  }

  /** create_dictionary_of_api_maintained_states_in_auxo over `records`; `None` when a
      record of the provider names a protect surface the service cannot find. */
  function IndexOf(records: seq<RemoteRecord>, provider: string, names: map<string, string>): (index: Option<RemoteIndex>)
    ensures index.Some? ==> Valid(index.value)
  {
    if records == [] then Some(Empty())
    else
      match IndexOf(records[..|records| - 1], provider, names)
      case None => None
      case Some(idx) =>
        var r := records[|records| - 1];
        if r.maintainer != provider then Some(idx)
        else if r.protectSurfaceId !in names then None
        else Some(AddToIndex(idx, names[r.protectSurfaceId], r.id))
  }

  /** The name lookups that function makes: one per record of the provider, up to the
      first that fails. */
  function LookupCalls(records: seq<RemoteRecord>, provider: string, names: map<string, string>): (calls: seq<ApiCall>)
    ensures |calls| <= |records|
  {
    if records == [] then []
    else
      var prefix := records[..|records| - 1];
      var r := records[|records| - 1];
      if IndexOf(prefix, provider, names).None? || r.maintainer != provider then LookupCalls(prefix, provider, names)
      else LookupCalls(prefix, provider, names) + [GetProtectSurface(r.protectSurfaceId)]
  }

  /** The reference: the ids of the provider's records whose protect surface resolves
      to `name`, in the order the service lists them. */
  function OwnedIdsNamed(records: seq<RemoteRecord>, provider: string, names: map<string, string>, name: string): seq<string> {
    if records == [] then []
    else
      var r := records[|records| - 1];
      OwnedIdsNamed(records[..|records| - 1], provider, names, name)
        + if r.maintainer == provider && r.protectSurfaceId in names && names[r.protectSurfaceId] == name then [r.id] else []
  }

  ghost predicate AllOwnedResolve(records: seq<RemoteRecord>, provider: string, names: map<string, string>) {
    forall k | 0 <= k < |records| && records[k].maintainer == provider :: records[k].protectSurfaceId in names
  }

  lemma {:induction false} IndexExistsIffOwnedResolve(records: seq<RemoteRecord>, provider: string, names: map<string, string>)
    ensures IndexOf(records, provider, names).Some? <==> AllOwnedResolve(records, provider, names)
    decreases |records|
  {
    if records != [] {
      var prefix := records[..|records| - 1];
      IndexExistsIffOwnedResolve(prefix, provider, names);
      assert forall k | 0 <= k < |prefix| :: prefix[k] == records[k];
    }
  }

  lemma {:induction false} IndexFilesOwnedIds(records: seq<RemoteRecord>, provider: string, names: map<string, string>)
    ensures IndexOf(records, provider, names).Some? ==>
              var idx := IndexOf(records, provider, names).value;
              Valid(idx) && forall n :: IdsIn(idx, n) == OwnedIdsNamed(records, provider, names, n)
    decreases |records|
  {
    if records != [] {
      IndexFilesOwnedIds(records[..|records| - 1], provider, names);
    }
  }

  /** A name is a key of the index exactly when it holds some id. */
  ghost predicate KeysHoldIds(idx: RemoteIndex) {
    forall n :: n in idx.vals <==> IdsIn(idx, n) != []
  }

  lemma {:induction false} IndexKeysHoldIds(records: seq<RemoteRecord>, provider: string, names: map<string, string>)
    ensures IndexOf(records, provider, names).Some? ==> KeysHoldIds(IndexOf(records, provider, names).value)
    decreases |records|
  {
    if records != [] {
      var prefix := records[..|records| - 1];
      IndexKeysHoldIds(prefix, provider, names);
      var r := records[|records| - 1];
      if IndexOf(records, provider, names).Some? && r.maintainer == provider {
        var idx := IndexOf(prefix, provider, names).value;
        var out := AddToIndex(idx, names[r.protectSurfaceId], r.id);
        assert KeysHoldIds(idx);
        forall n ensures n in out.vals <==> IdsIn(out, n) != [] {
          if n != names[r.protectSurfaceId] {
            assert n in out.vals <==> n in idx.vals;
          }
        }
      }
    }
  }

  /** The index exists exactly when every record of the provider resolves to a name,
      and then files under each name exactly the ids of the provider's records that
      resolve to it, in order; records of other maintainers are ignored. */
  lemma IndexGroupsOwnedIds(records: seq<RemoteRecord>, provider: string, names: map<string, string>)
    ensures IndexOf(records, provider, names).Some? <==> AllOwnedResolve(records, provider, names)
    ensures IndexOf(records, provider, names).Some? ==>
              var idx := IndexOf(records, provider, names).value;
              && Valid(idx)
              && (forall n :: IdsIn(idx, n) == OwnedIdsNamed(records, provider, names, n))
              && (forall n :: n in idx.vals <==> OwnedIdsNamed(records, provider, names, n) != [])
  {
    IndexExistsIffOwnedResolve(records, provider, names);
    IndexFilesOwnedIds(records, provider, names);
    IndexKeysHoldIds(records, provider, names);
  }

  lemma {:induction false} OwnedIdsMembership(records: seq<RemoteRecord>, provider: string, names: map<string, string>, name: string, id: string)
    ensures id in OwnedIdsNamed(records, provider, names, name) <==>
            exists k :: 0 <= k < |records| && records[k].id == id && records[k].maintainer == provider &&
                        records[k].protectSurfaceId in names && names[records[k].protectSurfaceId] == name
    decreases |records|
  {
    if records != [] {
      var prefix := records[..|records| - 1];
      OwnedIdsMembership(prefix, provider, names, name, id);
      assert forall k | 0 <= k < |prefix| :: prefix[k] == records[k];
    }
  }

  /** Once a lookup has failed, later records change neither the outcome nor the calls. */
  lemma {:induction false} FailureSticks(records: seq<RemoteRecord>, provider: string, names: map<string, string>, n: nat)
    requires n <= |records|
    requires IndexOf(records[..n], provider, names).None?
    ensures IndexOf(records, provider, names).None?
    ensures LookupCalls(records, provider, names) == LookupCalls(records[..n], provider, names)
    decreases |records|
  {
    if n < |records| {
      var prefix := records[..|records| - 1];
      assert prefix[..n] == records[..n];
      FailureSticks(prefix, provider, names, n);
    } else {
      assert records[..n] == records;
    }
  }

  /** create_dictionary_of_api_maintained_states_in_auxo (lines 344-351). */
  method CreateRemoteIndex(records: seq<RemoteRecord>, provider: string, api: AuxoClient) returns (idx: Option<RemoteIndex>)
    modifies api
    ensures idx == IndexOf(records, provider, api.surfaceNames)
    ensures api.log == old(api.log) + LookupCalls(records, provider, api.surfaceNames)
  {
    var index: RemoteIndex := Empty();
    var i := 0;
    while i < |records|
      invariant 0 <= i <= |records|
      invariant IndexOf(records[..i], provider, api.surfaceNames) == Some(index)
      invariant api.log == old(api.log) + LookupCalls(records[..i], provider, api.surfaceNames)
    {
      var state := records[i];
      assert records[..i + 1][..i] == records[..i];
      if state.maintainer == provider {
        var stateName := api.GetProtectSurfaceName(state.protectSurfaceId);
        if stateName.None? {
          FailureSticks(records, provider, api.surfaceNames, i + 1);
          return None;
        }
        index := AddToIndex(index, stateName.value, state.id);
      }
      i := i + 1;
    }
    assert records[..i] == records;
    idx := Some(index);
  }

  // ---------------------------------------------------------------------------
  // Removals (source lines 355-360)
  // ---------------------------------------------------------------------------

  function Removals(name: string, ids: seq<string>): (calls: seq<ApiCall>)
    ensures |calls| == |ids|
  {
    if ids == [] then [] else Removals(name, ids[..|ids| - 1]) + [RemoveState(name, ids[|ids| - 1])]
  }

  lemma {:induction false} RemovalsPointwise(name: string, ids: seq<string>)
    ensures |Removals(name, ids)| == |ids|
    ensures forall j | 0 <= j < |ids| :: Removals(name, ids)[j] == RemoveState(name, ids[j])
    decreases |ids|
  {
    if ids != [] {
      RemovalsPointwise(name, ids[..|ids| - 1]);
    }
  }

  /** The removals for the names `ns` of the index, in order. */
  function DeletesOver(s: IntendedState, idx: RemoteIndex, ns: seq<string>): (calls: seq<ApiCall>)
    ensures (forall n | n in ns :: n in s.vals) ==> calls == []
  {
    if ns == [] then []
    else
      var n := ns[|ns| - 1];
      DeletesOver(s, idx, ns[..|ns| - 1]) + if n !in s.vals then Removals(n, IdsIn(idx, n)) else []
  }

  /** The requests delete_unused_api_maintained_states sends. */
  function DeleteRequests(s: IntendedState, idx: RemoteIndex): (calls: seq<ApiCall>)
    ensures (forall n | n in idx.keys :: n in s.vals) ==> calls == []
  {
    DeletesOver(s, idx, idx.keys)
  }

  /** How many removals name `name`. */
  function RemovalCount(calls: seq<ApiCall>, name: string): nat {
    if calls == [] then 0
    else RemovalCount(calls[..|calls| - 1], name)
         + if calls[|calls| - 1].RemoveState? && calls[|calls| - 1].stateName == name then 1 else 0
  }

  lemma {:induction false} RemovalCountAppend(a: seq<ApiCall>, b: seq<ApiCall>, name: string)
    ensures RemovalCount(a + b, name) == RemovalCount(a, name) + RemovalCount(b, name)
    decreases |b|
  {
    if b == [] {
      assert a + b == a;
    } else {
      assert (a + b)[..|a + b| - 1] == a + b[..|b| - 1];
      RemovalCountAppend(a, b[..|b| - 1], name);
    }
  }

  lemma {:induction false} RemovalsCount(n: string, ids: seq<string>, name: string)
    ensures RemovalCount(Removals(n, ids), name) == if n == name then |ids| else 0
    decreases |ids|
  {
    if ids != [] {
      RemovalsCount(n, ids[..|ids| - 1], name);
      RemovalCountAppend(Removals(n, ids[..|ids| - 1]), [RemoveState(n, ids[|ids| - 1])], name);
      assert [RemoveState(n, ids[|ids| - 1])][..0] == [];
    }
  }

  lemma {:induction false} DeletesOverAreRemovals(s: IntendedState, idx: RemoteIndex, ns: seq<string>)
    ensures forall c | c in DeletesOver(s, idx, ns) :: c.RemoveState?
    decreases |ns|
  {
    if ns != [] {
      var n := ns[|ns| - 1];
      DeletesOverAreRemovals(s, idx, ns[..|ns| - 1]);
      RemovalsPointwise(n, IdsIn(idx, n));
    }
  }

  lemma {:induction false} DeletesOverMembership(s: IntendedState, idx: RemoteIndex, ns: seq<string>, x: string, id: string)
    ensures RemoveState(x, id) in DeletesOver(s, idx, ns) <==> x in ns && x !in s.vals && id in IdsIn(idx, x)
    decreases |ns|
  {
    if ns != [] {
      var prefix := ns[..|ns| - 1];
      var n := ns[|ns| - 1];
      DeletesOverMembership(s, idx, prefix, x, id);
      var block := if n !in s.vals then Removals(n, IdsIn(idx, n)) else [];
      assert DeletesOver(s, idx, ns) == DeletesOver(s, idx, prefix) + block;
      assert x in ns <==> x in prefix || x == n;
      RemovalsPointwise(n, IdsIn(idx, n));
      if RemoveState(x, id) in block {
        var j :| 0 <= j < |block| && block[j] == RemoveState(x, id);
      }
      if x == n && n !in s.vals && id in IdsIn(idx, n) {
        var j :| 0 <= j < |IdsIn(idx, n)| && IdsIn(idx, n)[j] == id;
        assert block[j] == RemoveState(x, id);
      }
    }
  }

  lemma {:induction false} DeletesOverCount(s: IntendedState, idx: RemoteIndex, ns: seq<string>, name: string)
    requires forall i, j :: 0 <= i < j < |ns| ==> ns[i] != ns[j]
    ensures RemovalCount(DeletesOver(s, idx, ns), name) == if name in ns && name !in s.vals then |IdsIn(idx, name)| else 0
    decreases |ns|
  {
    if ns != [] {
      var prefix := ns[..|ns| - 1];
      var n := ns[|ns| - 1];
      DeletesOverCount(s, idx, prefix, name);
      var block := if n !in s.vals then Removals(n, IdsIn(idx, n)) else [];
      assert DeletesOver(s, idx, ns) == DeletesOver(s, idx, prefix) + block;
      assert n !in prefix;
      assert name in ns <==> name in prefix || name == n;
      RemovalCountAppend(DeletesOver(s, idx, prefix), block, name);
      if n !in s.vals {
        RemovalsCount(n, IdsIn(idx, n), name);
      }
    }
  }

  /** Removals go exactly to the ids filed under names that are not protect surfaces of
      the intended state: every id under such a name, one removal each, and nothing
      for a name the intended state still holds. */
  lemma DeleteExactly(s: IntendedState, idx: RemoteIndex)
    requires Valid(idx)
    ensures forall c | c in DeleteRequests(s, idx) :: c.RemoveState?
    ensures forall n, id :: RemoveState(n, id) in DeleteRequests(s, idx) <==> n !in s.vals && id in IdsIn(idx, n)
    ensures forall n :: RemovalCount(DeleteRequests(s, idx), n) == if n !in s.vals then |IdsIn(idx, n)| else 0
  {
    DeletesOverAreRemovals(s, idx, idx.keys);
    forall n, id ensures RemoveState(n, id) in DeleteRequests(s, idx) <==> n !in s.vals && id in IdsIn(idx, n) {
      DeletesOverMembership(s, idx, idx.keys, n, id);
    }
    forall n ensures RemovalCount(DeleteRequests(s, idx), n) == if n !in s.vals then |IdsIn(idx, n)| else 0 {
      DeletesOverCount(s, idx, idx.keys, n);
    }
  }

  lemma DeletesOverSnoc(s: IntendedState, idx: RemoteIndex, ns: seq<string>, i: nat)
    requires i < |ns|
    ensures DeletesOver(s, idx, ns[..i + 1])
         == DeletesOver(s, idx, ns[..i]) + if ns[i] !in s.vals then Removals(ns[i], IdsIn(idx, ns[i])) else []
  {
    assert ns[..i + 1][..i] == ns[..i];
  }

  /** Lines 359-360: remove every state filed under one name, in order. */
  method RemoveStates(stateName: string, ids: seq<string>, api: AuxoClient)
    modifies api
    ensures api.log == old(api.log) + Removals(stateName, ids)
  {
    var j := 0;
    while j < |ids|
      invariant 0 <= j <= |ids|
      invariant api.log == old(api.log) + Removals(stateName, ids[..j])
    {
      assert ids[..j + 1][..j] == ids[..j];
      api.RemoveState(stateName, ids[j]);
      AppendAssociative(old(api.log), Removals(stateName, ids[..j]), [RemoveState(stateName, ids[j])]);
      j := j + 1;
    }
    assert ids[..j] == ids;
  }

  /** delete_unused_api_maintained_states (lines 355-360). */
  method DeleteUnusedStates(s: IntendedState, idx: RemoteIndex, api: AuxoClient)
    modifies api
    ensures api.log == old(api.log) + DeleteRequests(s, idx)
  {
    var i := 0;
    while i < |idx.keys|
      invariant 0 <= i <= |idx.keys|
      invariant api.log == old(api.log) + DeletesOver(s, idx, idx.keys[..i])
    {
      var stateName := idx.keys[i];
      DeletesOverSnoc(s, idx, idx.keys, i);
      if stateName !in s.vals {
        RemoveStates(stateName, IdsIn(idx, stateName), api);
        AppendAssociative(old(api.log), DeletesOver(s, idx, idx.keys[..i]), Removals(stateName, IdsIn(idx, stateName)));
      } else {
        assert DeletesOver(s, idx, idx.keys[..i + 1]) == DeletesOver(s, idx, idx.keys[..i]) + [];
      }
      i := i + 1;
    }
    assert idx.keys[..i] == idx.keys;
  }

  // ---------------------------------------------------------------------------
  // The whole run (source lines 362-369)
  // ---------------------------------------------------------------------------

  /** The calls one run makes once the walk of the subscription has ended with `walk`:
      none when it raised; else the upserts, one read of the states, the name lookups,
      and the removals unless a lookup failed. */
  function RunCalls(walk: Result<IntendedState>, cfg: Config, records: seq<RemoteRecord>, names: map<string, string>): (calls: seq<ApiCall>)
    ensures calls == [] <==> walk.Failure?
  {
    match walk
    case Failure(_) => []
    case Ok(s) => UpsertRequests(s, cfg) + RemoteCalls(s, cfg, records, names)
  }

  /** The calls after the upserts: one read of the states, the name lookups, and the
      removals unless a lookup failed. */
  function RemoteCalls(s: IntendedState, cfg: Config, records: seq<RemoteRecord>, names: map<string, string>): seq<ApiCall> {
    [GetStates] + (LookupCalls(records, cfg.providerId, names) + RemovalsAfter(s, IndexOf(records, cfg.providerId, names)))
  }

  function RemovalsAfter(s: IntendedState, idx: Option<RemoteIndex>): seq<ApiCall> {
    match idx
    case None => []
    case Some(index) => DeleteRequests(s, index)
  }

  lemma Regroup<T>(a: seq<T>, b: seq<T>, c: seq<T>, d: seq<T>, e: seq<T>)
    ensures (((a + b) + c) + d) + e == a + (b + (c + (d + e)))
  {
  }

  /** main (lines 362-369), for the inventory `inv` the subscription holds. */
  method Reconcile(inv: Inventory, cfg: Config, api: AuxoClient)
    modifies api
    ensures api.log == old(api.log) + RunCalls(IntendedStateOf(inv, cfg.protectSurfaceTag), cfg, api.records, api.surfaceNames)
  {
    var intended := AddResourcesToState(inv, cfg.protectSurfaceTag);
    if intended.Failure? {
      return;
    }
    var s := intended.value;
    PrepareApiBodyAndExecute(s, cfg, api);
    var listOfStates := api.GetStates();
    var index := CreateRemoteIndex(listOfStates, cfg.providerId, api);
    if index.Some? {
      DeleteUnusedStates(s, index.value, api);
    } else {
      assert api.log == api.log + [];
    }
    Regroup(old(api.log), UpsertRequests(s, cfg), [GetStates], LookupCalls(api.records, cfg.providerId, api.surfaceNames),
            RemovalsAfter(s, index));
  }

  lemma {:induction false} LookupCallsAreLookups(records: seq<RemoteRecord>, provider: string, names: map<string, string>)
    ensures forall c | c in LookupCalls(records, provider, names) :: c.GetProtectSurface?
    decreases |records|
  {
    if records != [] {
      LookupCallsAreLookups(records[..|records| - 1], provider, names);
    }
  }

  lemma UpsertRequestsAreUpserts(s: IntendedState, cfg: Config)
    ensures forall c | c in UpsertRequests(s, cfg) :: c.Upsert?
  {
    UpsertCallsPointwise(s, cfg, Pairs(s));
  }

  lemma RemovalsAfterAreRemovals(s: IntendedState, idx: Option<RemoteIndex>)
    ensures forall c | c in RemovalsAfter(s, idx) :: c.RemoveState?
  {
    if idx.Some? {
      DeletesOverAreRemovals(s, idx.value, idx.value.keys);
    }
  }

  /** Calls made of upserts, then one read, then lookups, then removals, come in
      that order. */
  lemma PhasesInOrder(ups: seq<ApiCall>, looks: seq<ApiCall>, dels: seq<ApiCall>)
    requires forall c | c in ups :: c.Upsert?
    requires forall c | c in looks :: c.GetProtectSurface?
    requires forall c | c in dels :: c.RemoveState?
    ensures var calls := ups + ([GetStates] + (looks + dels));
            && (forall i, j | 0 <= i < j < |calls| && calls[j].Upsert? :: calls[i].Upsert?)
            && (forall i, j | 0 <= i < j < |calls| && calls[i].RemoveState? :: calls[j].RemoveState?)
            && GetStates in calls
  {
    var calls := ups + ([GetStates] + (looks + dels));
    forall k | 0 <= k < |calls|
      ensures k < |ups| ==> calls[k].Upsert?
      ensures k >= |ups| ==> !calls[k].Upsert?
      ensures k <= |ups| + |looks| ==> !calls[k].RemoveState?
      ensures k > |ups| + |looks| ==> calls[k].RemoveState?
    {
      if k < |ups| {
        assert calls[k] == ups[k];
      } else if k == |ups| {
        assert calls[k] == GetStates;
      } else if k <= |ups| + |looks| {
        assert calls[k] == looks[k - |ups| - 1] && looks[k - |ups| - 1] in looks;
      } else {
        assert calls[k] == dels[k - |ups| - 1 - |looks|] && dels[k - |ups| - 1 - |looks|] in dels;
      }
    }
    assert calls[|ups|] == GetStates;
  }

  /** Every upsert of a run comes before its read of the service's states, the
      removals come last, and the read happens exactly when the walk of the
      subscription succeeded. */
  lemma UpsertsPrecedeRemoteAccess(walk: Result<IntendedState>, cfg: Config, records: seq<RemoteRecord>, names: map<string, string>)
    ensures var calls := RunCalls(walk, cfg, records, names);
            && (forall i, j | 0 <= i < j < |calls| && calls[j].Upsert? :: calls[i].Upsert?)
            && (forall i, j | 0 <= i < j < |calls| && calls[i].RemoveState? :: calls[j].RemoveState?)
            && (walk.Ok? <==> GetStates in calls)
  {
    if walk.Ok? {
      var s := walk.value;
      UpsertRequestsAreUpserts(s, cfg);
      LookupCallsAreLookups(records, cfg.providerId, names);
      RemovalsAfterAreRemovals(s, IndexOf(records, cfg.providerId, names));
      PhasesInOrder(UpsertRequests(s, cfg), LookupCalls(records, cfg.providerId, names),
                    RemovalsAfter(s, IndexOf(records, cfg.providerId, names)));
    }
  }

  /** Over a whole run, a removal goes to (name, id) exactly when the walk succeeded,
      every record of the provider resolved, `name` is not a protect surface of the
      intended state, and some record of the provider with id `id` resolves to `name`. */
  lemma RemovedExactlyTheStaleStates(walk: Result<IntendedState>, cfg: Config, records: seq<RemoteRecord>,
                                     names: map<string, string>, name: string, id: string)
    ensures RemoveState(name, id) in RunCalls(walk, cfg, records, names) <==>
            && walk.Ok?
            && AllOwnedResolve(records, cfg.providerId, names)
            && name !in walk.value.vals
            && exists k :: 0 <= k < |records| && records[k].id == id && records[k].maintainer == cfg.providerId &&
                           records[k].protectSurfaceId in names && names[records[k].protectSurfaceId] == name
  {
    IndexGroupsOwnedIds(records, cfg.providerId, names);
    OwnedIdsMembership(records, cfg.providerId, names, name, id);
    if walk.Ok? {
      var s := walk.value;
      UpsertRequestsAreUpserts(s, cfg);
      LookupCallsAreLookups(records, cfg.providerId, names);
      var idx := IndexOf(records, cfg.providerId, names);
      if idx.Some? {
        DeleteExactly(s, idx.value);
      }
    }
  }
}
