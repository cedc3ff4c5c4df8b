/**
  The four calls the reconciler makes to the service's REST API. The service is
  modelled by what it answers (the state records `get-states` returns and the
  protect-surface names `get-protectsurface` resolves) and by the calls it receives,
  in order, in `log`.
 */
module AuxoApi {
  import opened Wrappers
  import opened Payload

  /** One item of the `get-states` response. */
  datatype RemoteRecord = RemoteRecord(id: string, maintainer: string, protectSurfaceId: string)

  datatype ApiCall =
    | Upsert(body: UpsertBody)                 // POST upsert-protectsurface-location-state
    | GetStates                                // GET get-states
    | GetProtectSurface(protectSurfaceId: string)  // GET get-protectsurface?id=
    | RemoveState(stateName: string, stateId: string)  // POST remove-state?id=

  class AuxoClient {
    /** The records `get-states` answers with. */
    const records: seq<RemoteRecord>
    /** Protect surface id -> name, for the ids `get-protectsurface` finds. */
    const surfaceNames: map<string, string>
    /** Every call received so far. */
    var log: seq<ApiCall>

    constructor(records: seq<RemoteRecord>, surfaceNames: map<string, string>)
      ensures this.records == records && this.surfaceNames == surfaceNames && log == []
    {
      this.records := records;
      this.surfaceNames := surfaceNames;
      log := [];
    }

    /** upsert_protectsurface_to_auxo's request; the response is only logged. */
    method Upsert(body: UpsertBody)
      modifies this
      ensures log == old(log) + [ApiCall.Upsert(body)]
    {
      log := log + [ApiCall.Upsert(body)];
    }

    /** get_states_api_call. */
    method GetStates() returns (rs: seq<RemoteRecord>)
      modifies this
      ensures rs == records
      ensures log == old(log) + [ApiCall.GetStates]
    {
      log := log + [ApiCall.GetStates];
      rs := records;
    }

    /** get_protect_surface_name_by_id_api_call: `None` where the response has no item,
        which makes the source's `['items'][0]` raise. */
    method GetProtectSurfaceName(protectSurfaceId: string) returns (name: Option<string>)
      modifies this
      ensures name == if protectSurfaceId in surfaceNames then Some(surfaceNames[protectSurfaceId]) else None
      ensures log == old(log) + [ApiCall.GetProtectSurface(protectSurfaceId)]
    {
      log := log + [ApiCall.GetProtectSurface(protectSurfaceId)];
      name := if protectSurfaceId in surfaceNames then Some(surfaceNames[protectSurfaceId]) else None;
    }

    /** delete_state_by_id_api_call; the response is only logged. */
    method RemoveState(stateName: string, stateId: string)
      modifies this
      ensures log == old(log) + [ApiCall.RemoveState(stateName, stateId)]
    {
      log := log + [ApiCall.RemoveState(stateName, stateId)];
    }
  }
}
