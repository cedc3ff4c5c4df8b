# Protect-surface reconciliation, modelled in Dafny

This project models the reconciliation engine of `auxo-provider-azure`, a timer-triggered
Azure Function. It lives in `protectsurface_update/__init__.py`. One run does four things:

1. It walks the Azure subscription: virtual machines and their network interfaces, then
   virtual networks and their subnets, then every resource of every resource group.
2. It builds the *intended state*, a nested dictionary: protect surface → location →
   content type (`azure_cloud` or `ipv4`) → list of identifiers.
3. It upserts one protect-surface/location record per (protect surface, location) to the
   AUXO API.
4. It reads back the states the provider maintains in AUXO, resolves each one's protect
   surface name, and removes every state filed under a name that is no longer in the
   intended state.

The modules follow the source:

- `OrderedMaps` (`ordered_map.dfy`): Python's insertion-ordered `dict`, as keys in order
  plus a map. Iteration order decides the order of the upserts and removals, so it is
  kept.
- `IntendedStates` (`intended_state.dfy`): the nested dictionary and
  `update_local_protectsurface_intended_state`.
- `ArmIds` (`arm_ids.dfy`): Python's `str.split('/')`, and the two ways the source takes
  an id apart: the last segment is the name, and index 4 is the resource group.
- `Geocoder` (`geocoder.dfy`): `get_location_coords`.
- `Enumerator` (`enumerator.dfy`): `add_resources_to_state`.
  - Each loop is specified by a fold and implemented by a method whose `while` loop is
    proved equal to that fold.
  - A context `Ctx` carries the locals the source reads after the loop that set them:
    `protectsurface_name`, `location_name`, `interface_object` and `resource_id`.
  - Reading such a local before it is bound is Python's `UnboundLocalError`. It ends
    the walk as a `Failure`, as do an id with fewer than five segments and an interface
    or public IP the inventory does not hold.
- `EnumeratorProperties` (`enumerator_properties.dfy`): what the walk guarantees, and
  the places where it reads stale locals.
- `EnumeratorProvenance` (`enumerator_provenance.dfy`): the converse direction. Every
  identifier the walk records comes from the inventory.
- `Payload` (`payload.dfy`): `construct_state_body` and the body built in
  `upsert_protectsurface_to_auxo`.
- `AuxoApi` (`auxo_api.dfy`): the four HTTP calls, as a class that logs every call it
  receives. It answers from fixed state records and a fixed id → name table.
- `Reconciler` (`reconcile.dfy`):
  - `prepare_api_body_and_execute_api_call`
  - `create_dictionary_of_api_maintained_states_in_auxo`
  - `delete_unused_api_maintained_states`
  - `main`
  - the whole-run properties.

  Every method is proved to append to the log exactly the calls a specification function
  lists. Lemmas about those functions state what the run does.

Behaviour of the code that the model keeps as written:

- `ipv4` lists may hold duplicates. Only a subnet prefix already listed is skipped
  (lines 106-109, `Enumerator.FoldSubnets`). Private and public addresses are appended
  unchecked (lines 79 and 89, `Enumerator.FoldIpConfigurations`,
  `Enumerator.PublicIpStep`).
- A failed name lookup raises at line 324 (`decoded_response['items'][0]` of an empty
  list). That ends the run before any removal. In the model, `Reconciler.IndexOf`
  returns `None`, and `Reconciler.RunCalls` then lists no removals.
- Line 123 sits outside the `if` of line 116. So a row of type virtual machine or
  virtual network re-appends the last `resource_id`, at the last `location_name`; a
  generic resource is also filed at that leftover location, not its own. Such a row
  raises `UnboundLocalError` when no generic resource came before it (`resource_id` is
  bound only at line 121).
- `main` upserts first (line 365), then reads the states (line 367), then removes
  (line 369). The comment at line 366 gives the reason: a state is removed once the tag
  changes recorded in the intended state have left it empty.
  `Reconciler.UpsertsPrecedeRemoteAccess` proves that order.

## Model

| member | source | states |
|---|---|---|
| `IntendedStates.InsertAtLocation` | protectsurface_update/__init__.py:33-37 | the list for the content type gains `id` at its end (created when missing); every other content type's list is unchanged; the level stays valid with no empty list |
| `IntendedStates.InsertAtGroup` | protectsurface_update/__init__.py:32-41 | the list at (location, content type) gains `id` at its end, creating the location when missing; every other list of the group is unchanged |
| `IntendedStates.Insert` | protectsurface_update/__init__.py:30-48 | the list at (protect surface, location, content type) gains `id` at its end; every other list is unchanged; the protect surfaces become the old ones plus `g`; every other protect surface is untouched; well-formedness is kept |
| `IntendedStates.InsertCreatesLevels` | protectsurface_update/__init__.py:39-46 | after the insert all three levels exist, whichever were missing |
| `IntendedStates.InsertKeyOrder` | protectsurface_update/__init__.py:31-46 | at each of the three levels a new key is placed last in the dictionary's order and an existing one keeps its place; this order is the order of the upserts (line 133) and of `states` (line 136) |
| `IntendedStates.InsertExtends` | protectsurface_update/__init__.py:30-48 | an insert only appends: every list of the old state is a prefix of the same list afterwards |
| `IntendedStates.PresentIffRecorded` | protectsurface_update/__init__.py:30-48 | in a state built by inserts, a (protect surface, location, content type) key exists exactly when its list is non-empty |
| `ArmIds.Split` | protectsurface_update/__init__.py:70-71 | `split('/')` returns at least one piece, and no piece holds the separator |
| `ArmIds.JoinSplit` | protectsurface_update/__init__.py:70-71 | joining the pieces of a split with the separator gives back the id |
| `ArmIds.SplitJoin` | protectsurface_update/__init__.py:70-71 | splitting a join of separator-free pieces gives back the pieces |
| `ArmIds.SplitLength` | protectsurface_update/__init__.py:71 | a split has one piece more than the id has separators |
| `ArmIds.NameOf` | protectsurface_update/__init__.py:70 | the name taken from an id holds no `/` |
| `ArmIds.NameIsLastSegment` | protectsurface_update/__init__.py:84 | the name is the whole id when the id has no `/`, and otherwise exactly the text after its last `/` |
| `ArmIds.ResourceGroupOf` | protectsurface_update/__init__.py:71 | segment 4 exists (no `IndexError`) exactly when the id has at least four `/`, and it holds no `/` |
| `ArmIds.ResourceGroupIsFifthSegment` | protectsurface_update/__init__.py:71 | the resource group is the text that follows the fourth `/` of the id and runs to the fifth `/` or to the end |
| `Geocoder.LocationCoords` | protectsurface_update/__init__.py:191-284 | total; returns the default (35.0, -40.0) exactly for the strings the chain does not list |
| `Geocoder.JapanEastFallsBackToDefault` | protectsurface_update/__init__.py:215-216 | the chain lists `Japan East` and not the region code `japaneast`, so `japaneast` gets the default |
| `Enumerator.ResolveGroup` | protectsurface_update/__init__.py:59-62 | the protect surface is the tag's value when the resource has tags holding the tag, and `Unidentified Resources` otherwise |
| `Enumerator.FoldIpConfigurations` | protectsurface_update/__init__.py:76-79 | the `ipv4` list gains the private addresses in order and nothing else changes; `interface_object` is left at the last configuration, or unchanged when there is none |
| `Enumerator.PublicIpStep` | protectsurface_update/__init__.py:82-89 | succeeds exactly when `interface_object` is bound and its public IP, if any, is found; an unbound `interface_object` raises `UnboundLocalError`, and a public-IP id without a resource group segment or missing from the inventory raises (lines 85-87); on success the `ipv4` list of (protect surface, location) gains exactly the public address of `interface_object` (none when it has no public IP) and nothing else changes |
| `Enumerator.InterfaceStep` | protectsurface_update/__init__.py:69-89 | succeeds exactly when the interface resolves, `interface_object` after its configurations is bound, and that configuration's public IP resolves; it raises when the interface id has no resource group segment or is missing from the inventory (lines 70-73), when an interface without configurations comes first (`UnboundLocalError`, line 82), or when the public IP does not resolve (lines 85-87); on success the `ipv4` list gains every private address of its configurations in order, then the public address of its last configuration, or of the configuration left over from the previous interface when it has none; `interface_object` is left at that configuration; nothing else changes |
| `Enumerator.FoldInterfaces` | protectsurface_update/__init__.py:69-89 | all interfaces of a virtual machine only append, and only to that one `ipv4` list; `FoldInterfacesRecords` states what each interface leaves in it |
| `Enumerator.VirtualMachineStep` | protectsurface_update/__init__.py:59-89 | a virtual machine appends its id to the end of the `azure_cloud` list of its protect surface and location; nothing outside that (protect surface, location) changes; lists only grow; binds `protectsurface_name` and `location_name` to its own; `VirtualMachineStepInterfacesRecords` states what its interfaces add to `ipv4` |
| `Enumerator.FoldVirtualMachines` | protectsurface_update/__init__.py:58-89 | the loop only appends, and leaves `location_name` at the last virtual machine's location |
| `Enumerator.SubnetStep` | protectsurface_update/__init__.py:104-111 | a prefix already in the `ipv4` list of (protect surface, location) leaves the state unchanged; any other prefix is appended to that list; no other list changes |
| `Enumerator.FoldSubnets` | protectsurface_update/__init__.py:103-111 | the `ipv4` list keeps its old entries as a prefix and afterwards holds exactly the old entries plus the prefixes; a duplicate-free list stays duplicate-free; nothing else changes |
| `Enumerator.VirtualNetworkStep` | protectsurface_update/__init__.py:94-111 | a virtual network appends its id to the end of its `azure_cloud` list; its `ipv4` list keeps its entries as a prefix and afterwards holds exactly the old entries plus the subnet prefixes, and has no duplicate if it had none before; nothing outside its (protect surface, location) changes; binds the locals to its own |
| `Enumerator.FoldVirtualNetworks` | protectsurface_update/__init__.py:93-111 | the loop only appends, and leaves `location_name` at the last virtual network's location, or unchanged when there is none |
| `Enumerator.ResourceStep` | protectsurface_update/__init__.py:116-123 | succeeds exactly when `location_name` is bound and the row is generic or finds `protectsurface_name` and `resource_id` bound; otherwise it raises `UnboundLocalError` (an unbound `location_name`, or a virtual machine or virtual network row before any generic row); on success exactly one id is appended to the end of one `azure_cloud` list at the stale `location_name`, and no other list changes: a generic resource appends its own id under its own protect surface and rebinds both locals, while a virtual machine or virtual network row appends the stale `resource_id` under the stale `protectsurface_name` |
| `Enumerator.FoldResources` | protectsurface_update/__init__.py:115-123 | succeeds exactly when there is no row, or `location_name` is bound and the first row is generic or finds `protectsurface_name` and `resource_id` bound; any failure is `UnboundLocalError`; on success the resources only append to `azure_cloud` lists at the stale location and leave both locals bound |
| `Enumerator.FoldResourceGroups` | protectsurface_update/__init__.py:114-123 | succeeds exactly under the same condition applied to the rows of all groups in visiting order; any failure is `UnboundLocalError`; on success all groups only append, and only to `azure_cloud` lists at the stale location |
| `Enumerator.NetworkPhase` | protectsurface_update/__init__.py:55-111 | the first two loops build a well-formed state |
| `Enumerator.IntendedStateOf` | protectsurface_update/__init__.py:52-125 | a walk that does not raise returns a well-formed intended state |
| `Enumerator.AddIpConfigurations` | protectsurface_update/__init__.py:76-79 | the loop computes `FoldIpConfigurations` |
| `Enumerator.AddInterfaces` | protectsurface_update/__init__.py:69-89 | the loop computes `FoldInterfaces`, including each way it raises |
| `Enumerator.AddVirtualMachines` | protectsurface_update/__init__.py:58-89 | the loop computes `FoldVirtualMachines` |
| `Enumerator.AddSubnets` | protectsurface_update/__init__.py:103-111 | the loop computes `FoldSubnets` |
| `Enumerator.AddVirtualNetworks` | protectsurface_update/__init__.py:93-111 | the loop computes `FoldVirtualNetworks` |
| `Enumerator.AddResources` | protectsurface_update/__init__.py:115-123 | the loop computes `FoldResources`, including which unbound local it raises on |
| `Enumerator.AddResourceGroups` | protectsurface_update/__init__.py:114-123 | the loop computes `FoldResourceGroups` |
| `Enumerator.AddResourcesToState` | protectsurface_update/__init__.py:52-125 | the walk returns `IntendedStateOf(inv)`, well-formed when it does not raise |
| `EnumeratorProperties.FoldVirtualMachinesRecords` | protectsurface_update/__init__.py:58-66 | the k-th virtual machine's id is in the `azure_cloud` list of its protect surface and location after the loop |
| `EnumeratorProperties.VirtualMachinesRecorded` | protectsurface_update/__init__.py:58-66 | every virtual machine's id is in the final state, under its protect surface and location, as `azure_cloud` |
| `EnumeratorProperties.FoldVirtualNetworksRecords` | protectsurface_update/__init__.py:93-111 | the k-th virtual network's id and prefixes are recorded after the loop |
| `EnumeratorProperties.ResourcePhaseExtends` | protectsurface_update/__init__.py:114-123 | the resource-group loop keeps everything the first two loops recorded |
| `EnumeratorProperties.VirtualNetworkRecorded` | protectsurface_update/__init__.py:93-111 | the k-th virtual network's id and subnet prefixes are in the final state |
| `EnumeratorProperties.VirtualNetworksRecorded` | protectsurface_update/__init__.py:93-111 | every virtual network's id (`azure_cloud`) and every subnet prefix (`ipv4`) is in the final state, under its protect surface and location |
| `EnumeratorProperties.DuplicateSubnetRecordedOnce` | protectsurface_update/__init__.py:106-111 | two subnets with the same new prefix add exactly one `ipv4` entry |
| `EnumeratorProperties.InterfaceAddsLastPublicAddressOnly` | protectsurface_update/__init__.py:76-89 | an interface adds every private address in order, then the public address of its LAST configuration only |
| `EnumeratorProperties.EmptyInterfaceReadsUnboundConfiguration` | protectsurface_update/__init__.py:73-82 | an interface without configurations, before any other configuration was seen, raises `UnboundLocalError` on `interface_object` |
| `EnumeratorProperties.EmptyInterfaceRepeatsPublicAddress` | protectsurface_update/__init__.py:69-89 | an interface without configurations that follows one with configurations records the earlier interface's public address a second time |
| `EnumeratorProperties.InterfaceStepRecords` | protectsurface_update/__init__.py:69-89 | after one interface, each of its private addresses and the public address of its last configuration are in the `ipv4` list |
| `EnumeratorProperties.FoldInterfacesRecords` | protectsurface_update/__init__.py:69-89 | after all interfaces of a virtual machine, each one resolved, so did the public IP of its last configuration, and its private addresses and that public address are in the `ipv4` list |
| `EnumeratorProperties.VirtualMachineStepInterfacesRecords` | protectsurface_update/__init__.py:59-89 | the same for one virtual machine, at its protect surface and location |
| `EnumeratorProperties.FoldVirtualMachinesInterfacesRecords` | protectsurface_update/__init__.py:58-89 | the same for every interface of every virtual machine after the virtual-machine loop |
| `EnumeratorProperties.VirtualMachineInterfacesRecorded` | protectsurface_update/__init__.py:58-89 | in the final intended state, every interface of every virtual machine resolved, so did the public IP of its last configuration, and each of its private addresses and that public address is `ipv4` content of the virtual machine's protect surface at its location |
| `EnumeratorProperties.CompleteInterfacesRun` | protectsurface_update/__init__.py:69-89 | when every interface resolves, has a configuration, and its last configuration's public IP resolves, the interface loop raises nowhere |
| `EnumeratorProperties.CompleteVirtualMachinesRun` | protectsurface_update/__init__.py:58-89 | the same for every interface of every virtual machine: the virtual-machine loop raises nowhere |
| `EnumeratorProperties.WalkSucceeds` | protectsurface_update/__init__.py:52-125 | with every interface complete, the first two loops succeed, and the walk succeeds exactly when the resource loop's condition holds: no row, or `location_name` bound and the first row generic or `resource_id` already bound |
| `EnumeratorProperties.FoldResourcesRecords` | protectsurface_update/__init__.py:115-123 | each resource of a group that is neither a virtual machine nor a virtual network is recorded under its own protect surface at the stale location |
| `EnumeratorProperties.FoldResourceGroupsRecords` | protectsurface_update/__init__.py:114-123 | the same for every resource group |
| `EnumeratorProperties.NetworkPhaseLocation` | protectsurface_update/__init__.py:64-99 | after the first two loops, `location_name` is the last virtual network's location, else the last virtual machine's, else unbound |
| `EnumeratorProperties.ResourcesFiledAtLastNetworkLocation` | protectsurface_update/__init__.py:114-123 | every such resource is filed at that stale location, whatever its own location; the loop changes only `azure_cloud` lists there |
| `EnumeratorProperties.FoldResourceGroupsUnbound` | protectsurface_update/__init__.py:114-123 | with `location_name` unbound, any non-empty resource group makes the loop raise `UnboundLocalError` |
| `EnumeratorProperties.NoNetworkLocationFails` | protectsurface_update/__init__.py:52-123 | with no virtual machine and no virtual network, any resource ends the walk with `UnboundLocalError` |
| `EnumeratorProperties.BareVirtualMachinePhase` | protectsurface_update/__init__.py:58-69 | one untagged virtual machine without interfaces gives one `Unidentified Resources` entry and binds that protect surface and location |
| `EnumeratorProperties.StaleResourceIdReappended` | protectsurface_update/__init__.py:116-123 | an untagged virtual machine plus one resource group listing a disk, then the virtual machine's own row: the walk succeeds; the `azure_cloud` list at the virtual machine's location is `[vm, disk, disk]`, since its row re-appends the stale `resource_id`; the disk's own location gets nothing |
| `EnumeratorProperties.VirtualMachineRowFirstFails` | protectsurface_update/__init__.py:116-123 | with the virtual machine's row first, `resource_id` is unbound and the walk raises |
| `EnumeratorProperties.SingleVirtualMachineState` | protectsurface_update/__init__.py:52-125 | a tagged virtual machine with one private address and nothing else gives exactly `{ps: {location: {"azure_cloud": [vm id], "ipv4": [address]}}}` |
| `EnumeratorProvenance.InsertSourced` | protectsurface_update/__init__.py:30-48 | an insert of an item of the inventory keeps every entry traceable to the inventory |
| `EnumeratorProvenance.FoldIpConfigurationsSourced` | protectsurface_update/__init__.py:76-79 | the private-address loop records only addresses of the inventory |
| `EnumeratorProvenance.PublicIpStepSourced` | protectsurface_update/__init__.py:82-89 | the public-IP step records only a public address of the inventory |
| `EnumeratorProvenance.InterfaceStepSourced` | protectsurface_update/__init__.py:69-89 | one network interface records only addresses of the inventory |
| `EnumeratorProvenance.FoldInterfacesSourced` | protectsurface_update/__init__.py:69-89 | all interfaces of a virtual machine record only addresses of the inventory |
| `EnumeratorProvenance.FoldVirtualMachinesSourced` | protectsurface_update/__init__.py:58-89 | the virtual-machine loop records only ids and addresses of the inventory |
| `EnumeratorProvenance.VirtualNetworkStepSourced` | protectsurface_update/__init__.py:94-111 | a virtual network records only its own id and subnet prefixes |
| `EnumeratorProvenance.FoldVirtualNetworksSourced` | protectsurface_update/__init__.py:93-111 | the virtual-network loop records only ids and prefixes of the inventory |
| `EnumeratorProvenance.ResourceStepSourced` | protectsurface_update/__init__.py:116-123 | a resource row, stale `resource_id` included, records only an id of the inventory |
| `EnumeratorProvenance.FoldResourcesSourced` | protectsurface_update/__init__.py:115-123 | a resource group's loop records only ids of the inventory |
| `EnumeratorProvenance.FoldResourceGroupsSourced` | protectsurface_update/__init__.py:114-123 | the resource-group loop records only ids of the inventory |
| `EnumeratorProvenance.IntendedStateFromInventory` | protectsurface_update/__init__.py:52-125 | the converse of the "recorded" lemmas: every `azure_cloud` entry is the id of a virtual machine, virtual network or resource of the inventory, and every `ipv4` entry is a private address, a public IP address or a subnet prefix of the inventory |
| `Payload.ContentsOverPointwise` | protectsurface_update/__init__.py:136-137 | `state_contents` has one (content type, identifiers) pair per content type of the location, in key order |
| `Payload.StateContents` | protectsurface_update/__init__.py:134-137 | `state_contents` has one pair per content type of the location (`ContentsOverPointwise` states each pair) |
| `Payload.StateEntryFor` | protectsurface_update/__init__.py:151 | one state: maintainer = provider, description `"<name> <content type>"`, and the pair's content type and list |
| `Payload.StateBody` | protectsurface_update/__init__.py:144-152 | `construct_state_body` returns one state per `state_contents` pair (`StateBodyPointwise` states each one) |
| `Payload.StateBodyPointwise` | protectsurface_update/__init__.py:146-151 | the states body has one entry per pair, in order, each built from that pair |
| `Payload.ConstructStateBody` | protectsurface_update/__init__.py:142-152 | the loop computes `StateBody` |
| `Payload.LocationStates` | protectsurface_update/__init__.py:136-151 | the states for one location: one per content type, in key order, each maintained by the provider, described `"<g> <content type>"` and carrying that type's whole list |
| `Payload.StatesMatchIntendedState` | protectsurface_update/__init__.py:133-151 | the states sent for (g, l): one per content type holding identifiers and none twice; each maintained by the provider, described `"<g> <content type>"`, and carrying the whole list |
| `Payload.ReplaceSpaces` | protectsurface_update/__init__.py:161 | same length; every space becomes `_` and every other character is kept |
| `Payload.ReplaceSpacesProperties` | protectsurface_update/__init__.py:161 | the uniqueness key holds no space; a name without spaces is its own key; replacing twice changes nothing more |
| `Payload.UpsertBodyFor` | protectsurface_update/__init__.py:158-173 | one item: its key is `ReplaceSpaces(name)`, which holds no space; the name and location are as given; the location key is built from the location and coordinates; relevance is 60; one state per `state_contents` pair |
| `Payload.UpsertBodyStates` | protectsurface_update/__init__.py:151-170 | the i-th state of the body comes from the i-th `state_contents` pair: maintainer = provider, description `"<name> <content type>"`, and that pair's content type and list |
| `Reconciler.PairsOverExact` | protectsurface_update/__init__.py:131-133 | the nested loops visit a (protect surface, location) pair exactly when it is in the state, and never twice |
| `Reconciler.PairsExact` | protectsurface_update/__init__.py:131-133 | the same for the whole intended state |
| `Reconciler.UpsertCallsPointwise` | protectsurface_update/__init__.py:131-138 | the i-th upsert carries the body for the i-th visited pair |
| `Reconciler.UpsertBodyNames` | protectsurface_update/__init__.py:158-173 | the body for a pair names that protect surface and location |
| `Reconciler.UpsertCallsDistinct` | protectsurface_update/__init__.py:131-138 | distinct pairs give distinct requests |
| `Reconciler.UpsertCallsMembership` | protectsurface_update/__init__.py:131-138 | the request for a pair is sent exactly when the pair is visited |
| `Reconciler.UpsertRequests` | protectsurface_update/__init__.py:129-138 | the upserts of `prepare_api_body_and_execute_api_call`: one per visited (protect surface, location) pair; `OneUpsertPerLocation` states which |
| `Reconciler.OneUpsertPerLocation` | protectsurface_update/__init__.py:129-138 | every request is an upsert; the body for (g, l) is sent exactly when l is a location of g; no request is sent twice |
| `Reconciler.UpsertProtectSurface` | protectsurface_update/__init__.py:156-185 | posts exactly one upsert, carrying `UpsertBodyFor` |
| `Reconciler.UpsertLocation` | protectsurface_update/__init__.py:133-138 | one location: collects `state_contents` in key order and posts the body for (protect surface, location) |
| `Reconciler.UpsertGroup` | protectsurface_update/__init__.py:133-138 | the inner loop posts the bodies for every location of one protect surface, in key order |
| `Reconciler.PrepareApiBodyAndExecute` | protectsurface_update/__init__.py:129-138 | posts exactly `UpsertRequests(s)`, one per visited pair, in order |
| `Reconciler.AddToIndex` | protectsurface_update/__init__.py:349-350 | `setdefault` + `append`: the name's list gains the id at its end, and every other name's list is unchanged |
| `Reconciler.IndexOf` | protectsurface_update/__init__.py:344-351 | the result of `create_dictionary_of_api_maintained_states_in_auxo`: a valid dictionary, or `None` where a lookup raises; `IndexGroupsOwnedIds` states its contents |
| `Reconciler.LookupCalls` | protectsurface_update/__init__.py:346-348 | the lookups that loop makes: at most one per record, only `get-protectsurface` (`LookupCallsAreLookups`), ending at the first that raises (`FailureSticks`) |
| `Reconciler.IndexExistsIffOwnedResolve` | protectsurface_update/__init__.py:346-348 | the index is built (no lookup raises) exactly when every record of the provider resolves to a name |
| `Reconciler.IndexFilesOwnedIds` | protectsurface_update/__init__.py:346-350 | each name's list is the ids of the provider's records resolving to it, in order |
| `Reconciler.IndexKeysHoldIds` | protectsurface_update/__init__.py:349-350 | a name is a key of the index exactly when its list is non-empty |
| `Reconciler.IndexGroupsOwnedIds` | protectsurface_update/__init__.py:344-351 | the index exists exactly when all owned records resolve; then it files under each name exactly the owned ids resolving to it, in order, and has no other key; records of other maintainers are ignored |
| `Reconciler.OwnedIdsMembership` | protectsurface_update/__init__.py:346-350 | an id is filed under a name exactly when some record of the provider with that id resolves to that name |
| `Reconciler.FailureSticks` | protectsurface_update/__init__.py:348 | once a lookup raises, later records neither build an index nor cause lookups |
| `Reconciler.CreateRemoteIndex` | protectsurface_update/__init__.py:344-351 | the loop returns `IndexOf(records)` and makes exactly the lookups `LookupCalls` lists |
| `Reconciler.RemovalsPointwise` | protectsurface_update/__init__.py:359-360 | one removal per id, in order, each naming the state |
| `Reconciler.DeletesOverMembership` | protectsurface_update/__init__.py:356-360 | a removal of (name, id) is sent exactly when the name is visited, absent from the intended state, and holds the id |
| `Reconciler.DeletesOverCount` | protectsurface_update/__init__.py:356-360 | the number of removals per name is the length of its list when the name is absent from the intended state, else zero |
| `Reconciler.DeleteExactly` | protectsurface_update/__init__.py:355-360 | removals go exactly to the ids under names absent from the intended state, once per filed id, and nothing for names still present |
| `Reconciler.RemoveStates` | protectsurface_update/__init__.py:359-360 | the inner loop sends one removal per id, in order |
| `Reconciler.DeleteRequests` | protectsurface_update/__init__.py:355-360 | the removals of `delete_unused_api_maintained_states`: none when every indexed name is still a protect surface; `DeleteExactly` states which |
| `Reconciler.DeleteUnusedStates` | protectsurface_update/__init__.py:355-360 | sends exactly `DeleteRequests(s, idx)` |
| `Reconciler.Reconcile` | protectsurface_update/__init__.py:362-369 | a run sends exactly `RunCalls`: nothing when the walk raises; otherwise the upserts, one `get-states`, the lookups, and the removals unless a lookup raised |
| `Reconciler.RunCalls` | protectsurface_update/__init__.py:362-369 | the calls of one run: none exactly when the walk raised, else the upserts, one `get-states`, the lookups and the removals unless a lookup raised |
| `Reconciler.LookupCallsAreLookups` | protectsurface_update/__init__.py:346-348 | the index builder calls only `get-protectsurface` |
| `Reconciler.UpsertRequestsAreUpserts` | protectsurface_update/__init__.py:129-138 | the upsert pass calls only the upsert endpoint |
| `Reconciler.UpsertsPrecedeRemoteAccess` | protectsurface_update/__init__.py:362-369 | every upsert precedes the read of the states, the removals come last, and the states are read exactly when the walk did not raise |
| `Reconciler.RemovedExactlyTheStaleStates` | protectsurface_update/__init__.py:344-369 | over a whole run, (name, id) is removed exactly when the walk succeeded, every owned record resolved, `name` is not in the intended state, and an owned record with id `id` resolves to `name` |
| `AuxoApi.AuxoClient.Upsert` | protectsurface_update/__init__.py:175-187 | logs one upsert call with its body |
| `AuxoApi.AuxoClient.GetStates` | protectsurface_update/__init__.py:288-303 | returns the service's records and logs one `get-states` call |
| `AuxoApi.AuxoClient.GetProtectSurfaceName` | protectsurface_update/__init__.py:307-324 | returns the name for a known id and `None` (the `IndexError`) otherwise; logs one lookup |
| `AuxoApi.AuxoClient.RemoveState` | protectsurface_update/__init__.py:328-340 | logs one `remove-state` call for (name, id) |

## Left out

- Credentials, environment variables and the SDK clients (lines 13-26) are left out.
  The tag name and the provider id are fields of `Reconciler.Config`. The subscription
  is one `Enumerator.Inventory` snapshot, whose maps answer the SDK's `get` calls.
- HTTP, JSON, bearer tokens and logging (lines 175-187, 288-340) are left out. Each call
  is an entry in `AuxoClient.log`. A non-200 status is only logged by the source, so it
  changes nothing in the model.
- An inventory call that fails at the transport level is not modelled. A missing
  interface or public IP is a `Failure` of the walk.
- The timer signature of `main` and its scheduling are left out.
- Python's float formatting is not modelled. `location_uniqueness_key` is kept as the
  location and the two coordinates it is rendered from (`Payload.LocationKey`), and
  coordinates are `real`s.
- `state_contents` is kept as (content type, identifiers) pairs, not one-key dictionaries.
  `construct_state_body` iterates each dictionary's single key, so the pairs carry the
  same data.
- UpsertBodyFor: its contract states the item's fields, but not the text of the
  rendered uniqueness key, since float rendering is not modelled.
- IP addresses that the SDK reports as `None` are not modelled. Addresses are strings.
- `get-states` is a snapshot fixed when the client is created. Writes made during the
  run do not change what it returns.
- The service's id → name lookup is a fixed map. A missing id stands for a response
  with no items, which raises in the source.
