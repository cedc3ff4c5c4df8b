/**
  add_resources_to_state: walks the inventory (virtual machines with their network
  interfaces, then virtual networks with their subnets, then every resource of every
  resource group) and records each item in the intended state under its protect
  surface and location.

  The source keeps `protectsurface_name`, `location_name`, `interface_object` and
  `resource_id` as locals that survive from one loop into the next, and reads them
  where the current iteration did not set them. `Ctx` carries those four locals as
  options (`None` = not yet bound; reading one then is Python's `UnboundLocalError`).
  Each loop is specified by a fold over its sequence (`Fold...`), and implemented by
  a method with a `while` loop proved equal to that fold.
 */
module Enumerator {
  import opened Wrappers
  import opened OrderedMaps
  import opened IntendedStates
  import opened ArmIds

  /** The protect surface of a resource whose tags do not name one. */
  const Sentinel: string := "Unidentified Resources"

  const VirtualMachineType: string := "Microsoft.Compute/virtualMachines"
  const VirtualNetworkType: string := "Microsoft.Network/virtualNetworks"

  /** A resource's tags; `None` when the resource has no tag dictionary at all. */
  type Tags = Option<map<string, string>>

  datatype IpConfiguration = IpConfiguration(privateIpAddress: string, publicIpAddressId: Option<string>)

  datatype VirtualMachine = VirtualMachine(id: string, location: string, tags: Tags, networkInterfaceIds: seq<string>)

  datatype VirtualNetwork = VirtualNetwork(id: string, location: string, tags: Tags, subnetPrefixes: seq<string>)

  datatype GenericResource = GenericResource(id: string, resourceType: string, location: string, tags: Tags)

  /** One snapshot of the subscription. The two maps answer the SDK's `get` calls,
      keyed by (resource group, name). */
  datatype Inventory = Inventory(
    virtualMachines: seq<VirtualMachine>,
    virtualNetworks: seq<VirtualNetwork>,
    resourceGroups: seq<seq<GenericResource>>,
    networkInterfaces: map<(string, string), seq<IpConfiguration>>,
    publicIpAddresses: map<(string, string), string>)

  /** The exceptions that abort add_resources_to_state. */
  datatype BuildError =
    | MalformedId(id: string)                                   // IndexError on `split('/')[4]`
    | NetworkInterfaceNotFound(resourceGroup: string, name: string)
    | PublicIpNotFound(resourceGroup: string, name: string)
    | UnboundVariable(name: string)                              // UnboundLocalError

  datatype Result<T> = Ok(value: T) | Failure(error: BuildError)

  /** The intended state being built and the locals that leak between loops. */
  datatype Ctx = Ctx(
    state: IntendedState,
    group: Option<string>,
    location: Option<string>,
    ipConfig: Option<IpConfiguration>,
    resourceId: Option<string>)

  const Start: Ctx := Ctx(Empty(), None, None, None, None)

  /** `tags[PROTECT_SURFACE_TAG]`, falling back to the sentinel on `KeyError` (tag
      missing) or `TypeError` (no tags at all). */
  function ResolveGroup(tags: Tags, tagName: string): (g: string)
    ensures tags.Some? && tagName in tags.value ==> g == tags.value[tagName]
    ensures tags.None? || tagName !in tags.value ==> g == Sentinel
  {
    match tags
    case Some(t) => if tagName in t then t[tagName] else Sentinel
    case None => Sentinel
  }

  /** Only the list at (g, l, ct) may differ between `s` and `r`. */
  ghost predicate OnlyChanged(s: IntendedState, r: IntendedState, g: string, l: string, ct: ContentType) {
    forall g', l', ct' | (g', l', ct') != (g, l, ct) :: Entries(r, g', l', ct') == Entries(s, g', l', ct')
  }

  /** Only lists at protect surface `g` and location `l` may differ between `s` and `r`. */
  ghost predicate OnlyLocationChanged(s: IntendedState, r: IntendedState, g: string, l: string) {
    forall g', l', ct | (g', l') != (g, l) :: Entries(r, g', l', ct) == Entries(s, g', l', ct)
  }

  /** Only `azure_cloud` lists at location `l` may differ between `s` and `r`. */
  ghost predicate OnlyCloudAt(s: IntendedState, r: IntendedState, l: string) {
    forall g, l', ct | l' != l || ct != AzureCloud :: Entries(r, g, l', ct) == Entries(s, g, l', ct)
  }

  function Last<T>(xs: seq<T>): T
    requires xs != []
  {
    xs[|xs| - 1]
  }

  function PrivateAddresses(configs: seq<IpConfiguration>): seq<string> {
    if configs == [] then [] else [configs[0].privateIpAddress] + PrivateAddresses(configs[1..])
  }

  /** The IP configurations of the network interface `nicId` names: `None` when its id
      has no resource group segment or the inventory does not hold it. */
  function NicConfigs(nicId: string, inv: Inventory): Option<seq<IpConfiguration>> {
    match ResourceGroupOf(nicId)
    case None => None
    case Some(rg) => if (rg, NameOf(nicId)) in inv.networkInterfaces then Some(inv.networkInterfaces[(rg, NameOf(nicId))]) else None
  }

  /** The public address recorded for `ip` when it has one and its id resolves. */
  function PublicAddressOf(ip: IpConfiguration, inv: Inventory): seq<string> {
    match ip.publicIpAddressId
    case None => []
    case Some(pid) =>
      match ResourceGroupOf(pid)
      case None => []
      case Some(rg) => if (rg, NameOf(pid)) in inv.publicIpAddresses then [inv.publicIpAddresses[(rg, NameOf(pid))]] else []
  }

  /** Lines 85-87 find the public IP of `ip`: true when it has none, or when its id has a
      resource group segment and the inventory holds it. */
  predicate PublicIpResolves(ip: IpConfiguration, inv: Inventory) {
    match ip.publicIpAddressId
    case None => true
    case Some(pid) => ResourceGroupOf(pid).Some? && (ResourceGroupOf(pid).value, NameOf(pid)) in inv.publicIpAddresses
  }

  /** `interface_object` after the loop over `configs`: the last one, or what it was. */
  function ConfigAfter(prev: Option<IpConfiguration>, configs: seq<IpConfiguration>): Option<IpConfiguration> {
    if configs == [] then prev else Some(Last(configs))
  }

  // ---------------------------------------------------------------------------
  // Virtual machines (source lines 58-89)
  // ---------------------------------------------------------------------------

  /** Lines 76-79: record each private address, leaving `interface_object` bound to
      the last configuration. */
  function FoldIpConfigurations(c: Ctx, g: string, l: string, configs: seq<IpConfiguration>): (r: Ctx)
    ensures Extends(c.state, r.state)
    ensures r.group == c.group && r.location == c.location && r.resourceId == c.resourceId
    ensures r.ipConfig == if configs == [] then c.ipConfig else Some(Last(configs))
    ensures Entries(r.state, g, l, Ipv4) == Entries(c.state, g, l, Ipv4) + PrivateAddresses(configs)
    ensures OnlyChanged(c.state, r.state, g, l, Ipv4)
    ensures WellFormed(c.state) ==> WellFormed(r.state)
    decreases |configs|
  {
    if configs == [] then c
    else
      var c' := c.(state := Insert(c.state, g, l, Ipv4, configs[0].privateIpAddress), ipConfig := Some(configs[0]));
      FoldIpConfigurations(c', g, l, configs[1..])
  }

  /** Lines 81-89, which sit after the inner loop: only `interface_object`, the last
      configuration seen, is asked for a public IP. */
  function PublicIpStep(c: Ctx, g: string, l: string, inv: Inventory): (r: Result<Ctx>)
    ensures r.Ok? ==> Extends(c.state, r.value.state)
    ensures r.Ok? ==> r.value.group == c.group && r.value.location == c.location
    ensures r.Ok? ==> r.value.ipConfig == c.ipConfig && r.value.resourceId == c.resourceId
    ensures r.Ok? ==> OnlyChanged(c.state, r.value.state, g, l, Ipv4)
    ensures r.Ok? ==> c.ipConfig.Some? && Entries(r.value.state, g, l, Ipv4) == Entries(c.state, g, l, Ipv4) + PublicAddressOf(c.ipConfig.value, inv)
    ensures r.Ok? ==> WellFormed(c.state) ==> WellFormed(r.value.state)
    ensures r.Ok? <==> c.ipConfig.Some? && PublicIpResolves(c.ipConfig.value, inv)
    ensures c.ipConfig.None? ==> r == Failure(UnboundVariable("interface_object"))
    ensures c.ipConfig.Some? && !PublicIpResolves(c.ipConfig.value, inv) ==>
              r.Failure? && (r.error.MalformedId? || r.error.PublicIpNotFound?)
  {
    match c.ipConfig
    case None => Failure(UnboundVariable("interface_object"))
    case Some(ip) =>
      match ip.publicIpAddressId
      case None => Ok(c)
      case Some(pid) =>
        match ResourceGroupOf(pid)
        case None => Failure(MalformedId(pid))
        case Some(rg) =>
          if (rg, NameOf(pid)) !in inv.publicIpAddresses then Failure(PublicIpNotFound(rg, NameOf(pid)))
          else Ok(c.(state := Insert(c.state, g, l, Ipv4, inv.publicIpAddresses[(rg, NameOf(pid))])))
  }

  /** Lines 69-89: one network interface of a virtual machine. */
  function InterfaceStep(c: Ctx, g: string, l: string, nicId: string, inv: Inventory): (r: Result<Ctx>)
    ensures r.Ok? ==> Extends(c.state, r.value.state)
    ensures r.Ok? ==> r.value.group == c.group && r.value.location == c.location && r.value.resourceId == c.resourceId
    ensures r.Ok? ==> OnlyChanged(c.state, r.value.state, g, l, Ipv4)
    ensures NicConfigs(nicId, inv).None? ==> r.Failure? && (r.error.MalformedId? || r.error.NetworkInterfaceNotFound?)
    ensures r.Ok? <==>
              && NicConfigs(nicId, inv).Some?
              && var ip := ConfigAfter(c.ipConfig, NicConfigs(nicId, inv).value);
                 ip.Some? && PublicIpResolves(ip.value, inv)
    ensures r.Ok? ==>
              && NicConfigs(nicId, inv).Some?
              && var configs := NicConfigs(nicId, inv).value;
                 var ip := ConfigAfter(c.ipConfig, configs);
                 && ip.Some? && r.value.ipConfig == ip
                 && Entries(r.value.state, g, l, Ipv4) == Entries(c.state, g, l, Ipv4) + PrivateAddresses(configs) + PublicAddressOf(ip.value, inv)
    ensures r.Ok? ==> WellFormed(c.state) ==> WellFormed(r.value.state)
  {
    match ResourceGroupOf(nicId)
    case None => Failure(MalformedId(nicId))
    case Some(rg) =>
      if (rg, NameOf(nicId)) !in inv.networkInterfaces then Failure(NetworkInterfaceNotFound(rg, NameOf(nicId)))
      else PublicIpStep(FoldIpConfigurations(c, g, l, inv.networkInterfaces[(rg, NameOf(nicId))]), g, l, inv)
  }

  /** Line 69: every network interface of one virtual machine, in order. */
  function FoldInterfaces(c: Ctx, g: string, l: string, nicIds: seq<string>, inv: Inventory): (r: Result<Ctx>)
    ensures r.Ok? ==> Extends(c.state, r.value.state)
    ensures r.Ok? ==> r.value.group == c.group && r.value.location == c.location && r.value.resourceId == c.resourceId
    ensures r.Ok? ==> OnlyChanged(c.state, r.value.state, g, l, Ipv4)
    ensures r.Ok? ==> WellFormed(c.state) ==> WellFormed(r.value.state)
    decreases |nicIds|
  {
    if nicIds == [] then Ok(c)
    else
      match InterfaceStep(c, g, l, nicIds[0], inv)
      case Failure(e) => Failure(e)
      case Ok(c') => FoldInterfaces(c', g, l, nicIds[1..], inv)
  }

  /** Lines 59-89: one virtual machine. */
  function VirtualMachineStep(c: Ctx, vm: VirtualMachine, tagName: string, inv: Inventory): (r: Result<Ctx>)
    ensures r.Ok? ==> Extends(c.state, r.value.state)
    ensures r.Ok? ==>
              var g := ResolveGroup(vm.tags, tagName);
              && Entries(r.value.state, g, vm.location, AzureCloud) == Entries(c.state, g, vm.location, AzureCloud) + [vm.id]
              && OnlyLocationChanged(c.state, r.value.state, g, vm.location)
    ensures r.Ok? ==> r.value.group == Some(ResolveGroup(vm.tags, tagName)) && r.value.location == Some(vm.location)
    ensures r.Ok? ==> r.value.resourceId == c.resourceId
    ensures r.Ok? ==> WellFormed(c.state) ==> WellFormed(r.value.state)
  {
    var g := ResolveGroup(vm.tags, tagName);
    var c' := c.(state := Insert(c.state, g, vm.location, AzureCloud, vm.id), group := Some(g), location := Some(vm.location));
    FoldInterfaces(c', g, vm.location, vm.networkInterfaceIds, inv)
  }

  /** Line 58: every virtual machine, in order. */
  function FoldVirtualMachines(c: Ctx, vms: seq<VirtualMachine>, tagName: string, inv: Inventory): (r: Result<Ctx>)
    ensures r.Ok? ==> Extends(c.state, r.value.state)
    ensures r.Ok? && vms != [] ==> r.value.location == Some(Last(vms).location)
    ensures r.Ok? && vms == [] ==> r.value.location == c.location
    ensures r.Ok? ==> r.value.resourceId == c.resourceId
    ensures r.Ok? ==> WellFormed(c.state) ==> WellFormed(r.value.state)
    decreases |vms|
  {
    if vms == [] then Ok(c)
    else
      assert vms[1..] != [] ==> Last(vms[1..]) == Last(vms);
      match VirtualMachineStep(c, vms[0], tagName, inv)
      case Failure(e) => Failure(e)
      case Ok(c') => FoldVirtualMachines(c', vms[1..], tagName, inv)
  }

  // ---------------------------------------------------------------------------
  // Virtual networks (source lines 93-111)
  // ---------------------------------------------------------------------------

  /** Lines 104-111: a subnet prefix already in the `ipv4` list of (g, l) is skipped. */
  function SubnetStep(s: IntendedState, g: string, l: string, prefix: string): (r: IntendedState)
    ensures prefix in Entries(s, g, l, Ipv4) ==> r == s
    ensures prefix !in Entries(s, g, l, Ipv4) ==> Entries(r, g, l, Ipv4) == Entries(s, g, l, Ipv4) + [prefix]
    ensures OnlyChanged(s, r, g, l, Ipv4)
  {
    if prefix in Entries(s, g, l, Ipv4) then s else Insert(s, g, l, Ipv4, prefix)
  }

  /** Line 103: every subnet of one virtual network. The `ipv4` list of (g, l) only
      gains the prefixes it lacked, so it never gains a duplicate. */
  function FoldSubnets(s: IntendedState, g: string, l: string, prefixes: seq<string>): (r: IntendedState)
    ensures Extends(s, r)
    ensures OnlyChanged(s, r, g, l, Ipv4)
    ensures Entries(s, g, l, Ipv4) <= Entries(r, g, l, Ipv4)
    ensures forall p :: p in Entries(r, g, l, Ipv4) <==> p in Entries(s, g, l, Ipv4) || p in prefixes
    ensures NoDuplicates(Entries(s, g, l, Ipv4)) ==> NoDuplicates(Entries(r, g, l, Ipv4))
    ensures WellFormed(s) ==> WellFormed(r)
    decreases |prefixes|
  {
    if prefixes == [] then s
    else FoldSubnets(SubnetStep(s, g, l, prefixes[0]), g, l, prefixes[1..])
  }

  ghost predicate NoDuplicates(xs: seq<string>) {
    forall i, j :: 0 <= i < j < |xs| ==> xs[i] != xs[j]
  }

  /** Lines 94-111: one virtual network. */
  function VirtualNetworkStep(c: Ctx, vnet: VirtualNetwork, tagName: string): (r: Ctx)
    ensures Extends(c.state, r.state)
    ensures var g := ResolveGroup(vnet.tags, tagName);
            var l := vnet.location;
            && Entries(r.state, g, l, AzureCloud) == Entries(c.state, g, l, AzureCloud) + [vnet.id]
            && Entries(c.state, g, l, Ipv4) <= Entries(r.state, g, l, Ipv4)
            && (forall p :: p in Entries(r.state, g, l, Ipv4) <==> p in Entries(c.state, g, l, Ipv4) || p in vnet.subnetPrefixes)
            && (NoDuplicates(Entries(c.state, g, l, Ipv4)) ==> NoDuplicates(Entries(r.state, g, l, Ipv4)))
            && OnlyLocationChanged(c.state, r.state, g, l)
    ensures r.group == Some(ResolveGroup(vnet.tags, tagName)) && r.location == Some(vnet.location)
    ensures r.resourceId == c.resourceId
    ensures WellFormed(c.state) ==> WellFormed(r.state)
  {
    var g := ResolveGroup(vnet.tags, tagName);
    var s := Insert(c.state, g, vnet.location, AzureCloud, vnet.id);
    c.(state := FoldSubnets(s, g, vnet.location, vnet.subnetPrefixes), group := Some(g), location := Some(vnet.location))
  }

  /** Line 93: every virtual network, in order. */
  function FoldVirtualNetworks(c: Ctx, vnets: seq<VirtualNetwork>, tagName: string): (r: Ctx)
    ensures Extends(c.state, r.state)
    ensures vnets != [] ==> r.location == Some(Last(vnets).location)
    ensures vnets == [] ==> r.location == c.location
    ensures r.resourceId == c.resourceId
    ensures WellFormed(c.state) ==> WellFormed(r.state)
    decreases |vnets|
  {
    if vnets == [] then c
    else
      assert vnets[1..] != [] ==> Last(vnets[1..]) == Last(vnets);
      var step := VirtualNetworkStep(c, vnets[0], tagName);
      var r := FoldVirtualNetworks(step, vnets[1..], tagName);
      ExtendsTransitive(c.state, step.state, r.state);
      r
  }

  // ---------------------------------------------------------------------------
  // Every resource of every resource group (source lines 114-123)
  // ---------------------------------------------------------------------------

  /** Line 116: a resource that is neither a virtual machine nor a virtual network. */
  predicate IsGeneric(res: GenericResource) {
    res.resourceType != VirtualMachineType && res.resourceType != VirtualNetworkType
  }

  /** A run of the resource loop over `rows` from `c` raises nowhere: either there is no
      row, or `location_name` is bound and the first row either is generic (binding
      `protectsurface_name` and `resource_id` for every later row) or finds both bound. */
  predicate ResourcesRun(c: Ctx, rows: seq<GenericResource>) {
    rows == [] || (c.location.Some? && (IsGeneric(rows[0]) || (c.group.Some? && c.resourceId.Some?)))
  }

  /** The rows of every resource group, in the order lines 114-115 visit them. */
  function Rows(groups: seq<seq<GenericResource>>): seq<GenericResource> {
    if groups == [] then [] else groups[0] + Rows(groups[1..])
  }

  /** Lines 116-123. A resource that is not a virtual machine or virtual network
      rebinds `protectsurface_name` and `resource_id`; line 123 then runs for EVERY
      resource, with `location_name` as the last loop that set it left it. */
  function ResourceStep(c: Ctx, res: GenericResource, tagName: string): (r: Result<Ctx>)
    ensures r.Ok? ==> Extends(c.state, r.value.state)
    ensures r.Ok? ==> r.value.location == c.location
    ensures r.Ok? ==> c.location.Some? && OnlyCloudAt(c.state, r.value.state, c.location.value)
    ensures r.Ok? && !IsGeneric(res) ==> c.group.Some? && c.resourceId.Some?
    ensures r.Ok? ==>
              var g := if IsGeneric(res) then ResolveGroup(res.tags, tagName) else c.group.value;
              var id := if IsGeneric(res) then res.id else c.resourceId.value;
              && Entries(r.value.state, g, c.location.value, AzureCloud) == Entries(c.state, g, c.location.value, AzureCloud) + [id]
              && OnlyChanged(c.state, r.value.state, g, c.location.value, AzureCloud)
              && r.value.group == Some(g) && r.value.resourceId == Some(id)
    ensures r.Ok? ==> WellFormed(c.state) ==> WellFormed(r.value.state)
    ensures r.Ok? <==> c.location.Some? && (IsGeneric(res) || (c.group.Some? && c.resourceId.Some?))
    ensures r.Failure? ==> r.error.UnboundVariable?
  {
    var c' :=
      if IsGeneric(res)
      then c.(group := Some(ResolveGroup(res.tags, tagName)), resourceId := Some(res.id))
      else c;
    if c'.group.None? then Failure(UnboundVariable("protectsurface_name"))
    else if c'.location.None? then Failure(UnboundVariable("location_name"))
    else if c'.resourceId.None? then Failure(UnboundVariable("resource_id"))
    else Ok(c'.(state := Insert(c'.state, c'.group.value, c'.location.value, AzureCloud, c'.resourceId.value)))
  }

  /** Line 115: every resource of one resource group. */
  function FoldResources(c: Ctx, resources: seq<GenericResource>, tagName: string): (r: Result<Ctx>)
    ensures r.Ok? ==> Extends(c.state, r.value.state)
    ensures r.Ok? ==> r.value.location == c.location
    ensures r.Ok? && c.location.Some? ==> OnlyCloudAt(c.state, r.value.state, c.location.value)
    ensures r.Ok? ==> WellFormed(c.state) ==> WellFormed(r.value.state)
    ensures r.Ok? <==> ResourcesRun(c, resources)
    ensures r.Ok? && resources != [] ==> r.value.group.Some? && r.value.resourceId.Some?
    ensures r.Failure? ==> r.error.UnboundVariable?
    decreases |resources|
  {
    if resources == [] then Ok(c)
    else
      match ResourceStep(c, resources[0], tagName)
      case Failure(e) => Failure(e)
      case Ok(c') => FoldResources(c', resources[1..], tagName)
  }

  /** Line 114: every resource group, in order. */
  function FoldResourceGroups(c: Ctx, groups: seq<seq<GenericResource>>, tagName: string): (r: Result<Ctx>)
    ensures r.Ok? ==> Extends(c.state, r.value.state)
    ensures r.Ok? ==> r.value.location == c.location
    ensures r.Ok? && c.location.Some? ==> OnlyCloudAt(c.state, r.value.state, c.location.value)
    ensures r.Ok? ==> WellFormed(c.state) ==> WellFormed(r.value.state)
    ensures r.Ok? <==> ResourcesRun(c, Rows(groups))
    ensures r.Failure? ==> r.error.UnboundVariable?
    decreases |groups|
  {
    if groups == [] then Ok(c)
    else
      match FoldResources(c, groups[0], tagName)
      case Failure(e) => Failure(e)
      case Ok(c') => FoldResourceGroups(c', groups[1..], tagName)
  }

  // ---------------------------------------------------------------------------
  // The whole walk (source lines 52-125)
  // ---------------------------------------------------------------------------

  /** The first two loops: virtual machines, then virtual networks. */
  function NetworkPhase(inv: Inventory, tagName: string): (r: Result<Ctx>)
    ensures r.Ok? ==> WellFormed(r.value.state)
  {
    assert WellFormed(Start.state);
    match FoldVirtualMachines(Start, inv.virtualMachines, tagName, inv)
    case Failure(e) => Failure(e)
    case Ok(c) =>
      assert WellFormed(c.state);
      Ok(FoldVirtualNetworks(c, inv.virtualNetworks, tagName))
  }

  /** add_resources_to_state: the intended state, or the exception that aborts the walk. */
  function IntendedStateOf(inv: Inventory, tagName: string): (r: Result<IntendedState>)
    ensures r.Ok? ==> WellFormed(r.value)
  {
    match NetworkPhase(inv, tagName)
    case Failure(e) => Failure(e)
    case Ok(c) =>
      match FoldResourceGroups(c, inv.resourceGroups, tagName)
      case Failure(e) => Failure(e)
      case Ok(c') => Ok(c'.state)
  }

  // ---------------------------------------------------------------------------
  // The loops themselves, each proved equal to its fold
  // ---------------------------------------------------------------------------

  /** Lines 76-79. */
  method AddIpConfigurations(c: Ctx, g: string, l: string, configs: seq<IpConfiguration>) returns (r: Ctx)
    ensures r == FoldIpConfigurations(c, g, l, configs)
  {
    r := c;
    var i := 0;
    assert configs[0..] == configs;
    while i < |configs|
      invariant 0 <= i <= |configs|
      invariant FoldIpConfigurations(r, g, l, configs[i..]) == FoldIpConfigurations(c, g, l, configs)
    {
      var interfaceObject := configs[i];
      assert configs[i..][1..] == configs[i + 1..];
      r := r.(state := Insert(r.state, g, l, Ipv4, interfaceObject.privateIpAddress), ipConfig := Some(interfaceObject));
      i := i + 1;
    }
  }

  /** Lines 69-89. */
  method AddInterfaces(c: Ctx, g: string, l: string, nicIds: seq<string>, inv: Inventory) returns (r: Result<Ctx>)
    ensures r == FoldInterfaces(c, g, l, nicIds, inv)
  {
    var ctx := c;
    var i := 0;
    assert nicIds[0..] == nicIds;
    while i < |nicIds|
      invariant 0 <= i <= |nicIds|
      invariant FoldInterfaces(ctx, g, l, nicIds[i..], inv) == FoldInterfaces(c, g, l, nicIds, inv)
    {
      var nicId := nicIds[i];
      assert nicIds[i..][1..] == nicIds[i + 1..];
      var name := NameOf(nicId);
      var resourceGroup := ResourceGroupOf(nicId);
      if resourceGroup.None? {
        return Failure(MalformedId(nicId));
      }
      if (resourceGroup.value, name) !in inv.networkInterfaces {
        return Failure(NetworkInterfaceNotFound(resourceGroup.value, name));
      }
      ctx := AddIpConfigurations(ctx, g, l, inv.networkInterfaces[(resourceGroup.value, name)]);
      if ctx.ipConfig.None? {
        return Failure(UnboundVariable("interface_object"));
      }
      var publicIpId := ctx.ipConfig.value.publicIpAddressId;
      if publicIpId.Some? {
        var publicName := NameOf(publicIpId.value);
        var publicGroup := ResourceGroupOf(publicIpId.value);
        if publicGroup.None? {
          return Failure(MalformedId(publicIpId.value));
        }
        if (publicGroup.value, publicName) !in inv.publicIpAddresses {
          return Failure(PublicIpNotFound(publicGroup.value, publicName));
        }
        var publicAddress := inv.publicIpAddresses[(publicGroup.value, publicName)];
        ctx := ctx.(state := Insert(ctx.state, g, l, Ipv4, publicAddress));
      }
      i := i + 1;
    }
    r := Ok(ctx);
  }

  /** Lines 58-89. */
  method AddVirtualMachines(c: Ctx, vms: seq<VirtualMachine>, tagName: string, inv: Inventory) returns (r: Result<Ctx>)
    ensures r == FoldVirtualMachines(c, vms, tagName, inv)
  {
    var ctx := c;
    var i := 0;
    assert vms[0..] == vms;
    while i < |vms|
      invariant 0 <= i <= |vms|
      invariant FoldVirtualMachines(ctx, vms[i..], tagName, inv) == FoldVirtualMachines(c, vms, tagName, inv)
    {
      var vm := vms[i];
      assert vms[i..][1..] == vms[i + 1..];
      var g := ResolveGroup(vm.tags, tagName);
      ctx := ctx.(state := Insert(ctx.state, g, vm.location, AzureCloud, vm.id), group := Some(g), location := Some(vm.location));
      var next := AddInterfaces(ctx, g, vm.location, vm.networkInterfaceIds, inv);
      if next.Failure? {
        return Failure(next.error);
      }
      ctx := next.value;
      i := i + 1;
    }
    r := Ok(ctx);
  }

  /** Lines 103-111. `Entries` is `[]` when (g, l) has no `ipv4` list yet, which is
      the case the source's `'ipv4' in ...keys()` test lets through. */
  method AddSubnets(s: IntendedState, g: string, l: string, prefixes: seq<string>) returns (r: IntendedState)
    ensures r == FoldSubnets(s, g, l, prefixes)
  {
    r := s;
    var i := 0;
    assert prefixes[0..] == prefixes;
    while i < |prefixes|
      invariant 0 <= i <= |prefixes|
      invariant FoldSubnets(r, g, l, prefixes[i..]) == FoldSubnets(s, g, l, prefixes)
    {
      var prefix := prefixes[i];
      assert prefixes[i..][1..] == prefixes[i + 1..];
      if prefix !in Entries(r, g, l, Ipv4) {
        r := Insert(r, g, l, Ipv4, prefix);
      }
      i := i + 1;
    }
  }

  /** Lines 93-111. */
  method AddVirtualNetworks(c: Ctx, vnets: seq<VirtualNetwork>, tagName: string) returns (r: Ctx)
    ensures r == FoldVirtualNetworks(c, vnets, tagName)
  {
    r := c;
    var i := 0;
    assert vnets[0..] == vnets;
    while i < |vnets|
      invariant 0 <= i <= |vnets|
      invariant FoldVirtualNetworks(r, vnets[i..], tagName) == FoldVirtualNetworks(c, vnets, tagName)
    {
      var vnet := vnets[i];
      assert vnets[i..][1..] == vnets[i + 1..];
      var g := ResolveGroup(vnet.tags, tagName);
      var state := Insert(r.state, g, vnet.location, AzureCloud, vnet.id);
      state := AddSubnets(state, g, vnet.location, vnet.subnetPrefixes);
      r := r.(state := state, group := Some(g), location := Some(vnet.location));
      i := i + 1;
    }
  }

  /** Lines 115-123. */
  method AddResources(c: Ctx, resources: seq<GenericResource>, tagName: string) returns (r: Result<Ctx>)
    ensures r == FoldResources(c, resources, tagName)
  {
    var ctx := c;
    var i := 0;
    assert resources[0..] == resources;
    while i < |resources|
      invariant 0 <= i <= |resources|
      invariant FoldResources(ctx, resources[i..], tagName) == FoldResources(c, resources, tagName)
    {
      var resource := resources[i];
      assert resources[i..][1..] == resources[i + 1..];
      ghost var before := ctx;
      if resource.resourceType != VirtualMachineType && resource.resourceType != VirtualNetworkType {
        ctx := ctx.(group := Some(ResolveGroup(resource.tags, tagName)), resourceId := Some(resource.id));
      }
      if ctx.group.None? {
        assert ResourceStep(before, resource, tagName) == Failure(UnboundVariable("protectsurface_name"));
        return Failure(UnboundVariable("protectsurface_name"));
      }
      if ctx.location.None? {
        assert ResourceStep(before, resource, tagName) == Failure(UnboundVariable("location_name"));
        return Failure(UnboundVariable("location_name"));
      }
      if ctx.resourceId.None? {
        assert ResourceStep(before, resource, tagName) == Failure(UnboundVariable("resource_id"));
        return Failure(UnboundVariable("resource_id"));
      }
      ctx := ctx.(state := Insert(ctx.state, ctx.group.value, ctx.location.value, AzureCloud, ctx.resourceId.value));
      assert ResourceStep(before, resource, tagName) == Ok(ctx);
      i := i + 1;
    }
    r := Ok(ctx);
  }

  /** Lines 114-123. */
  method AddResourceGroups(c: Ctx, groups: seq<seq<GenericResource>>, tagName: string) returns (r: Result<Ctx>)
    ensures r == FoldResourceGroups(c, groups, tagName)
  {
    var ctx := c;
    var i := 0;
    assert groups[0..] == groups;
    while i < |groups|
      invariant 0 <= i <= |groups|
      invariant FoldResourceGroups(ctx, groups[i..], tagName) == FoldResourceGroups(c, groups, tagName)
    {
      assert groups[i..][1..] == groups[i + 1..];
      var next := AddResources(ctx, groups[i], tagName);
      if next.Failure? {
        return Failure(next.error);
      }
      ctx := next.value;
      i := i + 1;
    }
    r := Ok(ctx);
  }

  /** add_resources_to_state (lines 52-125): the intended state, or the exception
      that ends the walk. */
  method AddResourcesToState(inv: Inventory, tagName: string) returns (r: Result<IntendedState>)
    ensures r == IntendedStateOf(inv, tagName)
    ensures r.Ok? ==> WellFormed(r.value)
  {
    var afterVms := AddVirtualMachines(Start, inv.virtualMachines, tagName, inv);
    if afterVms.Failure? {
      return Failure(afterVms.error);
    }
    var afterVnets := AddVirtualNetworks(afterVms.value, inv.virtualNetworks, tagName);
    var afterAll := AddResourceGroups(afterVnets, inv.resourceGroups, tagName);
    if afterAll.Failure? {
      return Failure(afterAll.error);
    }
    r := Ok(afterAll.value.state);
  }
}
