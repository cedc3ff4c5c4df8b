/**
  What add_resources_to_state guarantees about the intended state it returns, and the
  places where it reads a value left over from an earlier loop.
 */
module EnumeratorProperties {
  import opened Wrappers
  import opened OrderedMaps
  import opened IntendedStates
  import opened ArmIds
  import opened Enumerator

  /** The location the first two loops leave in `location_name`: that of the last
      virtual network, or of the last virtual machine when there is none. */
  function LastNetworkLocation(inv: Inventory): Option<string> {
    if inv.virtualNetworks != [] then Some(Last(inv.virtualNetworks).location)
    else if inv.virtualMachines != [] then Some(Last(inv.virtualMachines).location)
    else None
  }

  /** An entry recorded in `s` is still recorded in every state that extends `s`. */
  lemma StillRecorded(x: string, s: IntendedState, r: IntendedState, g: string, l: string, ct: ContentType)
    requires Extends(s, r)
    requires x in Entries(s, g, l, ct)
    ensures x in Entries(r, g, l, ct)
  {
    var a, b := Entries(s, g, l, ct), Entries(r, g, l, ct);
    assert a <= b;
    var i :| 0 <= i < |a| && a[i] == x;
    assert b[i] == x;
  }

  lemma {:induction false} FoldVirtualMachinesRecords(c: Ctx, vms: seq<VirtualMachine>, tagName: string, inv: Inventory, k: nat)
    requires k < |vms|
    requires FoldVirtualMachines(c, vms, tagName, inv).Ok?
    ensures vms[k].id in Entries(FoldVirtualMachines(c, vms, tagName, inv).value.state,
                                 ResolveGroup(vms[k].tags, tagName), vms[k].location, AzureCloud)
    decreases |vms|
  {
    var vm := vms[0];
    var g := ResolveGroup(vm.tags, tagName);
    var c' := c.(state := Insert(c.state, g, vm.location, AzureCloud, vm.id), group := Some(g), location := Some(vm.location));
    var step := FoldInterfaces(c', g, vm.location, vm.networkInterfaceIds, inv);
    assert VirtualMachineStep(c, vm, tagName, inv) == step;
    assert step.Ok?;
    var r := FoldVirtualMachines(step.value, vms[1..], tagName, inv);
    assert FoldVirtualMachines(c, vms, tagName, inv) == r;
    if k == 0 {
      assert vm.id in Entries(c'.state, g, vm.location, AzureCloud);
      StillRecorded(vm.id, c'.state, step.value.state, g, vm.location, AzureCloud);
      StillRecorded(vm.id, step.value.state, r.value.state, g, vm.location, AzureCloud);
    } else {
      assert vms[1..][k - 1] == vms[k];
      FoldVirtualMachinesRecords(step.value, vms[1..], tagName, inv, k - 1);
    }
  }

  /** What one virtual network recorded is still recorded in any state extending it. */
  lemma VirtualNetworkStepKept(step: Ctx, r: IntendedState, vnet: VirtualNetwork, tagName: string)
    requires var g := ResolveGroup(vnet.tags, tagName);
             && vnet.id in Entries(step.state, g, vnet.location, AzureCloud)
             && forall p | p in vnet.subnetPrefixes :: p in Entries(step.state, g, vnet.location, Ipv4)
    requires Extends(step.state, r)
    ensures var g := ResolveGroup(vnet.tags, tagName);
            && vnet.id in Entries(r, g, vnet.location, AzureCloud)
            && forall p | p in vnet.subnetPrefixes :: p in Entries(r, g, vnet.location, Ipv4)
  {
    var g := ResolveGroup(vnet.tags, tagName);
    StillRecorded(vnet.id, step.state, r, g, vnet.location, AzureCloud);
    forall p | p in vnet.subnetPrefixes ensures p in Entries(r, g, vnet.location, Ipv4) {
      StillRecorded(p, step.state, r, g, vnet.location, Ipv4);
    }
  }

  lemma {:induction false} FoldVirtualNetworksRecords(c: Ctx, vnets: seq<VirtualNetwork>, tagName: string, k: nat)
    requires k < |vnets|
    ensures var r := FoldVirtualNetworks(c, vnets, tagName).state;
            var g := ResolveGroup(vnets[k].tags, tagName);
            && vnets[k].id in Entries(r, g, vnets[k].location, AzureCloud)
            && forall p | p in vnets[k].subnetPrefixes :: p in Entries(r, g, vnets[k].location, Ipv4)
    decreases |vnets|
  {
    var step := VirtualNetworkStep(c, vnets[0], tagName);
    var r := FoldVirtualNetworks(step, vnets[1..], tagName).state;
    assert FoldVirtualNetworks(c, vnets, tagName).state == r;
    if k == 0 {
      VirtualNetworkStepKept(step, r, vnets[0], tagName);
    } else {
      assert vnets[1..][k - 1] == vnets[k];
      FoldVirtualNetworksRecords(step, vnets[1..], tagName, k - 1);
    }
  }

  /** Every virtual machine's id is recorded as `azure_cloud` content of the protect
      surface its tag names (the sentinel when it has none) at its own location. */
  lemma VirtualMachinesRecorded(inv: Inventory, tagName: string)
    requires IntendedStateOf(inv, tagName).Ok?
    ensures forall vm | vm in inv.virtualMachines ::
              vm.id in Entries(IntendedStateOf(inv, tagName).value, ResolveGroup(vm.tags, tagName), vm.location, AzureCloud)
  {
    var afterVms := FoldVirtualMachines(Start, inv.virtualMachines, tagName, inv).value;
    var phase := FoldVirtualNetworks(afterVms, inv.virtualNetworks, tagName);
    assert NetworkPhase(inv, tagName) == Ok(phase);
    var rest := FoldResourceGroups(phase, inv.resourceGroups, tagName);
    var r := rest.value.state;
    assert IntendedStateOf(inv, tagName) == Ok(r);
    assert Extends(afterVms.state, phase.state);
    assert Extends(phase.state, r);
    ExtendsTransitive(afterVms.state, phase.state, r);
    forall vm | vm in inv.virtualMachines
      ensures vm.id in Entries(r, ResolveGroup(vm.tags, tagName), vm.location, AzureCloud)
    {
      var k :| 0 <= k < |inv.virtualMachines| && inv.virtualMachines[k] == vm;
      FoldVirtualMachinesRecords(Start, inv.virtualMachines, tagName, inv, k);
      StillRecorded(vm.id, afterVms.state, r, ResolveGroup(vm.tags, tagName), vm.location, AzureCloud);
    }
  }

  /** The resource-group loop only adds to what the network loops recorded. */
  lemma ResourcePhaseExtends(inv: Inventory, tagName: string)
    requires IntendedStateOf(inv, tagName).Ok?
    ensures NetworkPhase(inv, tagName).Ok?
    ensures Extends(NetworkPhase(inv, tagName).value.state, IntendedStateOf(inv, tagName).value)
  {
    var phase := NetworkPhase(inv, tagName).value;
    var rest := FoldResourceGroups(phase, inv.resourceGroups, tagName);
    assert IntendedStateOf(inv, tagName) == Ok(rest.value.state);
  }

  /** The `k`-th virtual network's id and subnet prefixes are in the final state. */
  lemma VirtualNetworkRecorded(inv: Inventory, tagName: string, k: nat)
    requires IntendedStateOf(inv, tagName).Ok?
    requires k < |inv.virtualNetworks|
    ensures var vnet := inv.virtualNetworks[k];
            var r := IntendedStateOf(inv, tagName).value;
            var g := ResolveGroup(vnet.tags, tagName);
            && vnet.id in Entries(r, g, vnet.location, AzureCloud)
            && forall p | p in vnet.subnetPrefixes :: p in Entries(r, g, vnet.location, Ipv4)
  {
    var vnet := inv.virtualNetworks[k];
    var g := ResolveGroup(vnet.tags, tagName);
    var afterVms := FoldVirtualMachines(Start, inv.virtualMachines, tagName, inv).value;
    ResourcePhaseExtends(inv, tagName);
    var phase := NetworkPhase(inv, tagName).value;
    assert phase == FoldVirtualNetworks(afterVms, inv.virtualNetworks, tagName);
    var r := IntendedStateOf(inv, tagName).value;
    FoldVirtualNetworksRecords(afterVms, inv.virtualNetworks, tagName, k);
    StillRecorded(vnet.id, phase.state, r, g, vnet.location, AzureCloud);
    forall p | p in vnet.subnetPrefixes ensures p in Entries(r, g, vnet.location, Ipv4) {
      StillRecorded(p, phase.state, r, g, vnet.location, Ipv4);
    }
  }

  /** Every virtual network's id is recorded as `azure_cloud` content, and every one of
      its subnet prefixes as `ipv4` content, of its protect surface at its location. */
  lemma VirtualNetworksRecorded(inv: Inventory, tagName: string)
    requires IntendedStateOf(inv, tagName).Ok?
    ensures forall vnet, p | vnet in inv.virtualNetworks && p in vnet.subnetPrefixes ::
              p in Entries(IntendedStateOf(inv, tagName).value, ResolveGroup(vnet.tags, tagName), vnet.location, Ipv4)
    ensures forall vnet | vnet in inv.virtualNetworks ::
              vnet.id in Entries(IntendedStateOf(inv, tagName).value, ResolveGroup(vnet.tags, tagName), vnet.location, AzureCloud)
  {
    forall vnet | vnet in inv.virtualNetworks
      ensures vnet.id in Entries(IntendedStateOf(inv, tagName).value, ResolveGroup(vnet.tags, tagName), vnet.location, AzureCloud)
      ensures forall p | p in vnet.subnetPrefixes ::
                p in Entries(IntendedStateOf(inv, tagName).value, ResolveGroup(vnet.tags, tagName), vnet.location, Ipv4)
    {
      var k :| 0 <= k < |inv.virtualNetworks| && inv.virtualNetworks[k] == vnet;
      VirtualNetworkRecorded(inv, tagName, k);
    }
  }

  /** Two subnets with the same prefix in one protect surface and location give one
      `ipv4` entry. */
  lemma DuplicateSubnetRecordedOnce(s: IntendedState, g: string, l: string, p: string)
    requires p !in Entries(s, g, l, Ipv4)
    ensures Entries(FoldSubnets(s, g, l, [p, p]), g, l, Ipv4) == Entries(s, g, l, Ipv4) + [p]
  {
    var s1 := Insert(s, g, l, Ipv4, p);
    assert SubnetStep(s, g, l, p) == s1;
    assert p in Entries(s1, g, l, Ipv4);
    assert SubnetStep(s1, g, l, p) == s1;
    assert [p, p][1..] == [p];
    assert [p][1..] == [];
    assert FoldSubnets(s1, g, l, [p]) == FoldSubnets(s1, g, l, []);
  }

  // ---------------------------------------------------------------------------
  // Network interfaces: only the last IP configuration is asked for a public IP
  // ---------------------------------------------------------------------------

  /** One network interface adds the private address of every IP configuration, in
      order, and then the public address of the LAST configuration only: public
      addresses on the other configurations are never recorded. */
  lemma InterfaceAddsLastPublicAddressOnly(c: Ctx, g: string, l: string, nicId: string, inv: Inventory, rg: string)
    requires ResourceGroupOf(nicId) == Some(rg) && (rg, NameOf(nicId)) in inv.networkInterfaces
    requires inv.networkInterfaces[(rg, NameOf(nicId))] != []
    requires InterfaceStep(c, g, l, nicId, inv).Ok?
    ensures var configs := inv.networkInterfaces[(rg, NameOf(nicId))];
            Entries(InterfaceStep(c, g, l, nicId, inv).value.state, g, l, Ipv4)
              == Entries(c.state, g, l, Ipv4) + PrivateAddresses(configs) + PublicAddressOf(Last(configs), inv)
  {
    var configs := inv.networkInterfaces[(rg, NameOf(nicId))];
    var mid := FoldIpConfigurations(c, g, l, configs);
    assert InterfaceStep(c, g, l, nicId, inv) == PublicIpStep(mid, g, l, inv);
    assert mid.ipConfig == Some(Last(configs));
  }

  /** A network interface without IP configurations leaves `interface_object` as the
      previous interface left it; before any, the public-IP check raises. */
  lemma EmptyInterfaceReadsUnboundConfiguration(c: Ctx, g: string, l: string, nicId: string, inv: Inventory, rg: string)
    requires ResourceGroupOf(nicId) == Some(rg) && (rg, NameOf(nicId)) in inv.networkInterfaces
    requires inv.networkInterfaces[(rg, NameOf(nicId))] == []
    requires c.ipConfig.None?
    ensures InterfaceStep(c, g, l, nicId, inv) == Failure(UnboundVariable("interface_object"))
  {
    assert FoldIpConfigurations(c, g, l, []) == c;
  }

  /** A network interface without IP configurations that follows one with some
      re-reads the earlier interface's last configuration: its public address is
      recorded a second time. */
  lemma EmptyInterfaceRepeatsPublicAddress(c: Ctx, g: string, l: string, first: string, second: string, inv: Inventory)
    requires NicConfigs(first, inv).Some? && NicConfigs(first, inv).value != []
    requires NicConfigs(second, inv) == Some([])
    requires FoldInterfaces(c, g, l, [first, second], inv).Ok?
    ensures var configs := NicConfigs(first, inv).value;
            var public := PublicAddressOf(Last(configs), inv);
            Entries(FoldInterfaces(c, g, l, [first, second], inv).value.state, g, l, Ipv4)
              == Entries(c.state, g, l, Ipv4) + PrivateAddresses(configs) + public + public
  {
    var s1 := InterfaceStep(c, g, l, first, inv);
    assert [first, second][1..] == [second];
    assert s1.Ok?;
    var s2 := InterfaceStep(s1.value, g, l, second, inv);
    assert [second][1..] == [];
    assert FoldInterfaces(c, g, l, [first, second], inv) == FoldInterfaces(s1.value, g, l, [second], inv);
    assert s2.Ok?;
    assert FoldInterfaces(s1.value, g, l, [second], inv) == FoldInterfaces(s2.value, g, l, [], inv) == s2;
  }

  lemma {:induction false} PrivateAddressesMembership(configs: seq<IpConfiguration>)
    ensures forall cfg | cfg in configs :: cfg.privateIpAddress in PrivateAddresses(configs)
    decreases |configs|
  {
    if configs != [] {
      PrivateAddressesMembership(configs[1..]);
      assert forall cfg | cfg in configs :: cfg == configs[0] || cfg in configs[1..];
    }
  }

  /** Every private address of the network interface `nicId`, and the public address of
      its last IP configuration, are in the `ipv4` list of (g, l); the interface resolves,
      and so does the public IP of its last configuration. */
  ghost predicate InterfaceRecorded(s: IntendedState, g: string, l: string, nicId: string, inv: Inventory) {
    && NicConfigs(nicId, inv).Some?
    && (forall cfg | cfg in NicConfigs(nicId, inv).value :: cfg.privateIpAddress in Entries(s, g, l, Ipv4))
    && (NicConfigs(nicId, inv).value != [] ==>
          && PublicIpResolves(Last(NicConfigs(nicId, inv).value), inv)
          && forall a | a in PublicAddressOf(Last(NicConfigs(nicId, inv).value), inv) :: a in Entries(s, g, l, Ipv4))
  }

  lemma InterfaceRecordedKept(s: IntendedState, r: IntendedState, g: string, l: string, nicId: string, inv: Inventory)
    requires Extends(s, r) && InterfaceRecorded(s, g, l, nicId, inv)
    ensures InterfaceRecorded(r, g, l, nicId, inv)
  {
    var configs := NicConfigs(nicId, inv).value;
    forall cfg | cfg in configs ensures cfg.privateIpAddress in Entries(r, g, l, Ipv4) {
      StillRecorded(cfg.privateIpAddress, s, r, g, l, Ipv4);
    }
    if configs != [] {
      forall a | a in PublicAddressOf(Last(configs), inv) ensures a in Entries(r, g, l, Ipv4) {
        StillRecorded(a, s, r, g, l, Ipv4);
      }
    }
  }

  lemma InterfaceStepRecords(c: Ctx, g: string, l: string, nicId: string, inv: Inventory)
    requires InterfaceStep(c, g, l, nicId, inv).Ok?
    ensures InterfaceRecorded(InterfaceStep(c, g, l, nicId, inv).value.state, g, l, nicId, inv)
  {
    var configs := NicConfigs(nicId, inv).value;
    var ip := ConfigAfter(c.ipConfig, configs);
    var before := Entries(c.state, g, l, Ipv4);
    var after := Entries(InterfaceStep(c, g, l, nicId, inv).value.state, g, l, Ipv4);
    assert after == before + PrivateAddresses(configs) + PublicAddressOf(ip.value, inv);
    PrivateAddressesMembership(configs);
  }

  lemma {:induction false} FoldInterfacesRecords(c: Ctx, g: string, l: string, nicIds: seq<string>, inv: Inventory, k: nat)
    requires k < |nicIds|
    requires FoldInterfaces(c, g, l, nicIds, inv).Ok?
    ensures InterfaceRecorded(FoldInterfaces(c, g, l, nicIds, inv).value.state, g, l, nicIds[k], inv)
    decreases |nicIds|
  {
    var step := InterfaceStep(c, g, l, nicIds[0], inv);
    assert step.Ok?;
    var rest := FoldInterfaces(step.value, g, l, nicIds[1..], inv);
    assert FoldInterfaces(c, g, l, nicIds, inv) == rest;
    if k == 0 {
      InterfaceStepRecords(c, g, l, nicIds[0], inv);
      InterfaceRecordedKept(step.value.state, rest.value.state, g, l, nicIds[0], inv);
    } else {
      assert nicIds[1..][k - 1] == nicIds[k];
      FoldInterfacesRecords(step.value, g, l, nicIds[1..], inv, k - 1);
    }
  }

  lemma VirtualMachineStepInterfacesRecords(c: Ctx, vm: VirtualMachine, tagName: string, inv: Inventory, nicId: string)
    requires nicId in vm.networkInterfaceIds
    requires VirtualMachineStep(c, vm, tagName, inv).Ok?
    ensures InterfaceRecorded(VirtualMachineStep(c, vm, tagName, inv).value.state,
                              ResolveGroup(vm.tags, tagName), vm.location, nicId, inv)
  {
    var g := ResolveGroup(vm.tags, tagName);
    var c' := c.(state := Insert(c.state, g, vm.location, AzureCloud, vm.id), group := Some(g), location := Some(vm.location));
    assert VirtualMachineStep(c, vm, tagName, inv) == FoldInterfaces(c', g, vm.location, vm.networkInterfaceIds, inv);
    var i :| 0 <= i < |vm.networkInterfaceIds| && vm.networkInterfaceIds[i] == nicId;
    FoldInterfacesRecords(c', g, vm.location, vm.networkInterfaceIds, inv, i);
  }

  lemma {:induction false} FoldVirtualMachinesInterfacesRecords(c: Ctx, vms: seq<VirtualMachine>, tagName: string, inv: Inventory, k: nat, nicId: string)
    requires k < |vms| && nicId in vms[k].networkInterfaceIds
    requires FoldVirtualMachines(c, vms, tagName, inv).Ok?
    ensures InterfaceRecorded(FoldVirtualMachines(c, vms, tagName, inv).value.state,
                              ResolveGroup(vms[k].tags, tagName), vms[k].location, nicId, inv)
    decreases |vms|
  {
    var step := VirtualMachineStep(c, vms[0], tagName, inv);
    assert step.Ok?;
    var r := FoldVirtualMachines(step.value, vms[1..], tagName, inv);
    assert FoldVirtualMachines(c, vms, tagName, inv) == r;
    if k == 0 {
      VirtualMachineStepInterfacesRecords(c, vms[0], tagName, inv, nicId);
      InterfaceRecordedKept(step.value.state, r.value.state, ResolveGroup(vms[0].tags, tagName), vms[0].location, nicId, inv);
    } else {
      assert vms[1..][k - 1] == vms[k];
      FoldVirtualMachinesInterfacesRecords(step.value, vms[1..], tagName, inv, k - 1, nicId);
    }
  }

  /** Every network interface of every virtual machine resolves, and each of its private
      addresses, with the public address of its last IP configuration, is recorded as
      `ipv4` content of the virtual machine's protect surface at its location. */
  lemma VirtualMachineInterfacesRecorded(inv: Inventory, tagName: string)
    requires IntendedStateOf(inv, tagName).Ok?
    ensures forall vm, nicId | vm in inv.virtualMachines && nicId in vm.networkInterfaceIds ::
              InterfaceRecorded(IntendedStateOf(inv, tagName).value, ResolveGroup(vm.tags, tagName), vm.location, nicId, inv)
  {
    var afterVms := FoldVirtualMachines(Start, inv.virtualMachines, tagName, inv).value;
    var phase := FoldVirtualNetworks(afterVms, inv.virtualNetworks, tagName);
    assert NetworkPhase(inv, tagName) == Ok(phase);
    var r := FoldResourceGroups(phase, inv.resourceGroups, tagName).value.state;
    assert IntendedStateOf(inv, tagName) == Ok(r);
    ExtendsTransitive(afterVms.state, phase.state, r);
    forall vm, nicId | vm in inv.virtualMachines && nicId in vm.networkInterfaceIds
      ensures InterfaceRecorded(r, ResolveGroup(vm.tags, tagName), vm.location, nicId, inv)
    {
      var k :| 0 <= k < |inv.virtualMachines| && inv.virtualMachines[k] == vm;
      FoldVirtualMachinesInterfacesRecords(Start, inv.virtualMachines, tagName, inv, k, nicId);
      InterfaceRecordedKept(afterVms.state, r, ResolveGroup(vm.tags, tagName), vm.location, nicId, inv);
    }
  }

  /** A network interface the inventory holds, with at least one IP configuration,
      whose last configuration's public IP the inventory also holds. */
  ghost predicate InterfaceComplete(nicId: string, inv: Inventory) {
    && NicConfigs(nicId, inv).Some?
    && NicConfigs(nicId, inv).value != []
    && PublicIpResolves(Last(NicConfigs(nicId, inv).value), inv)
  }

  /** When every interface is complete, the interface loop raises nowhere. */
  lemma {:induction false} CompleteInterfacesRun(c: Ctx, g: string, l: string, nicIds: seq<string>, inv: Inventory)
    requires forall nicId | nicId in nicIds :: InterfaceComplete(nicId, inv)
    ensures FoldInterfaces(c, g, l, nicIds, inv).Ok?
    decreases |nicIds|
  {
    if nicIds != [] {
      assert InterfaceComplete(nicIds[0], inv);
      var configs := NicConfigs(nicIds[0], inv).value;
      assert ConfigAfter(c.ipConfig, configs) == Some(Last(configs));
      var step := InterfaceStep(c, g, l, nicIds[0], inv);
      assert step.Ok?;
      assert forall nicId | nicId in nicIds[1..] :: nicId in nicIds;
      CompleteInterfacesRun(step.value, g, l, nicIds[1..], inv);
    }
  }

  /** When every interface of every virtual machine is complete, the virtual-machine
      loop raises nowhere. */
  lemma {:induction false} CompleteVirtualMachinesRun(c: Ctx, vms: seq<VirtualMachine>, tagName: string, inv: Inventory)
    requires forall vm, nicId | vm in vms && nicId in vm.networkInterfaceIds :: InterfaceComplete(nicId, inv)
    ensures FoldVirtualMachines(c, vms, tagName, inv).Ok?
    decreases |vms|
  {
    if vms != [] {
      var vm := vms[0];
      var g := ResolveGroup(vm.tags, tagName);
      var c' := c.(state := Insert(c.state, g, vm.location, AzureCloud, vm.id), group := Some(g), location := Some(vm.location));
      CompleteInterfacesRun(c', g, vm.location, vm.networkInterfaceIds, inv);
      var step := VirtualMachineStep(c, vm, tagName, inv);
      assert step == FoldInterfaces(c', g, vm.location, vm.networkInterfaceIds, inv);
      assert forall v | v in vms[1..] :: v in vms;
      CompleteVirtualMachinesRun(step.value, vms[1..], tagName, inv);
    }
  }

  /** With every interface complete, the walk raises exactly when the resource loop
      does: when some row of the resource groups is reached with `location_name`
      unbound, or when the first row is a virtual machine or virtual network and
      `resource_id` was never bound. */
  lemma WalkSucceeds(inv: Inventory, tagName: string)
    requires forall vm, nicId | vm in inv.virtualMachines && nicId in vm.networkInterfaceIds :: InterfaceComplete(nicId, inv)
    ensures NetworkPhase(inv, tagName).Ok?
    ensures IntendedStateOf(inv, tagName).Ok? <==> ResourcesRun(NetworkPhase(inv, tagName).value, Rows(inv.resourceGroups))
  {
    CompleteVirtualMachinesRun(Start, inv.virtualMachines, tagName, inv);
    var phase := NetworkPhase(inv, tagName).value;
    assert IntendedStateOf(inv, tagName).Ok? <==> FoldResourceGroups(phase, inv.resourceGroups, tagName).Ok?;
  }

  // ---------------------------------------------------------------------------
  // Resource groups: filed at the location the network loops left behind
  // ---------------------------------------------------------------------------

  lemma {:induction false} FoldResourcesRecords(c: Ctx, resources: seq<GenericResource>, tagName: string, k: nat)
    requires k < |resources|
    requires resources[k].resourceType != VirtualMachineType && resources[k].resourceType != VirtualNetworkType
    requires FoldResources(c, resources, tagName).Ok?
    ensures c.location.Some?
    ensures resources[k].id in Entries(FoldResources(c, resources, tagName).value.state,
                                       ResolveGroup(resources[k].tags, tagName), c.location.value, AzureCloud)
    decreases |resources|
  {
    var step := ResourceStep(c, resources[0], tagName);
    assert step.Ok?;
    var r := FoldResources(step.value, resources[1..], tagName);
    assert FoldResources(c, resources, tagName) == r;
    if k == 0 {
      var res := resources[0];
      var g := ResolveGroup(res.tags, tagName);
      assert step.value.state == Insert(c.state, g, c.location.value, AzureCloud, res.id);
      assert res.id in Entries(step.value.state, g, c.location.value, AzureCloud);
      StillRecorded(res.id, step.value.state, r.value.state, g, c.location.value, AzureCloud);
    } else {
      assert resources[1..][k - 1] == resources[k];
      FoldResourcesRecords(step.value, resources[1..], tagName, k - 1);
    }
  }

  lemma {:induction false} FoldResourceGroupsRecords(c: Ctx, groups: seq<seq<GenericResource>>, tagName: string, i: nat, k: nat)
    requires i < |groups| && k < |groups[i]|
    requires groups[i][k].resourceType != VirtualMachineType && groups[i][k].resourceType != VirtualNetworkType
    requires FoldResourceGroups(c, groups, tagName).Ok?
    ensures c.location.Some?
    ensures groups[i][k].id in Entries(FoldResourceGroups(c, groups, tagName).value.state,
                                       ResolveGroup(groups[i][k].tags, tagName), c.location.value, AzureCloud)
    decreases |groups|
  {
    var step := FoldResources(c, groups[0], tagName);
    assert step.Ok?;
    var r := FoldResourceGroups(step.value, groups[1..], tagName);
    assert FoldResourceGroups(c, groups, tagName) == r;
    if i == 0 {
      FoldResourcesRecords(c, groups[0], tagName, k);
      var res := groups[0][k];
      StillRecorded(res.id, step.value.state, r.value.state, ResolveGroup(res.tags, tagName), c.location.value, AzureCloud);
    } else {
      assert groups[1..][i - 1] == groups[i];
      FoldResourceGroupsRecords(step.value, groups[1..], tagName, i - 1, k);
    }
  }

  /** The network loops leave `location_name` at the last virtual network's location,
      or the last virtual machine's when there are no virtual networks. */
  lemma NetworkPhaseLocation(inv: Inventory, tagName: string)
    requires NetworkPhase(inv, tagName).Ok?
    ensures NetworkPhase(inv, tagName).value.location == LastNetworkLocation(inv)
  {
    var afterVms := FoldVirtualMachines(Start, inv.virtualMachines, tagName, inv).value;
    assert NetworkPhase(inv, tagName) == Ok(FoldVirtualNetworks(afterVms, inv.virtualNetworks, tagName));
  }

  /** Every resource of a resource group that is not itself a virtual machine or a
      virtual network is recorded under its own tag's protect surface, but at the
      location the network loops left behind, whatever its own location; and the
      resource-group loop changes nothing but `azure_cloud` lists at that location. */
  lemma ResourcesFiledAtLastNetworkLocation(inv: Inventory, tagName: string)
    requires IntendedStateOf(inv, tagName).Ok?
    ensures forall i, k | 0 <= i < |inv.resourceGroups| && 0 <= k < |inv.resourceGroups[i]| &&
                          inv.resourceGroups[i][k].resourceType != VirtualMachineType &&
                          inv.resourceGroups[i][k].resourceType != VirtualNetworkType ::
              && LastNetworkLocation(inv).Some?
              && inv.resourceGroups[i][k].id in Entries(IntendedStateOf(inv, tagName).value,
                   ResolveGroup(inv.resourceGroups[i][k].tags, tagName), LastNetworkLocation(inv).value, AzureCloud)
    ensures LastNetworkLocation(inv).Some? ==>
              OnlyCloudAt(NetworkPhase(inv, tagName).value.state, IntendedStateOf(inv, tagName).value, LastNetworkLocation(inv).value)
  {
    var phase := NetworkPhase(inv, tagName).value;
    NetworkPhaseLocation(inv, tagName);
    var rest := FoldResourceGroups(phase, inv.resourceGroups, tagName);
    assert IntendedStateOf(inv, tagName) == Ok(rest.value.state);
    forall i, k | 0 <= i < |inv.resourceGroups| && 0 <= k < |inv.resourceGroups[i]| &&
                  inv.resourceGroups[i][k].resourceType != VirtualMachineType &&
                  inv.resourceGroups[i][k].resourceType != VirtualNetworkType
      ensures LastNetworkLocation(inv).Some?
      ensures inv.resourceGroups[i][k].id in Entries(rest.value.state,
                ResolveGroup(inv.resourceGroups[i][k].tags, tagName), LastNetworkLocation(inv).value, AzureCloud)
    {
      FoldResourceGroupsRecords(phase, inv.resourceGroups, tagName, i, k);
    }
  }

  lemma {:induction false} FoldResourceGroupsUnbound(c: Ctx, groups: seq<seq<GenericResource>>, tagName: string, i: nat)
    requires c.location.None?
    requires i < |groups| && groups[i] != []
    ensures FoldResourceGroups(c, groups, tagName).Failure?
    ensures FoldResourceGroups(c, groups, tagName).error.UnboundVariable?
    decreases |groups|
  {
    if groups[0] != [] {
      assert FoldResources(c, groups[0], tagName).Failure?;
    } else {
      assert FoldResources(c, groups[0], tagName) == Ok(c);
      assert groups[1..][i - 1] == groups[i];
      FoldResourceGroupsUnbound(c, groups[1..], tagName, i - 1);
    }
  }

  /** With no virtual machine and no virtual network, `location_name` was never bound:
      the first resource of any resource group ends the walk with `UnboundLocalError`. */
  lemma NoNetworkLocationFails(inv: Inventory, tagName: string, i: nat)
    requires inv.virtualMachines == [] && inv.virtualNetworks == []
    requires i < |inv.resourceGroups| && inv.resourceGroups[i] != []
    ensures IntendedStateOf(inv, tagName).Failure?
    ensures IntendedStateOf(inv, tagName).error.UnboundVariable?
  {
    assert NetworkPhase(inv, tagName) == Ok(Start);
    FoldResourceGroupsUnbound(Start, inv.resourceGroups, tagName, i);
  }

  // ---------------------------------------------------------------------------
  // Line 123 runs for virtual-machine and virtual-network rows too
  // ---------------------------------------------------------------------------

  /** The network loops over one untagged virtual machine without network interfaces. */
  lemma BareVirtualMachinePhase(inv: Inventory, tagName: string)
    requires |inv.virtualMachines| == 1 && inv.virtualMachines[0].tags.None?
    requires inv.virtualMachines[0].networkInterfaceIds == [] && inv.virtualNetworks == []
    ensures var vm := inv.virtualMachines[0];
            NetworkPhase(inv, tagName)
              == Ok(Ctx(Insert(Empty(), Sentinel, vm.location, AzureCloud, vm.id), Some(Sentinel), Some(vm.location), None, None))
  {
    var vm := inv.virtualMachines[0];
    var c1 := Ctx(Insert(Empty(), Sentinel, vm.location, AzureCloud, vm.id), Some(Sentinel), Some(vm.location), None, None);
    assert ResolveGroup(vm.tags, tagName) == Sentinel;
    assert FoldInterfaces(c1, Sentinel, vm.location, [], inv) == Ok(c1);
    assert VirtualMachineStep(Start, vm, tagName, inv) == Ok(c1);
    assert inv.virtualMachines[1..] == [];
    assert FoldVirtualMachines(c1, [], tagName, inv) == Ok(c1);
    assert FoldVirtualMachines(Start, inv.virtualMachines, tagName, inv) == Ok(c1);
    assert FoldVirtualNetworks(c1, [], tagName) == c1;
  }

  /** A single resource group is the resource loop over its resources. */
  lemma SingleResourceGroup(c: Ctx, resources: seq<GenericResource>, tagName: string)
    ensures FoldResourceGroups(c, [resources], tagName) == FoldResources(c, resources, tagName)
  {
    assert [resources][0] == resources && [resources][1..] == [];
  }

  /** The resource loop over two resources, one step at a time. */
  lemma TwoResources(c: Ctx, a: GenericResource, b: GenericResource, tagName: string)
    requires ResourceStep(c, a, tagName).Ok?
    ensures FoldResourceGroups(c, [[a, b]], tagName) == ResourceStep(ResourceStep(c, a, tagName).value, b, tagName)
  {
    var c' := ResourceStep(c, a, tagName).value;
    assert FoldResources(c', [b], tagName) == ResourceStep(c', b, tagName) by {
      assert [b][0] == b && [b][1..] == [];
    }
    assert FoldResources(c, [a, b], tagName) == FoldResources(c', [b], tagName) by {
      assert [a, b][0] == a && [a, b][1..] == [b];
    }
    SingleResourceGroup(c, [a, b], tagName);
  }

  /** A virtual machine without network interfaces, and one resource group listing a
      disk and then that virtual machine: the virtual-machine row re-appends the
      disk's id (the stale `resource_id`), and both disk entries sit at the virtual
      machine's location, not the disk's. */
  lemma StaleResourceIdReappended(vmId: string, vmLocation: string, diskId: string, diskType: string, diskLocation: string, tagName: string)
    requires diskType != VirtualMachineType && diskType != VirtualNetworkType
    requires diskLocation != vmLocation
    ensures var inv := Inventory([VirtualMachine(vmId, vmLocation, None, [])], [],
                                 [[GenericResource(diskId, diskType, diskLocation, None),
                                   GenericResource(vmId, VirtualMachineType, vmLocation, None)]], map[], map[]);
            && IntendedStateOf(inv, tagName).Ok?
            && Entries(IntendedStateOf(inv, tagName).value, Sentinel, vmLocation, AzureCloud) == [vmId, diskId, diskId]
            && Entries(IntendedStateOf(inv, tagName).value, Sentinel, diskLocation, AzureCloud) == []
  {
    var disk := GenericResource(diskId, diskType, diskLocation, None);
    var vmRow := GenericResource(vmId, VirtualMachineType, vmLocation, None);
    var inv := Inventory([VirtualMachine(vmId, vmLocation, None, [])], [], [[disk, vmRow]], map[], map[]);
    var s1 := Insert(Empty(), Sentinel, vmLocation, AzureCloud, vmId);
    var c1 := Ctx(s1, Some(Sentinel), Some(vmLocation), None, None);
    BareVirtualMachinePhase(inv, tagName);
    var s2 := Insert(s1, Sentinel, vmLocation, AzureCloud, diskId);
    var c2 := c1.(state := s2, resourceId := Some(diskId));
    assert ResourceStep(c1, disk, tagName) == Ok(c2);
    var s3 := Insert(s2, Sentinel, vmLocation, AzureCloud, diskId);
    assert ResourceStep(c2, vmRow, tagName) == Ok(c2.(state := s3));
    TwoResources(c1, disk, vmRow, tagName);
    assert IntendedStateOf(inv, tagName) == Ok(s3);
    StaleEntries(vmId, vmLocation, diskId, diskLocation);
  }

  lemma StaleEntries(vmId: string, vmLocation: string, diskId: string, diskLocation: string)
    requires diskLocation != vmLocation
    ensures var s3 := Insert(Insert(Insert(Empty(), Sentinel, vmLocation, AzureCloud, vmId), Sentinel, vmLocation, AzureCloud, diskId),
                             Sentinel, vmLocation, AzureCloud, diskId);
            && Entries(s3, Sentinel, vmLocation, AzureCloud) == [vmId, diskId, diskId]
            && Entries(s3, Sentinel, diskLocation, AzureCloud) == []
  {
    var s1 := Insert(Empty(), Sentinel, vmLocation, AzureCloud, vmId);
    FirstInsertEntries(vmId, vmLocation, diskLocation);
    AppendTwiceAt(s1, Sentinel, vmLocation, diskLocation, AzureCloud, diskId, diskId);
    assert [vmId] + [diskId, diskId] == [vmId, diskId, diskId];
  }

  lemma FirstInsertEntries(vmId: string, vmLocation: string, diskLocation: string)
    requires diskLocation != vmLocation
    ensures Entries(Insert(Empty(), Sentinel, vmLocation, AzureCloud, vmId), Sentinel, vmLocation, AzureCloud) == [vmId]
    ensures Entries(Insert(Empty(), Sentinel, vmLocation, AzureCloud, vmId), Sentinel, diskLocation, AzureCloud) == []
  {
    var e: IntendedState := Empty();
    assert Entries(e, Sentinel, vmLocation, AzureCloud) == [];
    assert Entries(e, Sentinel, diskLocation, AzureCloud) == [];
    OtherLocationUnchanged(e, vmLocation, diskLocation, vmId);
  }

  /** Two inserts at (g, l, ct) append both identifiers there and leave location `l'`
      alone. */
  lemma AppendTwiceAt(s: IntendedState, g: string, l: string, l': string, ct: ContentType, a: string, b: string)
    requires l' != l
    ensures var r := Insert(Insert(s, g, l, ct, a), g, l, ct, b);
            && Entries(r, g, l, ct) == Entries(s, g, l, ct) + [a, b]
            && Entries(r, g, l', ct) == Entries(s, g, l', ct)
  {
    var s1 := Insert(s, g, l, ct, a);
    assert (g, l', ct) != (g, l, ct);
    assert Entries(s1, g, l', ct) == Entries(s, g, l', ct);
    assert Entries(s, g, l, ct) + [a] + [b] == Entries(s, g, l, ct) + [a, b];
  }

  lemma OtherLocationUnchanged(s: IntendedState, l: string, l': string, id: string)
    requires l' != l
    ensures Entries(Insert(s, Sentinel, l, AzureCloud, id), Sentinel, l', AzureCloud) == Entries(s, Sentinel, l', AzureCloud)
  {
    assert (Sentinel, l', AzureCloud) != (Sentinel, l, AzureCloud);
  }

  /** The same resource group listed the other way round: the virtual-machine row
      comes before any resource has bound `resource_id`, and the walk raises. */
  lemma VirtualMachineRowFirstFails(vmId: string, vmLocation: string, diskId: string, diskType: string, diskLocation: string, tagName: string)
    ensures var inv := Inventory([VirtualMachine(vmId, vmLocation, None, [])], [],
                                 [[GenericResource(vmId, VirtualMachineType, vmLocation, None),
                                   GenericResource(diskId, diskType, diskLocation, None)]], map[], map[]);
            IntendedStateOf(inv, tagName) == Failure(UnboundVariable("resource_id"))
  {
    var vm := VirtualMachine(vmId, vmLocation, None, []);
    var disk := GenericResource(diskId, diskType, diskLocation, None);
    var vmRow := GenericResource(vmId, VirtualMachineType, vmLocation, None);
    var inv := Inventory([vm], [], [[vmRow, disk]], map[], map[]);
    var s1 := Insert(Empty(), Sentinel, vmLocation, AzureCloud, vmId);
    var c1 := Ctx(s1, Some(Sentinel), Some(vmLocation), None, None);
    BareVirtualMachinePhase(inv, tagName);
    assert ResourceStep(c1, vmRow, tagName) == Failure(UnboundVariable("resource_id"));
    assert FoldResources(c1, [vmRow, disk], tagName) == Failure(UnboundVariable("resource_id"));
    assert FoldResourceGroups(c1, [[vmRow, disk]], tagName) == Failure(UnboundVariable("resource_id"));
  }

  // ---------------------------------------------------------------------------
  // One tagged virtual machine with one private address
  // ---------------------------------------------------------------------------

  lemma FirstInsertShape(ps: string, l: string, vmId: string)
    ensures Insert(Empty(), ps, l, AzureCloud, vmId)
         == OMap([ps], map[ps := OMap([l], map[l := OMap([AzureCloud], map[AzureCloud := [vmId]])])])
  {
    var e1: LocationState := Empty();
    var loc1 := InsertAtLocation(e1, AzureCloud, vmId);
    assert [] + [vmId] == [vmId];
    assert loc1 == OMap([AzureCloud], map[AzureCloud := [vmId]]);
    var eg: GroupState := Empty();
    assert InsertAtGroup(eg, l, AzureCloud, vmId) == OMap([l], map[l := loc1]);
  }

  lemma SecondInsertAtLocation(vmId: string, address: string)
    ensures InsertAtLocation(OMap([AzureCloud], map[AzureCloud := [vmId]]), Ipv4, address)
         == OMap([AzureCloud, Ipv4], map[AzureCloud := [vmId], Ipv4 := [address]])
  {
    var loc1: LocationState := OMap([AzureCloud], map[AzureCloud := [vmId]]);
    assert Ipv4 !in loc1.vals && IdsAt(loc1, Ipv4) == [];
    assert loc1.vals[Ipv4 := [address]] == map[AzureCloud := [vmId], Ipv4 := [address]];
    assert [] + [address] == [address] && loc1.keys + [Ipv4] == [AzureCloud, Ipv4];
  }

  lemma SecondInsertAtGroup(l: string, vmId: string, address: string)
    ensures InsertAtGroup(OMap([l], map[l := OMap([AzureCloud], map[AzureCloud := [vmId]])]), l, Ipv4, address)
         == OMap([l], map[l := OMap([AzureCloud, Ipv4], map[AzureCloud := [vmId], Ipv4 := [address]])])
  {
    SecondInsertAtLocation(vmId, address);
    var loc1: LocationState := OMap([AzureCloud], map[AzureCloud := [vmId]]);
    var g1: GroupState := OMap([l], map[l := loc1]);
    var loc2: LocationState := OMap([AzureCloud, Ipv4], map[AzureCloud := [vmId], Ipv4 := [address]]);
    assert LocationOf(g1, l) == loc1;
    assert g1.vals[l := loc2] == map[l := loc2];
  }

  lemma SecondInsertShape(ps: string, l: string, vmId: string, address: string)
    ensures Insert(OMap([ps], map[ps := OMap([l], map[l := OMap([AzureCloud], map[AzureCloud := [vmId]])])]), ps, l, Ipv4, address)
         == OMap([ps], map[ps := OMap([l], map[l := OMap([AzureCloud, Ipv4], map[AzureCloud := [vmId], Ipv4 := [address]])])])
  {
    SecondInsertAtGroup(l, vmId, address);
    var g1: GroupState := OMap([l], map[l := OMap([AzureCloud], map[AzureCloud := [vmId]])]);
    var s1: IntendedState := OMap([ps], map[ps := g1]);
    var g2: GroupState := OMap([l], map[l := OMap([AzureCloud, Ipv4], map[AzureCloud := [vmId], Ipv4 := [address]])]);
    assert GroupOf(s1, ps) == g1;
    assert s1.vals[ps := g2] == map[ps := g2];
  }

  /** The two inserts of that virtual machine, as nested dictionaries. */
  lemma TwoInsertsShape(ps: string, l: string, vmId: string, address: string)
    ensures Insert(Insert(Empty(), ps, l, AzureCloud, vmId), ps, l, Ipv4, address)
         == OMap([ps], map[ps := OMap([l], map[l := OMap([AzureCloud, Ipv4], map[AzureCloud := [vmId], Ipv4 := [address]])])])
  {
    FirstInsertShape(ps, l, vmId);
    SecondInsertShape(ps, l, vmId, address);
  }

  /** A virtual machine tagged with protect surface `ps`, with one network interface
      holding one private address and no public IP, and nothing else in the
      subscription: the intended state is exactly
      `{ps: {location: {"azure_cloud": [vm id], "ipv4": [address]}}}`. */
  lemma SingleVirtualMachineState(inv: Inventory, tagName: string, ps: string, rg: string, address: string)
    requires |inv.virtualMachines| == 1 && |inv.virtualMachines[0].networkInterfaceIds| == 1
    requires inv.virtualMachines[0].tags.Some? && tagName in inv.virtualMachines[0].tags.value
    requires inv.virtualMachines[0].tags.value[tagName] == ps
    requires inv.virtualNetworks == [] && inv.resourceGroups == []
    requires var nicId := inv.virtualMachines[0].networkInterfaceIds[0];
             && ResourceGroupOf(nicId) == Some(rg)
             && (rg, NameOf(nicId)) in inv.networkInterfaces
             && inv.networkInterfaces[(rg, NameOf(nicId))] == [IpConfiguration(address, None)]
    ensures var vm := inv.virtualMachines[0];
            IntendedStateOf(inv, tagName)
              == Ok(OMap([ps], map[ps := OMap([vm.location], map[vm.location := OMap([AzureCloud, Ipv4],
                    map[AzureCloud := [vm.id], Ipv4 := [address]])])]))
  {
    var vm := inv.virtualMachines[0];
    var l := vm.location;
    var nicId := vm.networkInterfaceIds[0];
    var config := IpConfiguration(address, None);
    assert ResolveGroup(vm.tags, tagName) == ps;
    var c1 := Start.(state := Insert(Empty(), ps, l, AzureCloud, vm.id), group := Some(ps), location := Some(l));
    var c2 := c1.(state := Insert(c1.state, ps, l, Ipv4, address), ipConfig := Some(config));
    assert FoldIpConfigurations(c2, ps, l, []) == c2;
    assert FoldIpConfigurations(c1, ps, l, [config]) == c2;
    assert PublicIpStep(c2, ps, l, inv) == Ok(c2);
    assert InterfaceStep(c1, ps, l, nicId, inv) == Ok(c2);
    assert vm.networkInterfaceIds[1..] == [];
    assert FoldInterfaces(c2, ps, l, [], inv) == Ok(c2);
    assert FoldInterfaces(c1, ps, l, vm.networkInterfaceIds, inv) == Ok(c2);
    assert VirtualMachineStep(Start, vm, tagName, inv) == Ok(c2);
    assert inv.virtualMachines[1..] == [];
    assert FoldVirtualMachines(c2, [], tagName, inv) == Ok(c2);
    assert FoldVirtualMachines(Start, inv.virtualMachines, tagName, inv) == Ok(c2);
    assert NetworkPhase(inv, tagName) == Ok(c2);
    assert FoldResourceGroups(c2, [], tagName) == Ok(c2);
    assert IntendedStateOf(inv, tagName) == Ok(c2.state);
    TwoInsertsShape(ps, l, vm.id, address);
  }
}
