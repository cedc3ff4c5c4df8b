/**
  The converse of the "recorded" lemmas: add_resources_to_state invents nothing. Every
  `azure_cloud` entry of the intended state is the id of a virtual machine, a virtual
  network or a resource of the inventory, and every `ipv4` entry is a private address of
  a network interface, a public IP address or a subnet prefix of the inventory.
 */
module EnumeratorProvenance {
  import opened Wrappers
  import opened OrderedMaps
  import opened IntendedStates
  import opened ArmIds
  import opened Enumerator

  /** `x` is the id of a virtual machine, a virtual network or a resource of `inv`. */
  ghost predicate CloudIdOf(inv: Inventory, x: string) {
    || (exists vm | vm in inv.virtualMachines :: vm.id == x)
    || (exists vnet | vnet in inv.virtualNetworks :: vnet.id == x)
    || (exists i, k | 0 <= i < |inv.resourceGroups| && 0 <= k < |inv.resourceGroups[i]| :: inv.resourceGroups[i][k].id == x)
  }

  /** `x` is a private address of a network interface, a public IP address or a subnet
      prefix of `inv`. */
  ghost predicate AddressOf(inv: Inventory, x: string) {
    || (exists key, j | key in inv.networkInterfaces && 0 <= j < |inv.networkInterfaces[key]| ::
          inv.networkInterfaces[key][j].privateIpAddress == x)
    || (exists key | key in inv.publicIpAddresses :: inv.publicIpAddresses[key] == x)
    || (exists vnet | vnet in inv.virtualNetworks :: x in vnet.subnetPrefixes)
  }

  ghost predicate FromInventory(inv: Inventory, ct: ContentType, x: string) {
    match ct
    case AzureCloud => CloudIdOf(inv, x)
    case Ipv4 => AddressOf(inv, x)
  }

  /** Every entry of `s` comes from `inv`. */
  ghost predicate Sourced(inv: Inventory, s: IntendedState) {
    forall g, l, ct, x | x in Entries(s, g, l, ct) :: FromInventory(inv, ct, x)
  }

  /** The same for a context, whose leftover `resource_id` line 123 may record again. */
  ghost predicate CtxSourced(inv: Inventory, c: Ctx) {
    Sourced(inv, c.state) && (c.resourceId.Some? ==> CloudIdOf(inv, c.resourceId.value))
  }

  lemma InsertSourced(inv: Inventory, s: IntendedState, g: string, l: string, ct: ContentType, id: string)
    requires Sourced(inv, s) && FromInventory(inv, ct, id)
    ensures Sourced(inv, Insert(s, g, l, ct, id))
  {
    var r := Insert(s, g, l, ct, id);
    forall g', l', ct', x | x in Entries(r, g', l', ct') ensures FromInventory(inv, ct', x) {
      if (g', l', ct') == (g, l, ct) {
        assert Entries(r, g, l, ct) == Entries(s, g, l, ct) + [id];
      } else {
        assert Entries(r, g', l', ct') == Entries(s, g', l', ct');
      }
    }
  }

  /** A state that differs from a sourced one only in the list at (g, l, ct), whose new
      entries all come from the inventory, is sourced. */
  lemma ChangedListSourced(inv: Inventory, s: IntendedState, r: IntendedState, g: string, l: string, ct: ContentType)
    requires Sourced(inv, s)
    requires OnlyChanged(s, r, g, l, ct)
    requires forall x | x in Entries(r, g, l, ct) :: FromInventory(inv, ct, x)
    ensures Sourced(inv, r)
  {
    forall g', l', ct', x | x in Entries(r, g', l', ct') ensures FromInventory(inv, ct', x) {
      if (g', l', ct') != (g, l, ct) {
        assert Entries(r, g', l', ct') == Entries(s, g', l', ct');
      }
    }
  }

  lemma {:induction false} FoldIpConfigurationsSourced(inv: Inventory, c: Ctx, g: string, l: string, configs: seq<IpConfiguration>)
    requires CtxSourced(inv, c)
    requires forall j | 0 <= j < |configs| :: AddressOf(inv, configs[j].privateIpAddress)
    ensures CtxSourced(inv, FoldIpConfigurations(c, g, l, configs))
    decreases |configs|
  {
    if configs != [] {
      InsertSourced(inv, c.state, g, l, Ipv4, configs[0].privateIpAddress);
      var c' := c.(state := Insert(c.state, g, l, Ipv4, configs[0].privateIpAddress), ipConfig := Some(configs[0]));
      assert forall j | 0 <= j < |configs[1..]| :: configs[1..][j] == configs[j + 1];
      FoldIpConfigurationsSourced(inv, c', g, l, configs[1..]);
    }
  }

  lemma PublicIpStepSourced(inv: Inventory, c: Ctx, g: string, l: string)
    requires CtxSourced(inv, c)
    ensures PublicIpStep(c, g, l, inv).Ok? ==> CtxSourced(inv, PublicIpStep(c, g, l, inv).value)
  {
    if c.ipConfig.Some? && c.ipConfig.value.publicIpAddressId.Some? {
      var pid := c.ipConfig.value.publicIpAddressId.value;
      if ResourceGroupOf(pid).Some? {
        var key := (ResourceGroupOf(pid).value, NameOf(pid));
        if key in inv.publicIpAddresses {
          assert AddressOf(inv, inv.publicIpAddresses[key]);
          InsertSourced(inv, c.state, g, l, Ipv4, inv.publicIpAddresses[key]);
        }
      }
    }
  }

  lemma InterfaceStepSourced(inv: Inventory, c: Ctx, g: string, l: string, nicId: string)
    requires CtxSourced(inv, c)
    ensures InterfaceStep(c, g, l, nicId, inv).Ok? ==> CtxSourced(inv, InterfaceStep(c, g, l, nicId, inv).value)
  {
    if ResourceGroupOf(nicId).Some? {
      var key := (ResourceGroupOf(nicId).value, NameOf(nicId));
      if key in inv.networkInterfaces {
        var configs := inv.networkInterfaces[key];
        forall j | 0 <= j < |configs| ensures AddressOf(inv, configs[j].privateIpAddress) {
          assert inv.networkInterfaces[key][j].privateIpAddress == configs[j].privateIpAddress;
        }
        FoldIpConfigurationsSourced(inv, c, g, l, configs);
        PublicIpStepSourced(inv, FoldIpConfigurations(c, g, l, configs), g, l);
      }
    }
  }

  lemma {:induction false} FoldInterfacesSourced(inv: Inventory, c: Ctx, g: string, l: string, nicIds: seq<string>)
    requires CtxSourced(inv, c)
    ensures FoldInterfaces(c, g, l, nicIds, inv).Ok? ==> CtxSourced(inv, FoldInterfaces(c, g, l, nicIds, inv).value)
    decreases |nicIds|
  {
    if nicIds != [] {
      InterfaceStepSourced(inv, c, g, l, nicIds[0]);
      var step := InterfaceStep(c, g, l, nicIds[0], inv);
      if step.Ok? {
        FoldInterfacesSourced(inv, step.value, g, l, nicIds[1..]);
      }
    }
  }

  lemma {:induction false} FoldVirtualMachinesSourced(inv: Inventory, c: Ctx, vms: seq<VirtualMachine>, tagName: string)
    requires CtxSourced(inv, c)
    requires forall vm | vm in vms :: vm in inv.virtualMachines
    ensures FoldVirtualMachines(c, vms, tagName, inv).Ok? ==> CtxSourced(inv, FoldVirtualMachines(c, vms, tagName, inv).value)
    decreases |vms|
  {
    if vms != [] {
      var vm := vms[0];
      var g := ResolveGroup(vm.tags, tagName);
      assert CloudIdOf(inv, vm.id);
      InsertSourced(inv, c.state, g, vm.location, AzureCloud, vm.id);
      var c' := c.(state := Insert(c.state, g, vm.location, AzureCloud, vm.id), group := Some(g), location := Some(vm.location));
      FoldInterfacesSourced(inv, c', g, vm.location, vm.networkInterfaceIds);
      var step := VirtualMachineStep(c, vm, tagName, inv);
      assert step == FoldInterfaces(c', g, vm.location, vm.networkInterfaceIds, inv);
      if step.Ok? {
        FoldVirtualMachinesSourced(inv, step.value, vms[1..], tagName);
      }
    }
  }

  lemma VirtualNetworkStepSourced(inv: Inventory, c: Ctx, vnet: VirtualNetwork, tagName: string)
    requires CtxSourced(inv, c)
    requires vnet in inv.virtualNetworks
    ensures CtxSourced(inv, VirtualNetworkStep(c, vnet, tagName))
  {
    var g := ResolveGroup(vnet.tags, tagName);
    var l := vnet.location;
    assert CloudIdOf(inv, vnet.id);
    InsertSourced(inv, c.state, g, l, AzureCloud, vnet.id);
    var s := Insert(c.state, g, l, AzureCloud, vnet.id);
    var r := FoldSubnets(s, g, l, vnet.subnetPrefixes);
    assert VirtualNetworkStep(c, vnet, tagName).state == r;
    forall x | x in Entries(r, g, l, Ipv4) ensures FromInventory(inv, Ipv4, x) {
      if x !in vnet.subnetPrefixes {
        assert x in Entries(s, g, l, Ipv4);
      }
    }
    ChangedListSourced(inv, s, r, g, l, Ipv4);
  }

  lemma {:induction false} FoldVirtualNetworksSourced(inv: Inventory, c: Ctx, vnets: seq<VirtualNetwork>, tagName: string)
    requires CtxSourced(inv, c)
    requires forall vnet | vnet in vnets :: vnet in inv.virtualNetworks
    ensures CtxSourced(inv, FoldVirtualNetworks(c, vnets, tagName))
    decreases |vnets|
  {
    if vnets != [] {
      VirtualNetworkStepSourced(inv, c, vnets[0], tagName);
      var step := VirtualNetworkStep(c, vnets[0], tagName);
      FoldVirtualNetworksSourced(inv, step, vnets[1..], tagName);
      assert FoldVirtualNetworks(c, vnets, tagName) == FoldVirtualNetworks(step, vnets[1..], tagName);
    }
  }

  lemma ResourceStepSourced(inv: Inventory, c: Ctx, res: GenericResource, tagName: string)
    requires CtxSourced(inv, c)
    requires CloudIdOf(inv, res.id)
    ensures ResourceStep(c, res, tagName).Ok? ==> CtxSourced(inv, ResourceStep(c, res, tagName).value)
  {
    var c' :=
      if res.resourceType != VirtualMachineType && res.resourceType != VirtualNetworkType
      then c.(group := Some(ResolveGroup(res.tags, tagName)), resourceId := Some(res.id))
      else c;
    if c'.group.Some? && c'.location.Some? && c'.resourceId.Some? {
      InsertSourced(inv, c'.state, c'.group.value, c'.location.value, AzureCloud, c'.resourceId.value);
    }
  }

  lemma {:induction false} FoldResourcesSourced(inv: Inventory, c: Ctx, resources: seq<GenericResource>, tagName: string)
    requires CtxSourced(inv, c)
    requires forall k | 0 <= k < |resources| :: CloudIdOf(inv, resources[k].id)
    ensures FoldResources(c, resources, tagName).Ok? ==> CtxSourced(inv, FoldResources(c, resources, tagName).value)
    decreases |resources|
  {
    if resources != [] {
      ResourceStepSourced(inv, c, resources[0], tagName);
      var step := ResourceStep(c, resources[0], tagName);
      if step.Ok? {
        assert forall k | 0 <= k < |resources[1..]| :: resources[1..][k] == resources[k + 1];
        FoldResourcesSourced(inv, step.value, resources[1..], tagName);
      }
    }
  }

  lemma {:induction false} FoldResourceGroupsSourced(inv: Inventory, c: Ctx, groups: seq<seq<GenericResource>>, tagName: string)
    requires CtxSourced(inv, c)
    requires forall i, k | 0 <= i < |groups| && 0 <= k < |groups[i]| :: CloudIdOf(inv, groups[i][k].id)
    ensures FoldResourceGroups(c, groups, tagName).Ok? ==> CtxSourced(inv, FoldResourceGroups(c, groups, tagName).value)
    decreases |groups|
  {
    if groups != [] {
      FoldResourcesSourced(inv, c, groups[0], tagName);
      var step := FoldResources(c, groups[0], tagName);
      if step.Ok? {
        assert forall i | 0 <= i < |groups[1..]| :: groups[1..][i] == groups[i + 1];
        FoldResourceGroupsSourced(inv, step.value, groups[1..], tagName);
      }
    }
  }

  /** add_resources_to_state records nothing that is not in the inventory: each
      `azure_cloud` entry is the id of a virtual machine, virtual network or resource,
      and each `ipv4` entry is a private address, a public IP address or a subnet prefix. */
  lemma IntendedStateFromInventory(inv: Inventory, tagName: string)
    requires IntendedStateOf(inv, tagName).Ok?
    ensures forall g, l, x | x in Entries(IntendedStateOf(inv, tagName).value, g, l, AzureCloud) :: CloudIdOf(inv, x)
    ensures forall g, l, x | x in Entries(IntendedStateOf(inv, tagName).value, g, l, Ipv4) :: AddressOf(inv, x)
  {
    assert CtxSourced(inv, Start);
    FoldVirtualMachinesSourced(inv, Start, inv.virtualMachines, tagName);
    var afterVms := FoldVirtualMachines(Start, inv.virtualMachines, tagName, inv).value;
    FoldVirtualNetworksSourced(inv, afterVms, inv.virtualNetworks, tagName);
    var phase := FoldVirtualNetworks(afterVms, inv.virtualNetworks, tagName);
    assert NetworkPhase(inv, tagName) == Ok(phase);
    forall i, k | 0 <= i < |inv.resourceGroups| && 0 <= k < |inv.resourceGroups[i]|
      ensures CloudIdOf(inv, inv.resourceGroups[i][k].id)
    {
    }
    FoldResourceGroupsSourced(inv, phase, inv.resourceGroups, tagName);
    var r := IntendedStateOf(inv, tagName).value;
    assert Sourced(inv, r);
    forall g, l, x | x in Entries(r, g, l, AzureCloud) ensures CloudIdOf(inv, x) {
      assert FromInventory(inv, AzureCloud, x);
    }
    forall g, l, x | x in Entries(r, g, l, Ipv4) ensures AddressOf(inv, x) {
      assert FromInventory(inv, Ipv4, x);
    }
  }
}
