/**
 * Builders that turn one Azure network resource into one normalised entity record
 * (load balancers, network interfaces, public IP addresses, subnets, security groups and
 * virtual networks). Each record holds the properties the builder assigns; absent
 * JavaScript properties are `None`.
 */
module Network {
  import opened Wrappers
  import opened Sdk

  /** The `_type`/`_class` constant pair of each entity kind. */
  datatype NetworkEntityKind =
    | LoadBalancerKind | NetworkInterfaceKind | PublicIpAddressKind
    | SubnetKind | SecurityGroupKind | VirtualNetworkKind

  datatype PublicIPAddressRef = PublicIPAddressRef(ipAddress: Option<string>)

  /** An IP configuration or a frontend IP configuration; only the two address fields matter. */
  datatype IPConfiguration = IPConfiguration(
    privateIPAddress: Option<string>,
    publicIPAddress: Option<PublicIPAddressRef>)

  datatype SubResource = SubResource(id: Option<string>)

  datatype Sku = Sku(name: Option<string>)

  datatype LoadBalancer = LoadBalancer(
    id: Option<string>, name: Option<string>, resourceType: Option<string>,
    location: Option<string>, resourceGuid: Option<string>,
    frontendIPConfigurations: Option<seq<IPConfiguration>>)

  datatype NetworkInterface = NetworkInterface(
    id: Option<string>, name: Option<string>, resourceType: Option<string>,
    location: Option<string>, resourceGuid: Option<string>, macAddress: Option<string>,
    enableIPForwarding: Option<bool>, virtualMachine: Option<SubResource>,
    networkSecurityGroup: Option<SubResource>, ipConfigurations: Option<seq<IPConfiguration>>)

  datatype PublicIPAddress = PublicIPAddress(
    id: Option<string>, name: Option<string>, resourceType: Option<string>,
    location: Option<string>, resourceGuid: Option<string>, ipAddress: Option<string>,
    sku: Option<Sku>)

  datatype Subnet = Subnet(id: Option<string>, name: Option<string>, addressPrefix: Option<string>)

  datatype AddressSpace = AddressSpace(addressPrefixes: Option<seq<string>>)

  datatype VirtualNetwork = VirtualNetwork(
    id: Option<string>, name: Option<string>, location: Option<string>,
    tags: Option<map<string, string>>, addressSpace: Option<AddressSpace>)

  datatype NetworkSecurityGroup = NetworkSecurityGroup(
    id: Option<string>, location: Option<string>, tags: Option<map<string, string>>,
    subnets: Option<seq<SubResource>>, networkInterfaces: Option<seq<SubResource>>)

  datatype LoadBalancerEntity = LoadBalancerEntity(
    key: Option<string>, kind: NetworkEntityKind, category: seq<string>,
    functions: seq<string>, resourceGuid: Option<string>, resourceGroup: Option<string>,
    displayName: Option<string>, resourceType: Option<string>, region: Option<string>,
    publicIp: seq<Option<string>>, privateIp: seq<string>, isPublic: bool,
    webLink: Option<string>)

  datatype NetworkInterfaceEntity = NetworkInterfaceEntity(
    key: Option<string>, kind: NetworkEntityKind, resourceGuid: Option<string>,
    resourceGroup: Option<string>, displayName: Option<string>,
    virtualMachineId: Option<string>, resourceType: Option<string>, region: Option<string>,
    publicIp: Option<string>, publicIpAddress: Option<string>, privateIp: seq<string>,
    privateIpAddress: seq<string>, macAddress: Option<string>,
    securityGroupId: Option<string>, ipForwarding: Option<bool>, webLink: Option<string>)

  datatype PublicIPAddressEntity = PublicIPAddressEntity(
    key: Option<string>, kind: NetworkEntityKind, resourceGuid: Option<string>,
    resourceGroup: Option<string>, displayName: Option<string>,
    resourceType: Option<string>, region: Option<string>, publicIp: Option<string>,
    publicIpAddress: Option<string>, isPublic: bool, webLink: Option<string>,
    sku: Option<string>)

  /**
   * The value a CIDR property takes in JavaScript: a subnet's `addressPrefix` (or
   * `undefined`), or a virtual network's `&&` chain, which yields `undefined` when the
   * address space or its prefix list is missing and `false` when the list is empty.
   */
  datatype Cidr = CidrUndefined | CidrFalse | CidrPrefix(prefix: string)

  datatype SubnetEntity = SubnetEntity(
    kind: NetworkEntityKind, displayName: string, webLink: Option<string>, cidr: Cidr,
    isPublic: bool, internal: bool, region: Option<string>, resourceGroup: Option<string>,
    environment: Option<string>)

  datatype SecurityGroupEntity = SecurityGroupEntity(
    kind: NetworkEntityKind, webLink: Option<string>, region: Option<string>,
    resourceGroup: Option<string>, category: seq<string>, environment: Option<string>)

  datatype VirtualNetworkEntity = VirtualNetworkEntity(
    kind: NetworkEntityKind, displayName: string, webLink: Option<string>, cidr: Cidr,
    isPublic: bool, internal: bool, region: Option<string>, resourceGroup: Option<string>,
    environment: Option<string>)

  // ---------------------------------------------------------------------------------------
  // Template-literal rendering

  /** `${v}` for an optional string: `undefined` prints as "undefined". */
  function RenderOption(v: Option<string>): (s: string)
    ensures v.Some? ==> s == v.value
  {
    match v
    case Some(s) => s
    case None => "undefined"
  }

  /** `${CIDR}`: `undefined` and `false` print as their names. */
  function RenderCidr(c: Cidr): (s: string)
    ensures c.CidrPrefix? ==> s == c.prefix
  {
    match c
    case CidrUndefined => "undefined"
    case CidrFalse => "false"
    case CidrPrefix(p) => p
  }

  /** `${name} (${CIDR})`: the rendered name, then the rendered CIDR in parentheses. */
  function CidrDisplayName(name: Option<string>, c: Cidr): (s: string)
    ensures |s| == |RenderOption(name)| + |RenderCidr(c)| + 3
    ensures s[..|RenderOption(name)|] == RenderOption(name)
    ensures s[|RenderOption(name)|..|RenderOption(name)| + 2] == " ("
    ensures s[|s| - 1] == ')'
  {
    RenderOption(name) + " (" + RenderCidr(c) + ")"
  }

  /** For one name, the display name determines the rendered CIDR. */
  lemma CidrDisplayNameDeterminesCidr(name: Option<string>, c1: Cidr, c2: Cidr)
    requires CidrDisplayName(name, c1) == CidrDisplayName(name, c2)
    ensures RenderCidr(c1) == RenderCidr(c2)
  {
    var n := |RenderOption(name)|;
    var s1, s2 := CidrDisplayName(name, c1), CidrDisplayName(name, c2);
    assert s1[n + 2..|s1| - 1] == RenderCidr(c1);
    assert s2[n + 2..|s2| - 1] == RenderCidr(c2);
  }

  /** The value of tag `tag`, when the resource has tags and that one among them. */
  function TagValue(tags: Option<map<string, string>>, tag: string): (v: Option<string>)
    ensures v.Some? <==> tags.Some? && tag in tags.value
    ensures v.Some? ==> v.value == tags.value[tag]
  {
    if tags.Some? && tag in tags.value then Some(tags.value[tag]) else None
  }

  // ---------------------------------------------------------------------------------------
  // IP address lists

  /** Has a public address sub-object (any object is truthy). */
  predicate CarriesPublicIp(c: IPConfiguration) {
    c.publicIPAddress.Some?
  }

  /** Has a truthy (present, non-empty) private address. */
  predicate CarriesPrivateIp(c: IPConfiguration) {
    Truthy(c.privateIPAddress)
  }

  /** Filter the configurations that carry a public address, then project its `ipAddress`. */
  function PublicIps(cs: seq<IPConfiguration>): (r: seq<Option<string>>)
    ensures |r| <= |cs|
    decreases |cs|
  {
    if cs == [] then []
    else
      (if CarriesPublicIp(cs[0]) then [cs[0].publicIPAddress.value.ipAddress] else [])
      + PublicIps(cs[1..])
  }

  /** Filter the configurations with a truthy private address, then project it. */
  function PrivateIps(cs: seq<IPConfiguration>): (r: seq<string>)
    ensures |r| <= |cs|
    ensures forall i :: 0 <= i < |r| ==> r[i] != ""
    decreases |cs|
  {
    if cs == [] then []
    else
      (if CarriesPrivateIp(cs[0]) then [cs[0].privateIPAddress.value] else [])
      + PrivateIps(cs[1..])
  }

  /** `publicIpAddresses`: an absent list gives the empty list. */
  function PublicIpAddresses(configs: Option<seq<IPConfiguration>>): (r: seq<Option<string>>)
    ensures configs.None? ==> r == []
    ensures configs.Some? ==> |r| <= |configs.value|
  {
    match configs
    case None => []
    case Some(cs) => PublicIps(cs)
  }

  /** `privateIpAddresses`: an absent list gives the empty list. */
  function PrivateIpAddresses(configs: Option<seq<IPConfiguration>>): (r: seq<string>)
    ensures configs.None? ==> r == []
    ensures configs.Some? ==> |r| <= |configs.value|
    ensures forall i :: 0 <= i < |r| ==> r[i] != ""
  {
    match configs
    case None => []
    case Some(cs) => PrivateIps(cs)
  }

  /** Filter-then-project keeps source order: it distributes over concatenation. */
  lemma {:induction false} PublicIpsAppend(a: seq<IPConfiguration>, b: seq<IPConfiguration>)
    ensures PublicIps(a + b) == PublicIps(a) + PublicIps(b)
    decreases |a|
  {
    if a != [] {
      assert (a + b)[0] == a[0];
      assert (a + b)[1..] == a[1..] + b;
      PublicIpsAppend(a[1..], b);
    } else {
      assert a + b == b;
    }
  }

  /** Filter-then-project keeps source order: it distributes over concatenation. */
  lemma {:induction false} PrivateIpsAppend(a: seq<IPConfiguration>, b: seq<IPConfiguration>)
    ensures PrivateIps(a + b) == PrivateIps(a) + PrivateIps(b)
    decreases |a|
  {
    if a != [] {
      assert (a + b)[0] == a[0];
      assert (a + b)[1..] == a[1..] + b;
      PrivateIpsAppend(a[1..], b);
    } else {
      assert a + b == b;
    }
  }

  /** One configuration contributes its public `ipAddress` exactly when it carries a public address. */
  lemma PublicIpsSingle(c: IPConfiguration)
    ensures PublicIps([c]) == if CarriesPublicIp(c) then [c.publicIPAddress.value.ipAddress] else []
  {
    assert [c][1..] == [];
  }

  /** One configuration contributes its private address exactly when that address is truthy. */
  lemma PrivateIpsSingle(c: IPConfiguration)
    ensures PrivateIps([c]) == if CarriesPrivateIp(c) then [c.privateIPAddress.value] else []
  {
    assert [c][1..] == [];
  }

  /** The public list is empty exactly when no configuration carries a public address. */
  lemma {:induction false} PublicIpsEmptyIff(cs: seq<IPConfiguration>)
    ensures PublicIps(cs) == [] <==> forall i :: 0 <= i < |cs| ==> !CarriesPublicIp(cs[i])
    decreases |cs|
  {
    if cs != [] {
      PublicIpsEmptyIff(cs[1..]);
      assert forall i :: 1 <= i < |cs| ==> cs[i] == cs[1..][i - 1];
    }
  }

  /** The private list is empty exactly when no configuration has a truthy private address. */
  lemma {:induction false} PrivateIpsEmptyIff(cs: seq<IPConfiguration>)
    ensures PrivateIps(cs) == [] <==> forall i :: 0 <= i < |cs| ==> !CarriesPrivateIp(cs[i])
    decreases |cs|
  {
    if cs != [] {
      PrivateIpsEmptyIff(cs[1..]);
      assert forall i :: 1 <= i < |cs| ==> cs[i] == cs[1..][i - 1];
    }
  }

  /** Some configuration of the (present) list carries a public address. */
  predicate AnyPublicIp(configs: Option<seq<IPConfiguration>>) {
    configs.Some? && exists i :: 0 <= i < |configs.value| && CarriesPublicIp(configs.value[i])
  }

  /** `publicIpAddresses` is empty exactly when no configuration carries a public address. */
  lemma PublicIpAddressesEmptyIff(configs: Option<seq<IPConfiguration>>)
    ensures PublicIpAddresses(configs) == [] <==> !AnyPublicIp(configs)
  {
    if configs.Some? {
      PublicIpsEmptyIff(configs.value);
    }
  }

  // ---------------------------------------------------------------------------------------
  // Entity builders

  function CreateLoadBalancerEntity(h: Helpers, data: LoadBalancer): (e: LoadBalancerEntity)
    ensures e.key == data.id && e.kind == LoadBalancerKind
    ensures e.category == ["network"] && e.functions == ["load-balancing"]
    ensures e.isPublic <==> |e.publicIp| > 0
    ensures e.isPublic <==> AnyPublicIp(data.frontendIPConfigurations)
    ensures e.publicIp == PublicIpAddresses(data.frontendIPConfigurations)
    ensures e.privateIp == PrivateIpAddresses(data.frontendIPConfigurations)
    ensures e.displayName == data.name && e.region == data.location
  {
    PublicIpAddressesEmptyIff(data.frontendIPConfigurations);
    var publicIp := PublicIpAddresses(data.frontendIPConfigurations);
    var privateIp := PrivateIpAddresses(data.frontendIPConfigurations);
    LoadBalancerEntity(
      data.id, LoadBalancerKind, ["network"], ["load-balancing"], data.resourceGuid,
      h.resourceGroupName(data.id, None), data.name, data.resourceType, data.location,
      publicIp, privateIp, |publicIp| > 0, h.portalResourceUrl(data.id))
  }

  function CreateNetworkInterfaceEntity(h: Helpers, data: NetworkInterface): (e: NetworkInterfaceEntity)
    ensures e.key == data.id && e.kind == NetworkInterfaceKind
    ensures e.privateIp == e.privateIpAddress == PrivateIpAddresses(data.ipConfigurations)
    ensures e.publicIp.None? && e.publicIpAddress.None?
    ensures e.virtualMachineId.Some? ==>
      data.virtualMachine.Some? && e.virtualMachineId == data.virtualMachine.value.id
    ensures data.virtualMachine.Some? ==> e.virtualMachineId == data.virtualMachine.value.id
    ensures e.securityGroupId.Some? ==>
      data.networkSecurityGroup.Some? && e.securityGroupId == data.networkSecurityGroup.value.id
    ensures data.networkSecurityGroup.Some? ==> e.securityGroupId == data.networkSecurityGroup.value.id
    ensures e.displayName == data.name && e.region == data.location
  {
    var privateIps := PrivateIpAddresses(data.ipConfigurations);
    NetworkInterfaceEntity(
      data.id, NetworkInterfaceKind, data.resourceGuid, h.resourceGroupName(data.id, None),
      data.name,
      if data.virtualMachine.Some? then data.virtualMachine.value.id else None,
      data.resourceType, data.location, None, None, privateIps, privateIps, data.macAddress,
      if data.networkSecurityGroup.Some? then data.networkSecurityGroup.value.id else None,
      data.enableIPForwarding, h.portalResourceUrl(data.id))
  }

  function CreatePublicIPAddressEntity(h: Helpers, data: PublicIPAddress): (e: PublicIPAddressEntity)
    ensures e.key == data.id && e.kind == PublicIpAddressKind
    ensures e.isPublic
    ensures e.publicIp == e.publicIpAddress == data.ipAddress
    ensures e.sku.Some? ==> data.sku.Some? && e.sku == data.sku.value.name
    ensures data.sku.Some? ==> e.sku == data.sku.value.name
    ensures e.displayName == data.name && e.region == data.location
  {
    PublicIPAddressEntity(
      data.id, PublicIpAddressKind, data.resourceGuid, h.resourceGroupName(data.id, None),
      data.name, data.resourceType, data.location, data.ipAddress, data.ipAddress, true,
      h.portalResourceUrl(data.id), if data.sku.Some? then data.sku.value.name else None)
  }

  /** The subnet's CIDR is its `addressPrefix`; region and environment come from the parent network. */
  function CreateSubnetEntity(h: Helpers, vnet: VirtualNetwork, data: Subnet): (e: SubnetEntity)
    ensures e.kind == SubnetKind && !e.isPublic && e.internal
    ensures e.cidr == (if data.addressPrefix.Some? then CidrPrefix(data.addressPrefix.value) else CidrUndefined)
    ensures e.displayName == CidrDisplayName(data.name, e.cidr)
    ensures e.region == vnet.location && e.environment == TagValue(vnet.tags, "environment")
  {
    var cidr := if data.addressPrefix.Some? then CidrPrefix(data.addressPrefix.value) else CidrUndefined;
    SubnetEntity(
      SubnetKind, CidrDisplayName(data.name, cidr), h.portalResourceUrl(data.id), cidr,
      false, true, vnet.location, h.resourceGroupName(data.id, None),
      TagValue(vnet.tags, "environment"))
  }

  /** The list is present and non-empty. */
  predicate NonEmpty(xs: Option<seq<SubResource>>) {
    xs.Some? && |xs.value| > 0
  }

  /** The `category` list pushed up by the security-group builder. */
  function SecurityGroupCategory(data: NetworkSecurityGroup): (r: seq<string>)
    ensures "network" in r <==> NonEmpty(data.subnets)
    ensures "host" in r <==> NonEmpty(data.networkInterfaces)
    ensures forall i :: 0 <= i < |r| ==> r[i] == "network" || r[i] == "host"
    ensures forall i, j :: 0 <= i < j < |r| ==> r[i] != r[j]
    ensures forall i, j :: 0 <= i < |r| && 0 <= j < |r| && r[i] == "network" && r[j] == "host" ==> i < j
    ensures |r| <= 2
  {
    var withNetwork: seq<string> := if NonEmpty(data.subnets) then ["network"] else [];
    withNetwork + (if NonEmpty(data.networkInterfaces) then ["host"] else [])
  }

  function CreateNetworkSecurityGroupEntity(h: Helpers, data: NetworkSecurityGroup): (e: SecurityGroupEntity)
    ensures e.kind == SecurityGroupKind && e.region == data.location
    ensures e.category == SecurityGroupCategory(data)
    ensures e.environment == TagValue(data.tags, "environment")
  {
    SecurityGroupEntity(
      SecurityGroupKind, h.portalResourceUrl(data.id), data.location,
      h.resourceGroupName(data.id, None), SecurityGroupCategory(data),
      TagValue(data.tags, "environment"))
  }

  /** The `addressSpace && addressPrefixes && length > 0 && addressPrefixes[0]` chain. */
  function VirtualNetworkCidr(data: VirtualNetwork): (c: Cidr)
    ensures c.CidrPrefix? <==>
      data.addressSpace.Some? && data.addressSpace.value.addressPrefixes.Some?
      && |data.addressSpace.value.addressPrefixes.value| > 0
    ensures c.CidrPrefix? ==> c.prefix == data.addressSpace.value.addressPrefixes.value[0]
    ensures c.CidrFalse? <==>
      data.addressSpace.Some? && data.addressSpace.value.addressPrefixes == Some([])
  {
    match data.addressSpace
    case None => CidrUndefined
    case Some(space) =>
      match space.addressPrefixes
      case None => CidrUndefined
      case Some(prefixes) => if |prefixes| > 0 then CidrPrefix(prefixes[0]) else CidrFalse
  }

  function CreateVirtualNetworkEntity(h: Helpers, data: VirtualNetwork): (e: VirtualNetworkEntity)
    ensures e.kind == VirtualNetworkKind && !e.isPublic && e.internal
    ensures e.cidr == VirtualNetworkCidr(data)
    ensures e.displayName == CidrDisplayName(data.name, e.cidr)
    ensures e.region == data.location && e.environment == TagValue(data.tags, "environment")
  {
    var cidr := VirtualNetworkCidr(data);
    VirtualNetworkEntity(
      VirtualNetworkKind, CidrDisplayName(data.name, cidr), h.portalResourceUrl(data.id), cidr,
      false, true, data.location, h.resourceGroupName(data.id, None),
      TagValue(data.tags, "environment"))
  }

  // ---------------------------------------------------------------------------------------
  // Properties relating the builders

  /** A named subnet with a prefix is displayed as `name (prefix)`; its region ignores the subnet. */
  lemma SubnetDisplayName(h: Helpers, vnet: VirtualNetwork, data: Subnet, name: string, prefix: string)
    requires data.name == Some(name) && data.addressPrefix == Some(prefix)
    ensures CreateSubnetEntity(h, vnet, data).displayName == name + " (" + prefix + ")"
    ensures CreateSubnetEntity(h, vnet, data).cidr == CidrPrefix(prefix)
  {
  }

  /** A named network with a non-empty prefix list is displayed as `name (first prefix)`. */
  lemma VirtualNetworkDisplayName(h: Helpers, data: VirtualNetwork, name: string, prefixes: seq<string>)
    requires data.name == Some(name) && |prefixes| > 0
    requires data.addressSpace == Some(AddressSpace(Some(prefixes)))
    ensures CreateVirtualNetworkEntity(h, data).displayName == name + " (" + prefixes[0] + ")"
    ensures CreateVirtualNetworkEntity(h, data).cidr == CidrPrefix(prefixes[0])
  {
  }

  /** An empty prefix list leaks `false` into the display name. */
  lemma VirtualNetworkEmptyPrefixes(h: Helpers, data: VirtualNetwork, name: string)
    requires data.name == Some(name) && data.addressSpace == Some(AddressSpace(Some([])))
    ensures CreateVirtualNetworkEntity(h, data).displayName == name + " (false)"
  {
  }

  /** Subnets of one network share region and environment, whatever their own data. */
  lemma SubnetsInheritFromNetwork(h: Helpers, vnet: VirtualNetwork, a: Subnet, b: Subnet)
    ensures CreateSubnetEntity(h, vnet, a).region == CreateSubnetEntity(h, vnet, b).region
    ensures CreateSubnetEntity(h, vnet, a).environment == CreateSubnetEntity(h, vnet, b).environment
  {
  }

  /** A load balancer with one frontend carrying public IP `1.2.3.4` and one carrying only private IP `10.0.0.4`. */
  lemma LoadBalancerScenario(h: Helpers, data: LoadBalancer)
    requires data.frontendIPConfigurations == Some([
      IPConfiguration(None, Some(PublicIPAddressRef(Some("1.2.3.4")))),
      IPConfiguration(Some("10.0.0.4"), None)])
    ensures CreateLoadBalancerEntity(h, data).publicIp == [Some("1.2.3.4")]
    ensures CreateLoadBalancerEntity(h, data).privateIp == ["10.0.0.4"]
    ensures CreateLoadBalancerEntity(h, data).isPublic
  {
    var cs := data.frontendIPConfigurations.value;
    assert cs == [cs[0]] + [cs[1]];
    PublicIpsAppend([cs[0]], [cs[1]]);
    PrivateIpsAppend([cs[0]], [cs[1]]);
    PublicIpsSingle(cs[0]);
    PublicIpsSingle(cs[1]);
    PrivateIpsSingle(cs[0]);
    PrivateIpsSingle(cs[1]);
  }
}
