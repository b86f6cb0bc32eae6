/** `Device::new` in the `ash` stack: the first physical device, in enumeration
    order, with a queue family that has GRAPHICS and can present to the surface;
    the lowest such family on it; one queue-create entry for that family. */
module Devices {

  import opened Results
  import opened Vk

  /** Family `i` of `d` is one the search accepts. */
  predicate Qualifies(d: PhysicalDevice, i: nat, support: SurfaceSupport) {
    && i < |d.queueFamilies|
    && Contains(d.queueFamilies[i].queueFlags, QUEUE_GRAPHICS)
    && support(d.handle, i) == Ok(true)
  }

  /** Family `i` of `d` has GRAPHICS but the surface-support query for it fails,
      which the search `unwrap`s. Families without GRAPHICS are never queried. */
  predicate QueryFails(d: PhysicalDevice, i: nat, support: SurfaceSupport) {
    && i < |d.queueFamilies|
    && Contains(d.queueFamilies[i].queueFlags, QUEUE_GRAPHICS)
    && support(d.handle, i).Err?
  }

  /** The search stops at family `i` of `d`, with a result or a panic. */
  predicate Stops(d: PhysicalDevice, i: nat, support: SurfaceSupport) {
    Qualifies(d, i, support) || QueryFails(d, i, support)
  }

  /** The search passes over every family of `d`. */
  predicate Barren(d: PhysicalDevice, support: SurfaceSupport) {
    forall j :: 0 <= j < |d.queueFamilies| ==> !Stops(d, j, support)
  }

  /** Where the nested `find_map` ends: at a qualifying (device, family) pair, at a
      failed query, or after the last device. Devices are named by position. */
  datatype Search = Found(device: nat, family: nat) | QueryPanicked(device: nat, family: nat) | Exhausted

  function SearchFamilies(d: PhysicalDevice, k: nat, support: SurfaceSupport, from: nat): (s: Search)
    requires from <= |d.queueFamilies|
    ensures s.Found? ==> s.device == k && from <= s.family && Qualifies(d, s.family, support)
    ensures s.QueryPanicked? ==> s.device == k && from <= s.family && QueryFails(d, s.family, support)
    ensures !s.Exhausted? ==> forall j :: from <= j < s.family ==> !Stops(d, j, support)
    ensures s.Exhausted? ==> forall j :: from <= j < |d.queueFamilies| ==> !Stops(d, j, support)
    decreases |d.queueFamilies| - from
  {
    if from == |d.queueFamilies| then Exhausted
    else if !Contains(d.queueFamilies[from].queueFlags, QUEUE_GRAPHICS) then SearchFamilies(d, k, support, from + 1)
    else match support(d.handle, from)
      case Err(_) => QueryPanicked(k, from)
      case Ok(true) => Found(k, from)
      case Ok(false) => SearchFamilies(d, k, support, from + 1)
  }

  function SearchDevices(devs: seq<PhysicalDevice>, support: SurfaceSupport, from: nat): (s: Search)
    requires from <= |devs|
    ensures !s.Exhausted? ==> from <= s.device < |devs|
    ensures s.Found? ==> Qualifies(devs[s.device], s.family, support)
    ensures s.QueryPanicked? ==> QueryFails(devs[s.device], s.family, support)
    ensures !s.Exhausted? ==> forall j :: 0 <= j < s.family ==> !Stops(devs[s.device], j, support)
    ensures !s.Exhausted? ==> forall k :: from <= k < s.device ==> Barren(devs[k], support)
    ensures s.Exhausted? ==> forall k :: from <= k < |devs| ==> Barren(devs[k], support)
    decreases |devs| - from
  {
    if from == |devs| then Exhausted
    else
      var s := SearchFamilies(devs[from], from, support, 0);
      if s.Exhausted? then SearchDevices(devs, support, from + 1) else s
  }

  /** `(device, family)` is the pair the search returns: the family qualifies,
      no earlier family of that device stops the search, and every earlier device
      is passed over entirely. */
  predicate FirstSuitable(devs: seq<PhysicalDevice>, support: SurfaceSupport, k: nat, family: nat) {
    && k < |devs|
    && Qualifies(devs[k], family, support)
    && (forall j :: 0 <= j < family ==> !Stops(devs[k], j, support))
    && (forall k' :: 0 <= k' < k ==> Barren(devs[k'], support))
  }

  /** No query the search could make fails. */
  predicate QueriesAnswer(devs: seq<PhysicalDevice>, support: SurfaceSupport) {
    forall k, j :: 0 <= k < |devs| && 0 <= j < |devs[k].queueFamilies| ==> !QueryFails(devs[k], j, support)
  }

  const NO_SUITABLE_DEVICE: string := "Couldn't find suitable device."

  /** The selection part of `Device::new`. `enumerated` is the answer of
      `vkEnumeratePhysicalDevices`, `support` the surface-support query. */
  function SelectPhysicalDevice(enumerated: Result<seq<PhysicalDevice>>, support: SurfaceSupport): (r: Result<(PhysicalDevice, nat)>)
    ensures enumerated.Err? ==> r == Err(enumerated.error)
    ensures r.Ok? ==> enumerated.Ok?
    ensures r.Ok? ==>
      exists k :: 0 <= k < |enumerated.value| && enumerated.value[k] == r.value.0
                  && FirstSuitable(enumerated.value, support, k, r.value.1)
    ensures enumerated.Ok? ==>
      (r == Err(Panic(NO_SUITABLE_DEVICE)) <==>
         forall k :: 0 <= k < |enumerated.value| ==> Barren(enumerated.value[k], support))
    ensures enumerated.Ok? && QueriesAnswer(enumerated.value, support) ==>
      (r.Ok? <==> exists k, i :: 0 <= k < |enumerated.value| && Qualifies(enumerated.value[k], i, support))
  {
    var devs :- enumerated;
    var s := SearchDevices(devs, support, 0);
    assert s.Found? ==> FirstSuitable(devs, support, s.device, s.family);
    match s
    case Found(k, i) =>
      assert Stops(devs[k], i, support);
      Ok((devs[k], i))
    case QueryPanicked(k, i) =>
      assert Stops(devs[k], i, support);
      Err(Panic(UNWRAP_ERR))
    case Exhausted =>
      BarrenDevicesHaveNoQualifyingFamily(devs, support);
      Err(Panic(NO_SUITABLE_DEVICE))
  }

  lemma BarrenDevicesHaveNoQualifyingFamily(devs: seq<PhysicalDevice>, support: SurfaceSupport)
    requires forall k :: 0 <= k < |devs| ==> Barren(devs[k], support)
    ensures forall k, i :: 0 <= k < |devs| ==> !Qualifies(devs[k], i, support)
  {
    forall k, i | 0 <= k < |devs| && Qualifies(devs[k], i, support)
      ensures false
    {
      assert Stops(devs[k], i, support);
    }
  }

  /** `VkDeviceQueueCreateInfo`: one queue per priority. */
  datatype QueueCreateInfo = QueueCreateInfo(familyIndex: nat, priorities: seq<real>)

  /** A queue fetched with `vkGetDeviceQueue(family, index)`. */
  datatype QueueRef = QueueRef(family: nat, index: nat)

  datatype Device = Device(
    handle: Handle,
    physicalDevice: Handle,
    queueFamilyIndex: nat,
    queueCreateInfos: seq<QueueCreateInfo>,
    graphics: QueueRef,
    compute: QueueRef)

  /** `q` names a queue the device was created with: section 5.3 of the Vulkan 1.3
      specification requires the queue index to be below the `queueCount` given
      for that family at device creation. */
  predicate Created(infos: seq<QueueCreateInfo>, q: QueueRef) {
    exists e :: 0 <= e < |infos| && infos[e].familyIndex == q.family && q.index < |infos[e].priorities|
  }

  /** `Device::new` as written: one queue-create entry with the single priority
      1.0, then the graphics queue at index 0 and the compute queue at index 1 of
      the chosen family. `created` is the answer of `vkCreateDevice`, which is
      `unwrap`ped. */
  function NewDeviceAsWritten(enumerated: Result<seq<PhysicalDevice>>, support: SurfaceSupport,
                              created: Result<Handle>): (r: Result<Device>)
    ensures enumerated.Err? ==> r == Err(enumerated.error)
    ensures r.Ok? ==> SelectPhysicalDevice(enumerated, support).Ok?
    ensures r.Ok? ==>
      var (pd, family) := SelectPhysicalDevice(enumerated, support).value;
      && r.value.physicalDevice == pd.handle && r.value.queueFamilyIndex == family
      && |r.value.queueCreateInfos| == 1 && r.value.queueCreateInfos[0].familyIndex == family
      && r.value.graphics == QueueRef(family, 0) && r.value.compute == QueueRef(family, 1)
    ensures SelectPhysicalDevice(enumerated, support).Ok? ==> (r.Ok? <==> created.Ok?)
    ensures SelectPhysicalDevice(enumerated, support).Err? ==> r == Err(SelectPhysicalDevice(enumerated, support).error)
    ensures SelectPhysicalDevice(enumerated, support).Ok? && created.Err? ==> r == Err(Panic(UNWRAP_ERR))
  {
    var (pd, family) :- SelectPhysicalDevice(enumerated, support);
    var infos := [QueueCreateInfo(family, [1.0])];
    if created.Err? then Err(Panic(UNWRAP_ERR))
    else Ok(Device(created.value, pd.handle, family, infos, QueueRef(family, 0), QueueRef(family, 1)))
  }

  /** As written, the compute queue is fetched at an index no queue was created
      for: the single create entry requests one queue. */
  lemma ComputeQueueWasNeverCreated(enumerated: Result<seq<PhysicalDevice>>, support: SurfaceSupport,
                                    created: Result<Handle>)
    requires NewDeviceAsWritten(enumerated, support, created).Ok?
    ensures var d := NewDeviceAsWritten(enumerated, support, created).value;
      Created(d.queueCreateInfos, d.graphics) && !Created(d.queueCreateInfos, d.compute)
  {
    var d := NewDeviceAsWritten(enumerated, support, created).value;
    assert d.queueCreateInfos[0].familyIndex == d.graphics.family;
  }

  /** `Device::new` with the queue request it evidently intends: two queues from
      the chosen family when it offers two, otherwise one queue that graphics and
      compute share. */
  function NewDevice(enumerated: Result<seq<PhysicalDevice>>, support: SurfaceSupport,
                     created: Result<Handle>): (r: Result<Device>)
    ensures enumerated.Err? ==> r == Err(enumerated.error)
    ensures r.Ok? <==> NewDeviceAsWritten(enumerated, support, created).Ok?
    ensures r.Err? ==> r == NewDeviceAsWritten(enumerated, support, created)
    ensures r.Ok? ==>
      var (pd, family) := SelectPhysicalDevice(enumerated, support).value;
      && r.value.physicalDevice == pd.handle && r.value.queueFamilyIndex == family
      && |r.value.queueCreateInfos| == 1 && r.value.queueCreateInfos[0].familyIndex == family
      && r.value.graphics.family == family && r.value.compute.family == family
      && |r.value.queueCreateInfos[0].priorities| <= 2
      && (pd.queueFamilies[family].queueCount >= 1 ==>
            |r.value.queueCreateInfos[0].priorities| <= pd.queueFamilies[family].queueCount)
  {
    var (pd, family) :- SelectPhysicalDevice(enumerated, support);
    var priorities := if pd.queueFamilies[family].queueCount >= 2 then [1.0, 1.0] else [1.0];
    var infos := [QueueCreateInfo(family, priorities)];
    if created.Err? then Err(Panic(UNWRAP_ERR))
    else Ok(Device(created.value, pd.handle, family, infos, QueueRef(family, 0), QueueRef(family, |priorities| - 1)))
  }

  /** With the intended request, both fetched queues were created, and they are
      distinct whenever the family offers at least two queues. */
  lemma NewDeviceQueuesWereCreated(enumerated: Result<seq<PhysicalDevice>>, support: SurfaceSupport,
                                   created: Result<Handle>)
    requires NewDevice(enumerated, support, created).Ok?
    ensures var d := NewDevice(enumerated, support, created).value;
      && Created(d.queueCreateInfos, d.graphics) && Created(d.queueCreateInfos, d.compute)
      && (var pd := SelectPhysicalDevice(enumerated, support).value.0;
          pd.queueFamilies[d.queueFamilyIndex].queueCount >= 2 ==> d.graphics != d.compute)
  {
    var d := NewDevice(enumerated, support, created).value;
    assert d.queueCreateInfos[0].familyIndex == d.graphics.family;
  }
}
