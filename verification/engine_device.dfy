/** Device setup in the `vulkano` engine: among the devices offering
    VK_KHR_swapchain, the best-ranked device type (earliest on ties); then, for
    the roles GRAPHICS, COMPUTE and TRANSFER in turn, the lowest queue family
    that serves the role, can present, and is not yet taken. */
module EngineDevices {

  import opened Results
  import opened Vk

  /** The key of the `min_by_key`: lower is preferred. */
  function Rank(t: PhysicalDeviceType): nat {
    match t
    case DiscreteGpu => 0
    case IntegratedGpu => 1
    case VirtualGpu => 2
    case Cpu => 3
    case Other => 4
    case Unrecognized => 5
  }

  predicate Candidate(d: PhysicalDevice) {
    d.supportsSwapchain
  }

  /** Position of the device `min_by_key` yields among the first `n` devices,
      considering candidates only: minimal rank, and the earliest of equals. */
  function BestCandidate(devs: seq<PhysicalDevice>, n: nat): (r: Option<nat>)
    requires n <= |devs|
    ensures r.Some? ==> r.value < n && Candidate(devs[r.value])
    ensures r.Some? ==> forall j :: 0 <= j < n && Candidate(devs[j]) ==>
                          Rank(devs[r.value].deviceType) <= Rank(devs[j].deviceType)
    ensures r.Some? ==> forall j :: 0 <= j < r.value && Candidate(devs[j]) ==>
                          Rank(devs[r.value].deviceType) < Rank(devs[j].deviceType)
    ensures r.None? <==> forall j :: 0 <= j < n ==> !Candidate(devs[j])
  {
    if n == 0 then None
    else
      var best := BestCandidate(devs, n - 1);
      if !Candidate(devs[n - 1]) then best
      else if best.None? then Some(n - 1)
      else if Rank(devs[n - 1].deviceType) < Rank(devs[best.value].deviceType) then Some(n - 1)
      else best
  }

  /** The roles and priorities of the `QUEUES` table, in order. */
  const ROLES: seq<Flags> := [QUEUE_GRAPHICS, QUEUE_COMPUTE, QUEUE_TRANSFER]
  const PRIORITIES: seq<real> := [0.7, 0.5, 0.3]

  /** Family `i` may take `role`: it serves the role, the surface-support query
      answered true (an error counts as false), and it is not in `used`. */
  predicate Eligible(d: PhysicalDevice, support: SurfaceSupport, role: Flags, used: seq<nat>, i: nat) {
    && i < |d.queueFamilies|
    && Intersects(d.queueFamilies[i].queueFlags, role)
    && support(d.handle, i) == Ok(true)
    && i !in used
  }

  /** The `position` of the first eligible family at or after `from`. */
  function FirstEligible(d: PhysicalDevice, support: SurfaceSupport, role: Flags, used: seq<nat>, from: nat): (r: Option<nat>)
    requires from <= |d.queueFamilies|
    ensures r.Some? ==> from <= r.value && Eligible(d, support, role, used, r.value)
    ensures r.Some? ==> forall j :: from <= j < r.value ==> !Eligible(d, support, role, used, j)
    ensures r.None? <==> forall j :: from <= j < |d.queueFamilies| ==> !Eligible(d, support, role, used, j)
    decreases |d.queueFamilies| - from
  {
    if from == |d.queueFamilies| then None
    else if Eligible(d, support, role, used, from) then Some(from)
    else FirstEligible(d, support, role, used, from + 1)
  }

  /** Pairwise distinct entries. */
  predicate Distinct(s: seq<nat>) {
    forall i, j :: 0 <= i < j < |s| ==> s[i] != s[j]
  }

  /** `families[k]` is the family the loop picks for `roles[k]`, given that `used`
      was taken before the loop and `families[..k]` by the earlier roles. */
  predicate Assigned(d: PhysicalDevice, support: SurfaceSupport, roles: seq<Flags>, used: seq<nat>,
                     families: seq<nat>, k: nat)
    requires k < |roles| && k < |families|
  {
    && Eligible(d, support, roles[k], used + families[..k], families[k])
    && forall j :: 0 <= j < families[k] ==> !Eligible(d, support, roles[k], used + families[..k], j)
  }

  /** The family-assignment loop over `roles`, continuing a `used` list. */
  function AssignFamilies(d: PhysicalDevice, support: SurfaceSupport, roles: seq<Flags>, used: seq<nat>): (r: Result<seq<nat>>)
    ensures r.Ok? ==> |r.value| == |roles|
    ensures r.Ok? ==> forall k :: 0 <= k < |roles| ==> Assigned(d, support, roles, used, r.value, k)
    ensures r.Ok? && Distinct(used) ==> Distinct(used + r.value)
    ensures r.Err? ==> r.Panicked()
    decreases |roles|
  {
    if roles == [] then Ok([])
    else match FirstEligible(d, support, roles[0], used, 0)
      case None => Err(Panic(UNWRAP_NONE))
      case Some(i) =>
        var rest :- AssignFamilies(d, support, roles[1..], used + [i]);
        AssignedExtends(d, support, roles, used, i, rest);
        Ok([i] + rest)
  }

  /** One step of the loop: prepending the first role's pick to a valid assignment
      of the remaining roles gives a valid assignment of all of them. */
  lemma AssignedExtends(d: PhysicalDevice, support: SurfaceSupport, roles: seq<Flags>, used: seq<nat>,
                        i: nat, rest: seq<nat>)
    requires |roles| > 0 && |rest| == |roles| - 1
    requires FirstEligible(d, support, roles[0], used, 0) == Some(i)
    requires forall k :: 0 <= k < |rest| ==> Assigned(d, support, roles[1..], used + [i], rest, k)
    requires Distinct(used + [i]) ==> Distinct(used + [i] + rest)
    ensures forall k :: 0 <= k < |roles| ==> Assigned(d, support, roles, used, [i] + rest, k)
    ensures Distinct(used) ==> Distinct(used + ([i] + rest))
  {
    var families := [i] + rest;
    forall k | 0 <= k < |roles|
      ensures Assigned(d, support, roles, used, families, k)
    {
      if k == 0 {
        assert used + families[..0] == used;
      } else {
        assert Assigned(d, support, roles[1..], used + [i], rest, k - 1);
        assert families[..k] == [i] + rest[..k - 1];
        assert used + families[..k] == (used + [i]) + rest[..k - 1];
        assert roles[1..][k - 1] == roles[k];
      }
    }
    if Distinct(used) {
      assert i !in used;
      assert Distinct(used + [i]);
      assert used + [i] + rest == used + families;
    }
  }

  /** A role with no eligible family left makes the loop panic. */
  lemma StarvedRolePanics(d: PhysicalDevice, support: SurfaceSupport, roles: seq<Flags>, used: seq<nat>)
    requires |roles| > 0
    requires forall j :: 0 <= j < |d.queueFamilies| ==> !Eligible(d, support, roles[0], used, j)
    ensures AssignFamilies(d, support, roles, used).Panicked()
  {
    assert FirstEligible(d, support, roles[0], used, 0).None?;
  }

  /** `QueueCreateInfo` with one queue of the given priority. */
  datatype QueueCreateInfo = QueueCreateInfo(familyIndex: nat, priorities: seq<real>)

  /** A queue handed back by `Device::new`: its family and its index in that family. */
  datatype Queue = Queue(familyIndex: nat, index: nat)

  /** `Queues`: the device's queues in create-info order. */
  datatype Queues = Queues(queues: seq<Queue>)

  datatype EngineDevice = EngineDevice(handle: Handle, physicalDevice: PhysicalDevice, queueCreateInfos: seq<QueueCreateInfo>)


  /** `device::new`. `enumerated` is the device enumeration and `created` the
      answer of `Device::new`; every failure is `unwrap`ped. */
  function NewEngineDevice(enumerated: Result<seq<PhysicalDevice>>, support: SurfaceSupport,
                           created: Result<Handle>): (r: Result<(EngineDevice, Queues)>)
    ensures r.Err? ==> r.Panicked()
    ensures enumerated.Err? ==> r == Err(Panic(UNWRAP_ERR))
    ensures enumerated.Ok? && BestCandidate(enumerated.value, |enumerated.value|).None? ==> r == Err(Panic(UNWRAP_NONE))
    ensures enumerated.Ok? && BestCandidate(enumerated.value, |enumerated.value|).Some? ==>
      var families := AssignFamilies(enumerated.value[BestCandidate(enumerated.value, |enumerated.value|).value], support, ROLES, []);
      && (families.Err? ==> r == Err(families.error))
      && (families.Ok? ==> (r.Ok? <==> created.Ok?))
      && (families.Ok? && created.Err? ==> r == Err(Panic(UNWRAP_ERR)))
    ensures r.Ok? ==> enumerated.Ok? && created.Ok?
    ensures r.Ok? ==>
      var (dev, qs) := r.value;
      var devs := enumerated.value;
      && BestCandidate(devs, |devs|).Some?
      && dev.handle == created.value
      && dev.physicalDevice == devs[BestCandidate(devs, |devs|).value]
      && |dev.queueCreateInfos| == 3 && |qs.queues| == 3
      && AssignFamilies(dev.physicalDevice, support, ROLES, []) ==
           Ok([qs.queues[0].familyIndex, qs.queues[1].familyIndex, qs.queues[2].familyIndex])
      && Distinct([qs.queues[0].familyIndex, qs.queues[1].familyIndex, qs.queues[2].familyIndex])
      && forall k :: 0 <= k < 3 ==>
           && qs.queues[k] == Queue(dev.queueCreateInfos[k].familyIndex, 0)
           && dev.queueCreateInfos[k].priorities == [PRIORITIES[k]]
           && Eligible(dev.physicalDevice, support, ROLES[k], [], qs.queues[k].familyIndex)
  {
    if enumerated.Err? then Err(Panic(UNWRAP_ERR))
    else
      var devs := enumerated.value;
      match BestCandidate(devs, |devs|)
      case None => Err(Panic(UNWRAP_NONE))
      case Some(b) =>
        var pd := devs[b];
        var families :- AssignFamilies(pd, support, ROLES, []);
        var infos := seq(3, k requires 0 <= k < 3 => QueueCreateInfo(families[k], [PRIORITIES[k]]));
        if created.Err? then Err(Panic(UNWRAP_ERR))
        else
          var qs := Queues(seq(3, k requires 0 <= k < 3 => Queue(families[k], 0)));
          assert forall k :: 0 <= k < 3 ==> Eligible(pd, support, ROLES[k], [], families[k]) by {
            forall k | 0 <= k < 3 ensures Eligible(pd, support, ROLES[k], [], families[k]) {
              assert Assigned(pd, support, ROLES, [], families, k);
            }
          }
          assert [] + families == families;
          assert [qs.queues[0].familyIndex, qs.queues[1].familyIndex, qs.queues[2].familyIndex] == families;
          Ok((EngineDevice(created.value, pd, infos), qs))
  }

  /** `Queues::render`: the queue created for GRAPHICS, first in the list; the
      slice index panics on an empty list. */
  function Render(q: Queues): (r: Result<Queue>)
    ensures r.Ok? <==> |q.queues| >= 1
    ensures r.Ok? ==> r.value == q.queues[0]
    ensures r.Err? ==> r == Err(Panic(INDEX_OUT_OF_BOUNDS))
  {
    if |q.queues| < 1 then Err(Panic(INDEX_OUT_OF_BOUNDS)) else Ok(q.queues[0])
  }

  /** `Queues::compute`: the queue created for COMPUTE, second in the list. */
  function Compute(q: Queues): (r: Result<Queue>)
    ensures r.Ok? <==> |q.queues| >= 2
    ensures r.Ok? ==> r.value == q.queues[1]
    ensures r.Err? ==> r == Err(Panic(INDEX_OUT_OF_BOUNDS))
  {
    if |q.queues| < 2 then Err(Panic(INDEX_OUT_OF_BOUNDS)) else Ok(q.queues[1])
  }

  /** `Queues::transfer`: the queue created for TRANSFER, third in the list. */
  function Transfer(q: Queues): (r: Result<Queue>)
    ensures r.Ok? <==> |q.queues| >= 3
    ensures r.Ok? ==> r.value == q.queues[2]
    ensures r.Err? ==> r == Err(Panic(INDEX_OUT_OF_BOUNDS))
  {
    if |q.queues| < 3 then Err(Panic(INDEX_OUT_OF_BOUNDS)) else Ok(q.queues[2])
  }

  /** The accessors of a freshly set-up device hand out queues of three distinct
      families, each serving its role and able to present to the surface. */
  lemma AccessorsServeTheirRoles(enumerated: Result<seq<PhysicalDevice>>, support: SurfaceSupport, created: Result<Handle>)
    requires NewEngineDevice(enumerated, support, created).Ok?
    ensures var (dev, qs) := NewEngineDevice(enumerated, support, created).value;
      && Render(qs).Ok? && Compute(qs).Ok? && Transfer(qs).Ok?
      && var (render, compute, transfer) := (Render(qs).value, Compute(qs).value, Transfer(qs).value);
      && Intersects(dev.physicalDevice.queueFamilies[render.familyIndex].queueFlags, QUEUE_GRAPHICS)
      && Intersects(dev.physicalDevice.queueFamilies[compute.familyIndex].queueFlags, QUEUE_COMPUTE)
      && Intersects(dev.physicalDevice.queueFamilies[transfer.familyIndex].queueFlags, QUEUE_TRANSFER)
      && support(dev.physicalDevice.handle, render.familyIndex) == Ok(true)
      && render.familyIndex != compute.familyIndex
      && render.familyIndex != transfer.familyIndex
      && compute.familyIndex != transfer.familyIndex
  {
    var (dev, qs) := NewEngineDevice(enumerated, support, created).value;
    assert Eligible(dev.physicalDevice, support, ROLES[0], [], qs.queues[0].familyIndex);
    assert Eligible(dev.physicalDevice, support, ROLES[1], [], qs.queues[1].familyIndex);
    assert Eligible(dev.physicalDevice, support, ROLES[2], [], qs.queues[2].familyIndex);
    var fs := [qs.queues[0].familyIndex, qs.queues[1].familyIndex, qs.queues[2].familyIndex];
    assert fs[0] != fs[1] && fs[0] != fs[2] && fs[1] != fs[2];
  }
}
