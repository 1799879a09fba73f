/** Logical-device creation in graphics.cc: one queue-creation request per distinct
    family index (deduplicated by index, not by role), one queue at priority 1.0 each,
    VK_KHR_swapchain enabled, no layers and no features. */
module LogicalDevice {
  import opened Wrappers
  import opened VulkanResults
  import opened GraphicsTypes
  import opened Queues

  /** QUEUE_FAMILY_QUEUE_COUNT and QUEUE_FAMILY_QUEUE_PRIORITY. */
  const QUEUE_FAMILY_QUEUE_COUNT: nat := 1
  const QUEUE_FAMILY_QUEUE_PRIORITY: real := 1.0

  /** The fields of VkDeviceQueueCreateInfo that createLogicalDevice sets. */
  datatype QueueCreateInfo = QueueCreateInfo(queueFamilyIndex: nat, queueCount: nat, queuePriority: real)

  /** The fields of VkDeviceCreateInfo that createLogicalDevice sets (the feature set
      is left empty). */
  datatype DeviceCreateInfo = DeviceCreateInfo(
    queueCreateInfos: seq<QueueCreateInfo>,
    enabledLayerCount: nat,
    enabledExtensionNames: seq<string>)

  /** LOGICAL_DEVICE_EXTENSION_NAMES */
  const LOGICAL_DEVICE_EXTENSION_NAMES: seq<string> := [VK_KHR_SWAPCHAIN_EXTENSION_NAME]

  predicate HasRequestFor(infos: seq<QueueCreateInfo>, familyIndex: nat) {
    exists k :: 0 <= k < |infos| && infos[k].queueFamilyIndex == familyIndex
  }

  /** The requests for a list of role family indexes, taken in role order: a family
      already requested is skipped, any other gets one request for one queue at
      priority 1.0.  The result names each family of the list exactly once, in the
      order of first appearance, and names nothing else. */
  function QueueCreateInfos(familyIndexes: seq<nat>): (r: seq<QueueCreateInfo>)
    ensures |r| <= |familyIndexes|
    ensures forall i, j :: 0 <= i < j < |r| ==> r[i].queueFamilyIndex != r[j].queueFamilyIndex
    ensures forall f :: HasRequestFor(r, f) <==> f in familyIndexes
    ensures forall i :: 0 <= i < |r| ==>
      r[i].queueCount == QUEUE_FAMILY_QUEUE_COUNT && r[i].queuePriority == QUEUE_FAMILY_QUEUE_PRIORITY
    ensures |familyIndexes| > 0 ==> |r| > 0 && r[0].queueFamilyIndex == familyIndexes[0]
    decreases |familyIndexes|
  {
    if |familyIndexes| == 0 then []
    else
      var earlier := QueueCreateInfos(familyIndexes[..|familyIndexes| - 1]);
      var familyIndex := familyIndexes[|familyIndexes| - 1];
      assert forall f :: f in familyIndexes <==> f in familyIndexes[..|familyIndexes| - 1] || f == familyIndex by {
        assert familyIndexes == familyIndexes[..|familyIndexes| - 1] + [familyIndex];
      }
      if HasRequestFor(earlier, familyIndex) then earlier
      else
        var r := earlier + [QueueCreateInfo(familyIndex, QUEUE_FAMILY_QUEUE_COUNT, QUEUE_FAMILY_QUEUE_PRIORITY)];
        assert forall f :: HasRequestFor(r, f) <==> HasRequestFor(earlier, f) || f == familyIndex by {
          forall f | HasRequestFor(r, f) ensures HasRequestFor(earlier, f) || f == familyIndex {
            var k :| 0 <= k < |r| && r[k].queueFamilyIndex == f;
            if k < |earlier| {
              assert earlier[k].queueFamilyIndex == f;
            }
          }
          forall f | HasRequestFor(earlier, f) ensures HasRequestFor(r, f) {
            var k :| 0 <= k < |earlier| && earlier[k].queueFamilyIndex == f;
            assert r[k] == earlier[k];
          }
          assert r[|earlier|].queueFamilyIndex == familyIndex;
        }
        r
  }

  /** The outcome of createLogicalDevice: the request list for the two roles, with
      VK_KHR_swapchain enabled, or the driver's failure with its result name. */
  function DeviceOutcome(familyIndexes: seq<nat>, createResult: VkResult): Result<DeviceCreateInfo, GfxError> {
    if createResult != VK_SUCCESS then Err(LogicalDeviceCreationFailed(createResult))
    else Ok(DeviceCreateInfo(QueueCreateInfos(familyIndexes), 0, LOGICAL_DEVICE_EXTENSION_NAMES))
  }

  /** createLogicalDevice: a fixed array of QUEUE_FAMILY_COUNT requests filled up to a
      running count, each role's family looked up among the requests made so far. */
  method CreateLogicalDevice(queueInfo: QueueInfo, createResult: VkResult) returns (r: Result<DeviceCreateInfo, GfxError>)
    requires queueInfo.Valid()
    ensures r == DeviceOutcome(queueInfo.familyIndexes[..], createResult)
  {
    var logicalDeviceQueueCreateInfos := new QueueCreateInfo[QUEUE_FAMILY_COUNT](_ => QueueCreateInfo(0, 0, 0.0));
    var logicalDeviceQueueCreateInfoCount := 0;
    var queueIndex := 0;
    while queueIndex < QUEUE_FAMILY_COUNT
      invariant queueIndex <= QUEUE_FAMILY_COUNT
      invariant logicalDeviceQueueCreateInfoCount <= queueIndex
      invariant logicalDeviceQueueCreateInfos[..logicalDeviceQueueCreateInfoCount]
                == QueueCreateInfos(queueInfo.familyIndexes[..queueIndex])
    {
      var queueFamilyAlreadyUsed := false;
      var queueFamilyIndex := queueInfo.familyIndexes[queueIndex];
      var logicalDeviceQueueCreateInfoIndex := 0;
      while logicalDeviceQueueCreateInfoIndex < logicalDeviceQueueCreateInfoCount
        invariant logicalDeviceQueueCreateInfoIndex <= logicalDeviceQueueCreateInfoCount
        invariant forall k :: 0 <= k < logicalDeviceQueueCreateInfoIndex ==>
          logicalDeviceQueueCreateInfos[k].queueFamilyIndex != queueFamilyIndex
      {
        if logicalDeviceQueueCreateInfos[logicalDeviceQueueCreateInfoIndex].queueFamilyIndex == queueFamilyIndex {
          queueFamilyAlreadyUsed := true;
          break;
        }
        logicalDeviceQueueCreateInfoIndex := logicalDeviceQueueCreateInfoIndex + 1;
      }
      assert queueInfo.familyIndexes[..queueIndex + 1][..queueIndex] == queueInfo.familyIndexes[..queueIndex];
      if queueFamilyAlreadyUsed {
        queueIndex := queueIndex + 1;
        continue;
      }
      logicalDeviceQueueCreateInfos[logicalDeviceQueueCreateInfoCount] :=
        QueueCreateInfo(queueFamilyIndex, QUEUE_FAMILY_QUEUE_COUNT, QUEUE_FAMILY_QUEUE_PRIORITY);
      logicalDeviceQueueCreateInfoCount := logicalDeviceQueueCreateInfoCount + 1;
      queueIndex := queueIndex + 1;
    }
    assert queueInfo.familyIndexes[..QUEUE_FAMILY_COUNT] == queueInfo.familyIndexes[..];
    if createResult != VK_SUCCESS {
      return Err(LogicalDeviceCreationFailed(createResult));
    }
    return Ok(DeviceCreateInfo(
      logicalDeviceQueueCreateInfos[..logicalDeviceQueueCreateInfoCount], 0, LOGICAL_DEVICE_EXTENSION_NAMES));
  }

  /** For the two roles: one request when they share a family, two (graphics first)
      when they do not; never two requests for one family. */
  lemma TwoRolesDeduplicated(indexes: QueueFamilyIndexes)
    ensures var infos := QueueCreateInfos(FamilyIndexList(indexes));
      && (indexes.graphics == indexes.present ==>
            infos == [QueueCreateInfo(indexes.graphics, QUEUE_FAMILY_QUEUE_COUNT, QUEUE_FAMILY_QUEUE_PRIORITY)])
      && (indexes.graphics != indexes.present ==>
            infos == [QueueCreateInfo(indexes.graphics, QUEUE_FAMILY_QUEUE_COUNT, QUEUE_FAMILY_QUEUE_PRIORITY),
                      QueueCreateInfo(indexes.present, QUEUE_FAMILY_QUEUE_COUNT, QUEUE_FAMILY_QUEUE_PRIORITY)])
  {
    var list := FamilyIndexList(indexes);
    assert list[..1] == [indexes.graphics];
    assert list[..0] == [];
  }

  /** The logical device always enables VK_KHR_swapchain and no layer, and a failed
      vkCreateDevice is reported with the name vulkan.cc gives its result code. */
  lemma DeviceCreationReportsResult(familyIndexes: seq<nat>, createResult: VkResult)
    ensures var r := DeviceOutcome(familyIndexes, createResult);
      && (r.Ok? <==> createResult == VK_SUCCESS)
      && (r.Ok? ==> r.value.enabledExtensionNames == [VK_KHR_SWAPCHAIN_EXTENSION_NAME] && r.value.enabledLayerCount == 0)
      && (r.Err? ==> && r.error == LogicalDeviceCreationFailed(createResult)
                     && ReportedResultName(r.error) == VkResultNameOf(createResult))
  {
    GraphicsResultNamesAgree(createResult);
  }
}
