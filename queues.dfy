/** Queue families and queues in graphics.cc: getQueueFamilyIndexes resolves the graphics
    and present roles to family indexes, and getQueues later fetches one queue per role.
    Both write into the same QueueInfo record, which is therefore a class here. */
module Queues {
  import opened Wrappers
  import opened GraphicsTypes

  /** GRAPHICS and PRESENT, the positions of the two roles in QueueInfo's arrays. */
  const GRAPHICS: nat := 0
  const PRESENT: nat := 1

  /** A VkQueue handle: the zero-initialised null handle, or the queue the logical
      device hands out for a family index and a queue index within that family. */
  datatype Queue = NullQueue | QueueHandle(familyIndex: nat, queueIndex: nat)

  /** QueueInfo: one queue handle and one family index per role. */
  class QueueInfo {
    const queues: array<Queue>
    const familyIndexes: array<nat>

    predicate Valid()
      reads this
    {
      queues.Length == QUEUE_FAMILY_COUNT && familyIndexes.Length == QUEUE_FAMILY_COUNT
    }

    /** `QueueInfo queueInfo = {};` */
    constructor()
      ensures Valid()
      ensures queues[..] == [NullQueue, NullQueue] && familyIndexes[..] == [0, 0]
      ensures fresh(queues) && fresh(familyIndexes)
    {
      queues := new Queue[QUEUE_FAMILY_COUNT](_ => NullQueue);
      familyIndexes := new nat[QUEUE_FAMILY_COUNT](_ => 0);
      new;
      assert queues[..] == [queues[0], queues[1]];
      assert familyIndexes[..] == [familyIndexes[0], familyIndexes[1]];
    }
  }

  /** A family with at least one queue and VK_QUEUE_GRAPHICS_BIT set in its flags. */
  predicate IsGraphicsFamily(family: QueueFamilyProperties) {
    family.queueCount > 0 && family.queueFlags & VK_QUEUE_GRAPHICS_BIT != 0
  }

  /** A family for which vkGetPhysicalDeviceSurfaceSupportKHR answers VK_TRUE. */
  predicate IsPresentFamily(family: QueueFamilyProperties) {
    family.presentSupported
  }

  /** Role resolution: no families is one error; otherwise the first graphics family and
      the first present family, chosen independently, with a missing graphics family
      reported before a missing present family. */
  function QueueFamilyIndexesOf(families: seq<QueueFamilyProperties>): (r: Result<QueueFamilyIndexes, GfxError>)
    ensures r == Err(NoQueueFamilies) <==> |families| == 0
    ensures r == Err(NoGraphicsQueueFamily) <==>
      |families| > 0 && forall k :: 0 <= k < |families| ==> !IsGraphicsFamily(families[k])
    ensures r == Err(NoPresentQueueFamily) <==>
      && |families| > 0
      && (exists k :: 0 <= k < |families| && IsGraphicsFamily(families[k]))
      && (forall k :: 0 <= k < |families| ==> !IsPresentFamily(families[k]))
    ensures r.Ok? ==>
      && r.value.graphics < |families| && IsGraphicsFamily(families[r.value.graphics])
      && (forall k :: 0 <= k < r.value.graphics ==> !IsGraphicsFamily(families[k]))
      && r.value.present < |families| && IsPresentFamily(families[r.value.present])
      && (forall k :: 0 <= k < r.value.present ==> !IsPresentFamily(families[k]))
    ensures r.Ok? || r.error in {NoQueueFamilies, NoGraphicsQueueFamily, NoPresentQueueFamily}
  {
    if |families| == 0 then Err(NoQueueFamilies)
    else match (FirstWhere(families, IsGraphicsFamily), FirstWhere(families, IsPresentFamily))
      case (None, _) => Err(NoGraphicsQueueFamily)
      case (_, None) => Err(NoPresentQueueFamily)
      case (Some(g), Some(p)) => Ok(QueueFamilyIndexes(g, p))
  }

  /** getQueueFamilyIndexes: one pass with -1 sentinels, each role set at its first match
      only, stopping early once both are set; on success the two indexes are stored in
      queueInfo. */
  method GetQueueFamilyIndexes(families: seq<QueueFamilyProperties>, queueInfo: QueueInfo)
    returns (r: Outcome<GfxError>)
    requires queueInfo.Valid()
    modifies queueInfo.familyIndexes
    ensures r.Pass? <==> QueueFamilyIndexesOf(families).Ok?
    ensures r.Fail? ==> QueueFamilyIndexesOf(families) == Err(r.error)
    ensures r.Pass? ==> queueInfo.familyIndexes[..] == FamilyIndexList(QueueFamilyIndexesOf(families).value)
    ensures r.Fail? ==> unchanged(queueInfo.familyIndexes)
  {
    if |families| == 0 {
      return Fail(NoQueueFamilies);
    }
    var graphicsQueueFamilyIndex := -1;
    var presentQueueFamilyIndex := -1;
    var queueFamilyIndex := 0;
    while queueFamilyIndex < |families|
      invariant queueFamilyIndex <= |families|
      invariant graphicsQueueFamilyIndex == -1 ==>
        forall k :: 0 <= k < queueFamilyIndex ==> !IsGraphicsFamily(families[k])
      invariant graphicsQueueFamilyIndex != -1 ==>
        && 0 <= graphicsQueueFamilyIndex < queueFamilyIndex
        && IsGraphicsFamily(families[graphicsQueueFamilyIndex])
        && forall k :: 0 <= k < graphicsQueueFamilyIndex ==> !IsGraphicsFamily(families[k])
      invariant presentQueueFamilyIndex == -1 ==>
        forall k :: 0 <= k < queueFamilyIndex ==> !IsPresentFamily(families[k])
      invariant presentQueueFamilyIndex != -1 ==>
        && 0 <= presentQueueFamilyIndex < queueFamilyIndex
        && IsPresentFamily(families[presentQueueFamilyIndex])
        && forall k :: 0 <= k < presentQueueFamilyIndex ==> !IsPresentFamily(families[k])
    {
      var queueFamilyProps := families[queueFamilyIndex];
      if graphicsQueueFamilyIndex == -1
        && queueFamilyProps.queueCount > 0
        && queueFamilyProps.queueFlags & VK_QUEUE_GRAPHICS_BIT != 0
      {
        graphicsQueueFamilyIndex := queueFamilyIndex;
      }
      if presentQueueFamilyIndex == -1 {
        var isPresentQueueFamily := queueFamilyProps.presentSupported;
        if isPresentQueueFamily {
          presentQueueFamilyIndex := queueFamilyIndex;
        }
      }
      if graphicsQueueFamilyIndex != -1 && presentQueueFamilyIndex != -1 {
        break;
      }
      queueFamilyIndex := queueFamilyIndex + 1;
    }
    if graphicsQueueFamilyIndex == -1 {
      return Fail(NoGraphicsQueueFamily);
    }
    if presentQueueFamilyIndex == -1 {
      FirstWhereUnique(families, IsGraphicsFamily, graphicsQueueFamilyIndex);
      return Fail(NoPresentQueueFamily);
    }
    FirstWhereUnique(families, IsGraphicsFamily, graphicsQueueFamilyIndex);
    FirstWhereUnique(families, IsPresentFamily, presentQueueFamilyIndex);
    queueInfo.familyIndexes[GRAPHICS] := graphicsQueueFamilyIndex;
    queueInfo.familyIndexes[PRESENT] := presentQueueFamilyIndex;
    return Pass;
  }

  /** QUEUE_INDEX: every role takes the first queue of its family. */
  const QUEUE_INDEX: nat := 0

  /** The queues getQueues obtains: for each role, queue QUEUE_INDEX of that role's
      family. */
  function QueuesOf(familyIndexes: seq<nat>): (r: seq<Queue>)
    ensures |r| == |familyIndexes|
    ensures forall i :: 0 <= i < |r| ==> r[i] == QueueHandle(familyIndexes[i], QUEUE_INDEX)
  {
    seq(|familyIndexes|, i requires 0 <= i < |familyIndexes| => QueueHandle(familyIndexes[i], QUEUE_INDEX))
  }

  /** getQueues: vkGetDeviceQueue once per role, writing queueInfo->queues in place. */
  method GetQueues(queueInfo: QueueInfo)
    requires queueInfo.Valid()
    modifies queueInfo.queues
    ensures queueInfo.queues[..] == QueuesOf(queueInfo.familyIndexes[..])
    ensures unchanged(queueInfo.familyIndexes)
  {
    var i := 0;
    while i < QUEUE_FAMILY_COUNT
      invariant i <= QUEUE_FAMILY_COUNT
      invariant unchanged(queueInfo.familyIndexes)
      invariant forall j :: 0 <= j < i ==> queueInfo.queues[j] == QueueHandle(queueInfo.familyIndexes[j], QUEUE_INDEX)
    {
      queueInfo.queues[i] := QueueHandle(queueInfo.familyIndexes[i], QUEUE_INDEX);
      i := i + 1;
    }
  }

  /** The two roles receive the very same queue exactly when they resolved to the same
      family; otherwise they receive queues of different families. */
  lemma RolesShareQueueIffSameFamily(indexes: QueueFamilyIndexes)
    ensures var queues := QueuesOf(FamilyIndexList(indexes));
            (queues[GRAPHICS] == queues[PRESENT] <==> indexes.graphics == indexes.present)
  {
    var queues := QueuesOf(FamilyIndexList(indexes));
    assert queues[GRAPHICS] == QueueHandle(indexes.graphics, QUEUE_INDEX);
    assert queues[PRESENT] == QueueHandle(indexes.present, QUEUE_INDEX);
  }

  /** A single family that can do both graphics and presentation serves both roles. */
  lemma SingleFamilyServesBothRoles(family: QueueFamilyProperties)
    requires IsGraphicsFamily(family) && IsPresentFamily(family)
    ensures QueueFamilyIndexesOf([family]) == Ok(QueueFamilyIndexes(0, 0))
  {
    FirstWhereUnique([family], IsGraphicsFamily, 0);
    FirstWhereUnique([family], IsPresentFamily, 0);
  }

  /** Roles are resolved independently: a present-only family ahead of a graphics-only
      family yields graphics = 1 and present = 0. */
  lemma RolesResolveIndependently(presentOnly: QueueFamilyProperties, graphicsOnly: QueueFamilyProperties)
    requires IsPresentFamily(presentOnly) && !IsGraphicsFamily(presentOnly)
    requires IsGraphicsFamily(graphicsOnly)
    ensures QueueFamilyIndexesOf([presentOnly, graphicsOnly]) == Ok(QueueFamilyIndexes(1, 0))
  {
    FirstWhereUnique([presentOnly, graphicsOnly], IsGraphicsFamily, 1);
    FirstWhereUnique([presentOnly, graphicsOnly], IsPresentFamily, 0);
  }
}
