/** The VkResult-to-name lookup of src/prism/vulkan.cc: a constant table of
    (result code, enumerator name) pairs scanned in order by a counting loop that
    returns the name of the first entry whose key equals the argument, or null. */
module VulkanResults {
  import opened Wrappers

  /** VkResult values as the Vulkan headers (vulkan_core.h) define them. */
  type VkResult = int

  const VK_SUCCESS: VkResult := 0
  const VK_NOT_READY: VkResult := 1
  const VK_TIMEOUT: VkResult := 2
  const VK_EVENT_SET: VkResult := 3
  const VK_EVENT_RESET: VkResult := 4
  const VK_INCOMPLETE: VkResult := 5
  const VK_ERROR_OUT_OF_HOST_MEMORY: VkResult := -1
  const VK_ERROR_OUT_OF_DEVICE_MEMORY: VkResult := -2
  const VK_ERROR_INITIALIZATION_FAILED: VkResult := -3
  const VK_ERROR_DEVICE_LOST: VkResult := -4
  const VK_ERROR_MEMORY_MAP_FAILED: VkResult := -5
  const VK_ERROR_LAYER_NOT_PRESENT: VkResult := -6
  const VK_ERROR_EXTENSION_NOT_PRESENT: VkResult := -7
  const VK_ERROR_FEATURE_NOT_PRESENT: VkResult := -8
  const VK_ERROR_INCOMPATIBLE_DRIVER: VkResult := -9
  const VK_ERROR_TOO_MANY_OBJECTS: VkResult := -10
  const VK_ERROR_FORMAT_NOT_SUPPORTED: VkResult := -11
  const VK_ERROR_FRAGMENTED_POOL: VkResult := -12
  const VK_ERROR_OUT_OF_POOL_MEMORY: VkResult := -1000069000
  const VK_ERROR_OUT_OF_POOL_MEMORY_KHR: VkResult := VK_ERROR_OUT_OF_POOL_MEMORY
  const VK_ERROR_INVALID_EXTERNAL_HANDLE: VkResult := -1000072003
  const VK_ERROR_INVALID_EXTERNAL_HANDLE_KHR: VkResult := VK_ERROR_INVALID_EXTERNAL_HANDLE
  const VK_ERROR_SURFACE_LOST_KHR: VkResult := -1000000000
  const VK_ERROR_NATIVE_WINDOW_IN_USE_KHR: VkResult := -1000000001
  const VK_SUBOPTIMAL_KHR: VkResult := 1000001003
  const VK_ERROR_OUT_OF_DATE_KHR: VkResult := -1000001004
  const VK_ERROR_INCOMPATIBLE_DISPLAY_KHR: VkResult := -1000003001
  const VK_ERROR_VALIDATION_FAILED_EXT: VkResult := -1000011001
  const VK_ERROR_INVALID_SHADER_NV: VkResult := -1000012000
  const VK_ERROR_FRAGMENTATION_EXT: VkResult := -1000161000
  const VK_ERROR_NOT_PERMITTED_EXT: VkResult := -1000174001

  datatype VkResultName = VkResultName(key: VkResult, value: string)

  /** VK_RESULT_NAMES, entry for entry and in order.  The two *_KHR aliases are left
      out of the table because they have the same value as their core names. */
  const VK_RESULT_NAMES: seq<VkResultName> := [
    VkResultName(VK_SUCCESS, "VK_SUCCESS"),
    VkResultName(VK_NOT_READY, "VK_NOT_READY"),
    VkResultName(VK_TIMEOUT, "VK_TIMEOUT"),
    VkResultName(VK_EVENT_SET, "VK_EVENT_SET"),
    VkResultName(VK_EVENT_RESET, "VK_EVENT_RESET"),
    VkResultName(VK_INCOMPLETE, "VK_INCOMPLETE"),
    VkResultName(VK_ERROR_OUT_OF_HOST_MEMORY, "VK_ERROR_OUT_OF_HOST_MEMORY"),
    VkResultName(VK_ERROR_OUT_OF_DEVICE_MEMORY, "VK_ERROR_OUT_OF_DEVICE_MEMORY"),
    VkResultName(VK_ERROR_INITIALIZATION_FAILED, "VK_ERROR_INITIALIZATION_FAILED"),
    VkResultName(VK_ERROR_DEVICE_LOST, "VK_ERROR_DEVICE_LOST"),
    VkResultName(VK_ERROR_MEMORY_MAP_FAILED, "VK_ERROR_MEMORY_MAP_FAILED"),
    VkResultName(VK_ERROR_LAYER_NOT_PRESENT, "VK_ERROR_LAYER_NOT_PRESENT"),
    VkResultName(VK_ERROR_EXTENSION_NOT_PRESENT, "VK_ERROR_EXTENSION_NOT_PRESENT"),
    VkResultName(VK_ERROR_FEATURE_NOT_PRESENT, "VK_ERROR_FEATURE_NOT_PRESENT"),
    VkResultName(VK_ERROR_INCOMPATIBLE_DRIVER, "VK_ERROR_INCOMPATIBLE_DRIVER"),
    VkResultName(VK_ERROR_TOO_MANY_OBJECTS, "VK_ERROR_TOO_MANY_OBJECTS"),
    VkResultName(VK_ERROR_FORMAT_NOT_SUPPORTED, "VK_ERROR_FORMAT_NOT_SUPPORTED"),
    VkResultName(VK_ERROR_FRAGMENTED_POOL, "VK_ERROR_FRAGMENTED_POOL"),
    VkResultName(VK_ERROR_OUT_OF_POOL_MEMORY, "VK_ERROR_OUT_OF_POOL_MEMORY"),
    VkResultName(VK_ERROR_INVALID_EXTERNAL_HANDLE, "VK_ERROR_INVALID_EXTERNAL_HANDLE"),
    VkResultName(VK_ERROR_SURFACE_LOST_KHR, "VK_ERROR_SURFACE_LOST_KHR"),
    VkResultName(VK_ERROR_NATIVE_WINDOW_IN_USE_KHR, "VK_ERROR_NATIVE_WINDOW_IN_USE_KHR"),
    VkResultName(VK_SUBOPTIMAL_KHR, "VK_SUBOPTIMAL_KHR"),
    VkResultName(VK_ERROR_OUT_OF_DATE_KHR, "VK_ERROR_OUT_OF_DATE_KHR"),
    VkResultName(VK_ERROR_INCOMPATIBLE_DISPLAY_KHR, "VK_ERROR_INCOMPATIBLE_DISPLAY_KHR"),
    VkResultName(VK_ERROR_VALIDATION_FAILED_EXT, "VK_ERROR_VALIDATION_FAILED_EXT"),
    VkResultName(VK_ERROR_INVALID_SHADER_NV, "VK_ERROR_INVALID_SHADER_NV"),
    VkResultName(VK_ERROR_FRAGMENTATION_EXT, "VK_ERROR_FRAGMENTATION_EXT"),
    VkResultName(VK_ERROR_NOT_PERMITTED_EXT, "VK_ERROR_NOT_PERMITTED_EXT")
  ]

  /** VK_RESULT_NAMES_COUNT: the number of entries, computed from the table itself. */
  const VK_RESULT_NAMES_COUNT: nat := |VK_RESULT_NAMES|

  predicate KeyIs(result: VkResult, entry: VkResultName) {
    entry.key == result
  }

  /** The name the lookup yields: the value of the first entry whose key matches, or
      None (the source's nullptr) when no entry matches. */
  function ResultNameIn(table: seq<VkResultName>, result: VkResult): (r: Option<string>)
    ensures r.Some? <==> exists k :: 0 <= k < |table| && table[k].key == result
    ensures r.Some? ==> exists k :: 0 <= k < |table| && table[k].key == result && table[k].value == r.value
                                      && forall j :: 0 <= j < k ==> table[j].key != result
  {
    match FirstWhere(table, e => KeyIs(result, e))
    case None => None
    case Some(k) => Some(table[k].value)
  }

  function VkResultNameOf(result: VkResult): Option<string> {
    ResultNameIn(VK_RESULT_NAMES, result)
  }

  /** No two entries of the table share a key. */
  predicate KeysDistinct(table: seq<VkResultName>) {
    forall i, j :: 0 <= i < j < |table| ==> table[i].key != table[j].key
  }

  /** getVkResultName: the counting loop with an early return.  It reads only table
      indices below VK_RESULT_NAMES_COUNT and changes nothing. */
  method GetVkResultName(result: VkResult) returns (name: Option<string>)
    ensures name == VkResultNameOf(result)
  {
    var i: nat := 0;
    while i < VK_RESULT_NAMES_COUNT
      invariant i <= VK_RESULT_NAMES_COUNT
      invariant forall j :: 0 <= j < i ==> VK_RESULT_NAMES[j].key != result
    {
      var entry := VK_RESULT_NAMES[i];
      if entry.key == result {
        FirstWhereUnique(VK_RESULT_NAMES, e => KeyIs(result, e), i);
        return Some(entry.value);
      }
      i := i + 1;
    }
    return None;
  }

  /** The position of a code in VK_RESULT_NAMES, written out as a chain of tests; it
      only serves to prove the table's keys distinct without comparing every pair. */
  function IndexOfKey(key: VkResult): int {
    if key == VK_SUCCESS then 0
    else if key == VK_NOT_READY then 1
    else if key == VK_TIMEOUT then 2
    else if key == VK_EVENT_SET then 3
    else if key == VK_EVENT_RESET then 4
    else if key == VK_INCOMPLETE then 5
    else if key == VK_ERROR_OUT_OF_HOST_MEMORY then 6
    else if key == VK_ERROR_OUT_OF_DEVICE_MEMORY then 7
    else if key == VK_ERROR_INITIALIZATION_FAILED then 8
    else if key == VK_ERROR_DEVICE_LOST then 9
    else if key == VK_ERROR_MEMORY_MAP_FAILED then 10
    else if key == VK_ERROR_LAYER_NOT_PRESENT then 11
    else if key == VK_ERROR_EXTENSION_NOT_PRESENT then 12
    else if key == VK_ERROR_FEATURE_NOT_PRESENT then 13
    else if key == VK_ERROR_INCOMPATIBLE_DRIVER then 14
    else if key == VK_ERROR_TOO_MANY_OBJECTS then 15
    else if key == VK_ERROR_FORMAT_NOT_SUPPORTED then 16
    else if key == VK_ERROR_FRAGMENTED_POOL then 17
    else if key == VK_ERROR_OUT_OF_POOL_MEMORY then 18
    else if key == VK_ERROR_INVALID_EXTERNAL_HANDLE then 19
    else if key == VK_ERROR_SURFACE_LOST_KHR then 20
    else if key == VK_ERROR_NATIVE_WINDOW_IN_USE_KHR then 21
    else if key == VK_SUBOPTIMAL_KHR then 22
    else if key == VK_ERROR_OUT_OF_DATE_KHR then 23
    else if key == VK_ERROR_INCOMPATIBLE_DISPLAY_KHR then 24
    else if key == VK_ERROR_VALIDATION_FAILED_EXT then 25
    else if key == VK_ERROR_INVALID_SHADER_NV then 26
    else if key == VK_ERROR_FRAGMENTATION_EXT then 27
    else if key == VK_ERROR_NOT_PERMITTED_EXT then 28
    else -1
  }

  lemma IndexOfKeyInverts(i: nat)
    requires i < |VK_RESULT_NAMES|
    ensures IndexOfKey(VK_RESULT_NAMES[i].key) == i
  {
  }

  /** The aliased codes were left out deliberately: every key of the table is unique. */
  lemma TableKeysDistinct()
    ensures KeysDistinct(VK_RESULT_NAMES)
  {
    forall i, j | 0 <= i < j < |VK_RESULT_NAMES|
      ensures VK_RESULT_NAMES[i].key != VK_RESULT_NAMES[j].key
    {
      IndexOfKeyInverts(i);
      IndexOfKeyInverts(j);
    }
  }

  /** Because the keys are distinct, the name does not depend on the scan order: any
      entry whose key matches is the one whose name is returned. */
  lemma {:induction false} NameIsThatOfAnyMatchingEntry(table: seq<VkResultName>, result: VkResult, k: nat)
    requires KeysDistinct(table)
    requires k < |table| && table[k].key == result
    ensures ResultNameIn(table, result) == Some(table[k].value)
  {
    assert KeyIs(result, table[k]);
  }

  /** Each name in the table is found for its own code, and every listed code has a name. */
  lemma TableNamesResolve(k: nat)
    requires k < VK_RESULT_NAMES_COUNT
    ensures VkResultNameOf(VK_RESULT_NAMES[k].key) == Some(VK_RESULT_NAMES[k].value)
  {
    TableKeysDistinct();
    NameIsThatOfAnyMatchingEntry(VK_RESULT_NAMES, VK_RESULT_NAMES[k].key, k);
  }

  /** A code that the table does not list (here -13) yields no name. */
  lemma UnlistedCodeHasNoName()
    ensures VkResultNameOf(-13) == None
  {
    assert forall k :: 0 <= k < |VK_RESULT_NAMES| ==> VK_RESULT_NAMES[k].key != -13;
  }
}
