# prism graphics setup and YAML token parser, modelled in Dafny

This project models three parts of the prism engine:

- **Vulkan setup (`src/prism/graphics.cc`).** `gfxInit` runs a fixed sequence of stages:
  - the instance extension and layer check, then instance creation;
  - physical-device selection;
  - queue-family role resolution (graphics and present);
  - logical-device creation, with one queue request per distinct family;
  - queue retrieval;
  - the swapchain configuration (surface format, present mode, extent, image count and transform);
  - swapchain creation, with the sharing mode chosen from the families;
  - the check that the swapchain has images.

  Every driver answer is an input: the enumerated lists and the result codes of `vkCreateInstance`, `vkCreateDevice` and `vkCreateSwapchainKHR`. Each stage decides by a rule over those lists. A fatal `utilErrorExit` becomes an `Err` value that names the failure.
- **Result names (`src/prism/vulkan.cc`).** The `VK_RESULT_NAMES` table, and `getVkResultName`, a linear search of it. graphics.cc holds an identical copy of the table.
- **YAML tree builder (`src/utils/yaml.cc`).** `process_map`, `process_sequence` and `process_child` form a recursive-descent parser over libyaml's tokens. It builds a tree of `YAML_NODE`s, each with a fixed array of 256 children. The module also has the two name tables used in diagnostics.

Each imperative stage is written twice:

- as a Dafny method that keeps the source's loops, flags and running counts, and writes in place where the source does (`QueueInfo` and `YAML_NODE` are classes);
- as a specification function whose contract states the stage's rule.

The method's `ensures` ties it to the function. Lemmas then state the properties the rules promise.

Modules:

- `Wrappers`: Option, Result, Outcome, and first-match search.
- `VulkanResults`: the result table and its lookup.
- `GraphicsTypes`: the value records and the error datatype.
- The stages, in the order gfxInit runs them: `Instance`, `DeviceSelection`, `Queues`, `LogicalDevice` and `Swapchain`.
- `Gfx`: gfxInit itself.
- `YamlTokens`: tokens, node types and the name tables.
- `YamlParse`: the parser as functions.
- `YamlNodes`: the node class and the parser procedures.
- `YamlExamples`: token patterns and short documents.

## Model

| member | source | states |
|---|---|---|
| VulkanResults.ResultNameIn | src/prism/vulkan.cc:68-82 | the lookup yields a name iff some entry has the code as its key, and then the name of the first such entry |
| VulkanResults.GetVkResultName | src/prism/vulkan.cc:68-82 | the counting loop with early return yields exactly the name of the first matching entry, or none |
| VulkanResults.IndexOfKeyInverts | src/prism/vulkan.cc:21-59 | each entry's key leads back to that entry's index, so the 29 keys are pairwise distinct |
| VulkanResults.TableKeysDistinct | src/prism/vulkan.cc:21-59 | no two entries of the table share a key (the aliased codes are left out of it) |
| VulkanResults.NameIsThatOfAnyMatchingEntry | src/prism/vulkan.cc:68-79 | with distinct keys, the name found is the one of any entry whose key matches, whatever the scan order |
| VulkanResults.TableNamesResolve | src/prism/vulkan.cc:21-59 | every listed code resolves to the name paired with it |
| VulkanResults.UnlistedCodeHasNoName | src/prism/vulkan.cc:81 | a code that no entry lists (-13) gets no name, the null return |
| GraphicsTypes.FamilyIndexList | src/prism/graphics.cc:79-89 | the two-slot family-index array holds exactly two entries: the graphics family in slot 0 (GRAPHICS) and the present family in slot 1 (PRESENT) |
| GraphicsTypes.GraphicsVkResultName | src/prism/graphics.cc:144-158 | graphics.cc's own lookup yields a name iff some entry of its table has the code as its key, and then the name of the first such entry |
| GraphicsTypes.GraphicsResultNamesAgree | src/prism/graphics.cc:97-158 | graphics.cc's copy of the table equals vulkan.cc's, so both lookups name every code alike |
| Instance.CheckComponents | src/prism/graphics.cc:177-216 | passes iff every requested name equals some available name; otherwise fails with the component type and the first missing name in request order |
| Instance.ValidateInstanceComponentInfo | src/prism/graphics.cc:177-216 | the nested search loops with the availability flag decide exactly as CheckComponents |
| Instance.MakeVersion | src/prism/graphics.cc:269-272 | the packed version decodes back to its major, minor and patch fields |
| Instance.CreateInstance | src/prism/graphics.cc:218-310 | checks extensions, then layers, then builds the creation record and reports the vkCreateInstance result, exactly as InstanceOutcome |
| Instance.InstanceCreatedIffAllAvailable | src/prism/graphics.cc:248-303 | the instance is created iff every requested extension and layer is available and the driver succeeds; it enables exactly the requested names at API 1.1; a missing name is reported as an "extension" or a "layer"; a layer failure implies all extensions passed; a driver failure carries vkCreateInstance's code and happens only after every requested extension and layer was found |
| Instance.ExtensionNamesAreCompared | src/prism/graphics.cc:171-175 | an extension counts as available iff some enumerated VkExtensionProperties has it as its extensionName |
| Instance.LayerNamesAreCompared | src/prism/graphics.cc:165-169 | a layer counts as available iff some enumerated VkLayerProperties has it as its layerName |
| Instance.MissingLayerIsReported | src/prism/graphics.cc:206-214 | a requested layer absent from the enumeration fails the check with type "layer" and that name |
| DeviceSelection.SupportsSwapchain | src/prism/graphics.cc:312-346 | true iff some enumerated extension is named VK_KHR_swapchain (false for an empty list) |
| DeviceSelection.SwapchainInfoOf | src/prism/graphics.cc:348-376 | the swapchain information is the device's surface capabilities, formats and present modes |
| DeviceSelection.SelectPhysicalDevice | src/prism/graphics.cc:378-449 | no devices iff the list is empty; no suitable device iff none is a discrete GPU with VK_KHR_swapchain, a format and a present mode; otherwise the first such device, with its swapchain information |
| DeviceSelection.GetPhysicalDevice | src/prism/graphics.cc:378-449 | the loop with its three `continue` checks selects exactly as SelectPhysicalDevice |
| DeviceSelection.SelectionIsFirstFit | src/prism/graphics.cc:400-438 | any qualifying device makes selection succeed, at that device or an earlier one |
| DeviceSelection.UnsuitableDeviceIsSkipped | src/prism/graphics.cc:415-433 | putting an unsuitable device first shifts the selected index by one and keeps the same swapchain information |
| DeviceSelection.ThirdDeviceIsSelected | src/prism/graphics.cc:415-437 | an integrated GPU and a GPU without VK_KHR_swapchain are skipped in favour of the third device |
| Queues.QueueInfo.constructor | src/prism/graphics.cc:79-89 | a zero-initialised QueueInfo: null queues and family indexes 0 |
| Queues.QueueFamilyIndexesOf | src/prism/graphics.cc:451-526 | no families, no graphics family and no present family are three distinct errors, each iff its condition; otherwise each role is the lowest family fit for it, in range |
| Queues.GetQueueFamilyIndexes | src/prism/graphics.cc:451-526 | the one-pass loop with -1 sentinels and early exit agrees with QueueFamilyIndexesOf and stores both indexes in queueInfo only on success |
| Queues.QueuesOf | src/prism/graphics.cc:690-700 | one queue per role: queue 0 of that role's family |
| Queues.GetQueues | src/prism/graphics.cc:690-700 | writes queueInfo's queues in place as QueuesOf the family indexes, leaving the indexes unchanged |
| Queues.RolesShareQueueIffSameFamily | src/prism/graphics.cc:690-700 | the two roles get the same queue iff they resolved to the same family |
| Queues.SingleFamilyServesBothRoles | src/prism/graphics.cc:476-497 | a single family fit for both roles resolves both to index 0 |
| Queues.RolesResolveIndependently | src/prism/graphics.cc:476-497 | a present-only family before a graphics family gives graphics 1 and present 0 |
| LogicalDevice.QueueCreateInfos | src/prism/graphics.cc:528-574 | no two requests name the same family, the requested families are exactly the listed ones, each request asks for one queue at priority 1.0, and the first request is for the first listed (graphics) family |
| LogicalDevice.CreateLogicalDevice | src/prism/graphics.cc:528-688 | the dedupe loop filling a fixed array with a running count yields QueueCreateInfos, with VK_KHR_swapchain enabled, or the vkCreateDevice failure |
| LogicalDevice.TwoRolesDeduplicated | src/prism/graphics.cc:538-574 | one request when the two roles share a family, two (graphics first) when they do not |
| LogicalDevice.DeviceCreationReportsResult | src/prism/graphics.cc:646-685 | success iff vkCreateDevice succeeds; VK_KHR_swapchain enabled and no layer; a failure is reported with the result's name from vulkan.cc |
| Swapchain.SelectSurfaceFormat | src/prism/graphics.cc:705-736 | never undefined; the preferred pair when the first entry is undefined or the pair is listed, otherwise the first entry; always the pair or a listed entry |
| Swapchain.SelectPresentMode | src/prism/graphics.cc:738-761 | MAILBOX if listed, else IMMEDIATE if listed, else FIFO |
| Swapchain.SelectImageCount | src/prism/graphics.cc:769-777 | at most a set maximum; short of uint32 wrap-around, minImageCount + 1 lowered to the maximum when it exceeds it; 0 when minImageCount + 1 wraps past 2^32-1 |
| Swapchain.CreateSwapchainConfig | src/prism/graphics.cc:702-793 | the format loop, present-mode loop and image-count clamp yield the configuration of the three selection rules, with the current extent and transform |
| Swapchain.PresentModeIgnoresOrder | src/prism/graphics.cc:743-760 | the present mode depends only on which modes are listed, not on their order |
| Swapchain.ImageCountWithinBounds | src/prism/graphics.cc:769-777 | with minImageCount below 2^32-1 and a maximum (if set) at least the minimum, the count lies within [min, max], is min + 1 when that fits, and is never 0 |
| Swapchain.ImageCountWrapsAtUint32Max | src/prism/graphics.cc:771 | the uint32 addition wraps: a minimum of 2^32-1 gives a count of 0, whatever the maximum |
| Swapchain.CreateSwapchain | src/prism/graphics.cc:795-864 | builds the creation record from the configuration and the two family indexes, and reports the vkCreateSwapchainKHR result |
| Swapchain.SharingModeIffDistinctFamilies | src/prism/graphics.cc:827-846 | CONCURRENT with indices [graphics, present] iff the families differ, EXCLUSIVE with none otherwise; the count matches the list; minImageCount is the configured count |
| Swapchain.GetSwapchainImages | src/prism/graphics.cc:866-881 | an error iff the swapchain has no images, otherwise exactly its images |
| Swapchain.ImageCountExamples | src/prism/graphics.cc:769-777 | no maximum with minimum 1 gives 2; maximum 2 with minimum 2 lowers 3 to 2 |
| Swapchain.SurfaceFormatExamples | src/prism/graphics.cc:715-735 | an undefined entry gives the preferred pair; the listed pair is taken; any other single entry is kept |
| Swapchain.PresentModeExamples | src/prism/graphics.cc:738-761 | FIFO alone gives FIFO; MAILBOX wins over FIFO; IMMEDIATE wins over FIFO |
| Gfx.DevicesOutcome | src/prism/graphics.cc:909-913 | a successful device stage selected its device by SelectPhysicalDevice, and that device has a surface format |
| Gfx.CreateDevices | src/prism/graphics.cc:909-913 | the four device procedures run in sequence on one queueInfo and agree with DevicesOutcome, leaving the family indexes in queueInfo |
| Gfx.GfxInit | src/prism/graphics.cc:888-922 | the whole stage sequence, each failure ending it, agrees with GfxInitSpec |
| Gfx.DevicesGuarantees | src/prism/graphics.cc:378-700 | after the device stages succeed: the device is the first qualifying one, each role's family is the first fit, the request count is 1 or 2 by whether the families coincide, VK_KHR_swapchain is enabled, and the roles share a queue iff they share a family |
| Gfx.GfxInitGuarantees | src/prism/graphics.cc:888-922 | after gfxInit succeeds: all requested names were available and are enabled, the device stages succeeded, sharing is CONCURRENT iff the families differ, the format is defined, the image count respects a set maximum, and there are images |
| Gfx.EndToEndDeviceSelected | src/prism/graphics.cc:378-526 | a single suitable device with one family for both roles is selected, and both roles resolve to family 0 |
| Gfx.EndToEndDevices | src/prism/graphics.cc:909-913 | for that device: one queue request for family 0, and the same queue for both roles |
| Gfx.EndToEndInstance | src/prism/graphics.cc:218-310 | with nothing requested and the driver succeeding, the instance is created |
| Gfx.EndToEndSwapchain | src/prism/graphics.cc:702-864 | for that device: the preferred format, FIFO, EXCLUSIVE sharing without indices, and two images requested |
| Gfx.EndToEndScenario | src/prism/graphics.cc:888-922 | gfxInit on that device succeeds with all of the above |
| YamlTokens.TokenTypeOrdinal | src/utils/yaml.cc:46-70 | every token type's numeric value indexes the name table |
| YamlTokens.TokenTypeOfOrdinal | src/utils/yaml.cc:46-70 | a numeric value names a token type iff it is below the table's length |
| YamlTokens.TokenTypeOrdinalRoundTrip | src/utils/yaml.cc:46-70 | numbering and un-numbering token types are inverse |
| YamlTokens.YamlTokenTypeName | src/utils/yaml.cc:406-409 | a token type's diagnostic name is the YAML_TOKEN_TYPE_NAMES entry at the type's numeric value, and reads back as that type |
| YamlTokens.TokenTypeNameRoundTrip | src/utils/yaml.cc:46-70 | the table entry at each token type's numeric value reads back as that type (proved in four parts over the table's rows) |
| YamlTokens.YamlNodeTypeName | src/utils/yaml.cc:411-414 | a node type's name is the YAML_NODE_TYPE_NAMES entry at the type's position in YAML_NODE_TYPE (SCALAR 0, MAP 1, SEQUENCE 2) |
| YamlTokens.NodeTypeNameRoundTrip | src/utils/yaml.cc:39-44 | each node type's name reads back as that type |
| YamlTokens.NodeTypeNamesDistinct | src/utils/yaml.cc:39-44 | different node types get different names |
| YamlTokens.TokenTypeNamesDistinct | src/utils/yaml.cc:46-70 | different token types get different names |
| YamlParse.ParseMap | src/utils/yaml.cc:242-284 | not starting at BLOCK_MAPPING_START is the "first token in map block" error; success ends at the BLOCK_END that closes the map and appends only keyed, well-formed children; an overflow needs more than 256 tokens |
| YamlParse.ParseMapEntries | src/utils/yaml.cc:259-280 | the entry loop ends at a BLOCK_END, after appending only keyed, well-formed children |
| YamlParse.ParseSequence | src/utils/yaml.cc:286-318 | a comma right after `[` is the "comma at start" error; success ends at FLOW_SEQUENCE_END and appends only unkeyed, well-formed children |
| YamlParse.ParseSequenceItems | src/utils/yaml.cc:299-315 | the item loop ends at FLOW_SEQUENCE_END, after appending only unkeyed, well-formed children |
| YamlParse.SequenceItemStep | src/utils/yaml.cc:302-313 | one item: the child's error ends the loop; without a comma the loop resumes after the child; one comma is skipped; a second is the "consecutive commas" error |
| YamlParse.ClosingTokenEndsLoop | src/utils/yaml.cc:259-299 | at BLOCK_END, and at FLOW_SEQUENCE_END, the loops stop with the children gathered so far |
| YamlParse.MapEntryStep | src/utils/yaml.cc:262-279 | one entry: the key is the text after KEY, the value starts three tokens after KEY; KEY or BLOCK_END there is the "no value for key" error naming key and map; otherwise the child is parsed there |
| YamlParse.ParseNode | src/utils/yaml.cc:325-351 | SCALAR gives a scalar node holding the token's text and ends at that token; BLOCK_MAPPING_START a map ending at its BLOCK_END; FLOW_SEQUENCE_START a sequence ending at its FLOW_SEQUENCE_END; each carries the given key and is well formed; any other token is the "unsupported token" error naming the parent |
| YamlParse.ParseChild | src/utils/yaml.cc:320-358 | appends exactly one well-formed node, of the token's type and with the given key, after the existing siblings (which are unchanged); the index returned is i + 1 for a scalar, and otherwise one past the BLOCK_END or FLOW_SEQUENCE_END that closes the node |
| YamlParse.NodeTypeOf | src/utils/yaml.cc:325-341 | only SCALAR, BLOCK_MAPPING_START and FLOW_SEQUENCE_START start a node |
| YamlParse.RootNeverOverflows | src/utils/yaml.cc:122-134 | with at most 256 tokens, the root parse never overflows a children array, and a successful parse is a well-formed map |
| YamlNodes.YamlNode.constructor | src/utils/yaml.cc:183-202 | a new node of the given type and with the given key and value, and no children |
| YamlNodes.YamlNode.Append | src/utils/yaml.cc:354 | stores the child at slot child_count and increments child_count, leaving earlier slots unchanged |
| YamlNodes.ProcessMap | src/utils/yaml.cc:242-284 | the in-place loop builds the node's children and stops at the token that ParseMap describes, or fails as it does |
| YamlNodes.ProcessSequence | src/utils/yaml.cc:286-318 | the in-place loop builds the node's children and stops at the token that ParseSequence describes, or fails as it does |
| YamlNodes.ProcessItem | src/utils/yaml.cc:300-314 | one turn of the sequence loop advances the parse as ParseSequenceItems does |
| YamlNodes.CreateChild | src/utils/yaml.cc:322-351 | the node created and filled for the token stands for the node ParseNode describes |
| YamlNodes.ProcessChild | src/utils/yaml.cc:320-358 | the parent gains exactly one child at slot child_count, earlier slots unchanged, as ParseChild describes |
| YamlNodes.ProcessRoot | src/utils/yaml.cc:163-165 | a map node keyed "root" filled from index 1 as ParseRoot describes; with the 256-token cap it never overflows, and success gives a well-formed tree |
| YamlExamples.ScalarEntryStep | src/utils/yaml.cc:262-279 | a map entry with a scalar value adds one scalar keyed by the text after KEY |
| YamlExamples.ScalarItemStep | src/utils/yaml.cc:302-308 | a scalar item followed by one comma adds one unkeyed scalar |
| YamlExamples.TrailingCommaAccepted | src/utils/yaml.cc:299-315 | a single comma before `]` is accepted |
| YamlExamples.ConsecutiveCommasRejected | src/utils/yaml.cc:305-313 | two commas after an item are the "consecutive commas" error |
| YamlExamples.MissingValueRejected | src/utils/yaml.cc:271-276 | KEY or BLOCK_END where the value should be is the "no value for key" error |
| YamlExamples.FlowSequenceItems | src/utils/yaml.cc:299-315 | in any token stream of "s: [x, y,]" (STREAM_END and any later tokens included), the items of "[x, y,]" are the unkeyed scalars x and y, closed at the `]` |
| YamlExamples.FlowSequenceValue | src/utils/yaml.cc:336-341 | in any such stream, the value "[x, y,]" is a sequence node keyed by the entry's key, ending one past the `]` |
| YamlExamples.FlowSequenceDocument | src/utils/yaml.cc:163-165 | any token stream of "s: [x, y,]", STREAM_END and later tokens included, parses to a root holding one sequence of two scalars, stopping at the root's BLOCK_END |
| YamlExamples.ScalarEntriesDocument | src/utils/yaml.cc:163-165 | any token stream of "a: 1\nb: 2", STREAM_END and later tokens included, parses to two keyed scalars, in document order, stopping at the BLOCK_END |
| YamlExamples.CommaAtStartIsReported | src/utils/yaml.cc:291-296 | "s: [, x]" is the "comma at start" error for sequence s |
| YamlExamples.EmptyDocumentIsNotAMap | src/utils/yaml.cc:244-253 | an empty document is the "first token in map block" error |
| YamlExamples.BlockSequenceIsUnsupported | src/utils/yaml.cc:342-351 | a block sequence as a value is the "unsupported token" error naming the root |

## Left out

- Driver calls are not modelled as calls. The enumerations are `vkEnumerate*`, `vkGetPhysicalDevice*`, `vkGetPhysicalDeviceSurfaceSupportKHR` and `vkGetSwapchainImagesKHR`. Their answers and the creation result codes are inputs (the `Driver` record), so handles are values.
- `createSurfaceFn`, surface creation and `VkSurfaceKHR` are outside the model. They are a foreign callback.
- The `PRISM_DEBUG` paths are left out: the debug callback, component concatenation and logging, and the `graphics.inl` they include. They only log.
- `utilWarning` and the commented-out `gfxDestroy` are left out. The first only logs, and the second is dead code.
- Memory allocation, freeing and the leaks of the source are left out: they do not affect the decisions.
- `utilErrorExit` prints and ends the process. Here it is a returned error, and each later stage is not run.
- The errors carry the failing result code. The name printed for it is `ReportedResultName`, which is the result-table lookup.
- Queue priority `1.0f` is modelled as the real 1.0, because floating point is not modelled.
- `getSwapchainInfo` is folded into the `PhysicalDevice` record: a device's capabilities, formats and present modes are inputs.
- The swapchainInfo, swapchainConfig and creation-info out-parameters are returned as values. `QueueInfo` is the one record updated in place, as in the source.
- Swapchain.ImageCountWithinBounds: the lower bound needs minImageCount below 2^32-1, because at 2^32-1 the uint32 addition wraps to 0 (Swapchain.ImageCountWrapsAtUint32Max shows this).
- Swapchain.CreateSwapchainConfig: it requires a non-empty format list. The source reads the first format unconditionally, and getPhysicalDevice only accepts devices that list one.
- The vulkan.cc table lists `VK_ERROR_OUT_OF_POOL_MEMORY` and `VK_ERROR_INVALID_EXTERNAL_HANDLE`, but not their `_KHR` aliases. In the model the aliases are constants with the same codes, so looking one up gives the core name, as it does in the source.
- The scan in vulkan.cc's lookup stays within the table's bounds. Dafny's array and sequence bounds checks cover this, so no separate lemma states it.
- `read_yaml_file` file and parser set-up, libyaml scanning, token printing, `print_yaml`, `free_yaml` and `yaml_token_delete` are left out. They are I/O and memory management. The 256-token cap only appears as the bound of ProcessRoot and RootNeverOverflows.
- A read past the last token is undefined behaviour in yaml.cc. Here it is the `ReadPastEnd` error. For example, the end is reached inside a map entry or before a closing token.
- A 257th child overflows the 256-slot array unchecked in yaml.cc. Here it is the `TooManyChildren` error, and RootNeverOverflows shows that it cannot happen within the token cap.
- The key after KEY is read from whatever token follows, as the source reads the scalar field without checking the type. A token's `text` stands for that field.
- `create_yaml_node` copies its strings. Dafny strings are values, so the copies are implicit.
- YamlNodes.ProcessItem: the body of process_sequence's loop is a separate method. The loop calls it once per item, in the same order and with the same checks.
- YamlParse.ParseMapEntries: the source reads the token after KEY and then the token three past KEY. If either lies past the end, the model gives one `ReadPastEnd` error instead of two separate out-of-range reads.
