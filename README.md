# MIMXRT685S power manager: resource addressing

This project models the device layer of the MCUXpresso SDK power manager for the
MIMXRT685S, in `mcux/mcux-sdk/components/power_manager/devices/MIMXRT685S/fsl_pm_device.h`. It covers:

- the four low-power state indices and the "no constraint" value;
- the 57 hardware resources of `resc_name_t`, numbered 0 .. 56, with
  `kResc_MaxNum` = 57;
- the three contiguous resource groups (`RESC_GROUP_*`);
- the two helper macros `PM_RESC_MASK` and `PM_RESC_GROUP`, which read a
  per-resource bit or a 4-bit group code out of an array of 32-bit words;
- the two `enabled_resources_*` record types;
- the table of `PM_RESC_*` constraint tokens, each a (requested state, resource) pair.

Modules, one per file:

- `Wrappers` (wrappers.dfy): `Option`.
- `PowerStates` (power_states.dfy): the `PM_LP_STATE_*` constants.
- `Resources` (resources.dfy): the resource enumeration and the groups.
- `WordArith` (word_arith.dfy): powers of two, quotient and remainder facts.
- `ResourceBits` (resource_bits.dfy): the two macros, reference layouts the
  macros are proved against, and the record types.
- `Constraints` (constraints.dfy): the constraint tokens.

A 32-bit word is an integer in [0, 2^32). A shift `w >> k` is `w / 2^k`.
The masks `& 1U` and `& 0xFU` are `% 2` and `% 16`. For unsigned
operands these agree exactly with C.

Each macro is paired with a reference layout:

- `MaskWords` packs one flag per resource: bit `i % 32` of word `i / 32`.
- `GroupWords` packs one code per resource: nibble `i % 8` of word `i / 8`.

For each layout we prove that the macro reads back exactly what was placed, for
every resource. From this it follows that changing one resource's value never
changes what the macro reads for another resource.

## Model

| member | source | states |
|---|---|---|
| PowerStates.PowerState.Index | mcux/mcux-sdk/components/power_manager/devices/MIMXRT685S/fsl_pm_device.h:27-30 | each of the four low-power states has its index, and every index is below PM_LP_STATE_NO_CONSTRAINT |
| PowerStates.StateIndicesOrdered | mcux/mcux-sdk/components/power_manager/devices/MIMXRT685S/fsl_pm_device.h:27-31 | SLEEP = 0 < DEEP_SLEEP < DEEP_POWER_DOWN < FULL_DEEP_POWER_DOWN < NO_CONSTRAINT |
| PowerStates.StateIndicesDistinct | mcux/mcux-sdk/components/power_manager/devices/MIMXRT685S/fsl_pm_device.h:27-30 | two states share an index exactly when they are the same state, and every index is at most 3 |
| Resources.Resource.Index | mcux/mcux-sdk/components/power_manager/devices/MIMXRT685S/fsl_pm_device.h:52-114 | the value of each enumerator in declaration order, MainClk = 0 to Sram29_256KB = 56; it has no contract of its own, and ResourceAtIndex and IndexOfResourceAt fix the numbering |
| Resources.ResourceAtIndex | mcux/mcux-sdk/components/power_manager/devices/MIMXRT685S/fsl_pm_device.h:49-115 | every enumerator's value is below kResc_MaxNum (57), and the enumerator at that value is the enumerator itself |
| Resources.IndexOfResourceAt | mcux/mcux-sdk/components/power_manager/devices/MIMXRT685S/fsl_pm_device.h:49-115 | every value 0 .. 56 belongs to an enumerator, so the numbering is dense |
| Resources.IndexInjective | mcux/mcux-sdk/components/power_manager/devices/MIMXRT685S/fsl_pm_device.h:49-115 | two enumerators have the same value exactly when they are the same enumerator |
| Resources.GroupStart | mcux/mcux-sdk/components/power_manager/devices/MIMXRT685S/fsl_pm_device.h:118-126 | RESC_GROUP_*_START: kResc_MAIN_CLK, kResc_SRAM_PQ and kResc_SRAM0_32KB; it has no contract of its own, and GroupsContiguous fixes the start values as 0, 19 and 27 |
| Resources.GroupEnd | mcux/mcux-sdk/components/power_manager/devices/MIMXRT685S/fsl_pm_device.h:119-127 | RESC_GROUP_*_END: kResc_ROM, kResc_SRAM_DSPTCM and kResc_SRAM29_256KB; it has no contract of its own, and GroupsContiguous fixes the end values as 18, 26 and 56 |
| Resources.GroupSize | mcux/mcux-sdk/components/power_manager/devices/MIMXRT685S/fsl_pm_device.h:120-128 | RESC_GROUP_*_SIZE, end - start + 1; it has no contract of its own, and GroupSizes fixes the sizes as 19, 8 and 30 |
| Resources.GroupOf | mcux/mcux-sdk/components/power_manager/devices/MIMXRT685S/fsl_pm_device.h:117-128 | a value lies in some group exactly when it is below kResc_MaxNum, and the group returned contains it |
| Resources.GroupsPartition | mcux/mcux-sdk/components/power_manager/devices/MIMXRT685S/fsl_pm_device.h:117-128 | a value lies in group g exactly when g is the one group returned for it, so the groups are pairwise disjoint |
| Resources.GroupsContiguous | mcux/mcux-sdk/components/power_manager/devices/MIMXRT685S/fsl_pm_device.h:114-128 | the groups run peripherals, PRAMs, SRAMs over the ranges [0, 18], [19, 26] and [27, 56]: they start at 0, each begins one after the previous one ends, and the last ends at kResc_MaxNum - 1 |
| Resources.GroupSizes | mcux/mcux-sdk/components/power_manager/devices/MIMXRT685S/fsl_pm_device.h:114-128 | RESC_GROUP_*_SIZE is 19 for peripherals, 8 for PRAMs and 30 for SRAMs, and the three add up to kResc_MaxNum |
| Resources.GroupOfResource | mcux/mcux-sdk/components/power_manager/devices/MIMXRT685S/fsl_pm_device.h:117-128 | every resource lies in exactly one group, namely the one GroupOf gives for its value |
| ResourceBits.RescMask | mcux/mcux-sdk/components/power_manager/devices/MIMXRT685S/fsl_pm_device.h:36 | PM_RESC_MASK gives 0 or 1. It gives 1 exactly when bit resc % 32 of word resc / 32 is set |
| ResourceBits.RescGroup | mcux/mcux-sdk/components/power_manager/devices/MIMXRT685S/fsl_pm_device.h:37 | PM_RESC_GROUP gives a value in 0 .. 15, namely bits 4*(resc % 8) .. 4*(resc % 8)+3 of word resc / 8 |
| ResourceBits.MaskPositions | mcux/mcux-sdk/components/power_manager/devices/MIMXRT685S/fsl_pm_device.h:36 | every resource's bit lies in word 0 or 1, the last resource needs word 1, and distinct resources occupy distinct (word, bit) positions |
| ResourceBits.GroupPositions | mcux/mcux-sdk/components/power_manager/devices/MIMXRT685S/fsl_pm_device.h:37 | every resource's nibble lies in words 0 .. 7 at a shift of at most 28, the last resource needs word 7, and distinct resources occupy distinct (word, nibble) positions |
| ResourceBits.PackBits | mcux/mcux-sdk/components/power_manager/devices/MIMXRT685S/fsl_pm_device.h:36 | reference layout for one word: the packed value of k flags is below 2^k |
| ResourceBits.PackBitsAt | mcux/mcux-sdk/components/power_manager/devices/MIMXRT685S/fsl_pm_device.h:36 | bit k of the packed value of a list of flags is flags[k], and 0 past the end of the list |
| ResourceBits.MaskWords | mcux/mcux-sdk/components/power_manager/devices/MIMXRT685S/fsl_pm_device.h:36 | the rescMask layout of n flags has (n + 31) / 32 words, each a valid 32-bit word |
| ResourceBits.RescMaskReadsMaskWords | mcux/mcux-sdk/components/power_manager/devices/MIMXRT685S/fsl_pm_device.h:36 | PM_RESC_MASK on the layout gives back, for every resource, 1 if its flag was placed and 0 otherwise |
| ResourceBits.RescMaskIndependent | mcux/mcux-sdk/components/power_manager/devices/MIMXRT685S/fsl_pm_device.h:36 | setting or clearing one resource's flag changes what PM_RESC_MASK reads for that resource only |
| ResourceBits.PackNibbles | mcux/mcux-sdk/components/power_manager/devices/MIMXRT685S/fsl_pm_device.h:37 | reference layout for one word: the packed value of k codes is below 2^(4k) |
| ResourceBits.PackNibblesAt | mcux/mcux-sdk/components/power_manager/devices/MIMXRT685S/fsl_pm_device.h:37 | nibble k of the packed value of a list of codes is codes[k], and 0 past the end |
| ResourceBits.GroupWords | mcux/mcux-sdk/components/power_manager/devices/MIMXRT685S/fsl_pm_device.h:37 | the groupSlice layout of n codes has (n + 7) / 8 words, each a valid 32-bit word |
| ResourceBits.RescGroupReadsGroupWords | mcux/mcux-sdk/components/power_manager/devices/MIMXRT685S/fsl_pm_device.h:37 | PM_RESC_GROUP on the layout gives back, for every resource, exactly the code placed for it |
| ResourceBits.RescGroupIndependent | mcux/mcux-sdk/components/power_manager/devices/MIMXRT685S/fsl_pm_device.h:37 | changing one resource's code changes what PM_RESC_GROUP reads for that resource only |
| ResourceBits.LayoutSizes | mcux/mcux-sdk/components/power_manager/devices/MIMXRT685S/fsl_pm_device.h:36-37 | for the 57 resources the mask layout takes exactly 2 words and the group layout exactly 8 |
| Constraints.ActiveConstraint | mcux/mcux-sdk/components/power_manager/devices/MIMXRT685S/fsl_pm_device.h:151-283 | for every resource there is a full-on token, and the token requests FULL_ON for exactly the resource it is named after |
| Constraints.RetentionConstraint | mcux/mcux-sdk/components/power_manager/devices/MIMXRT685S/fsl_pm_device.h:171-283 | a retention token exists exactly for resources outside the peripherals group, and it requests PARTABLE_ON1 for exactly the resource it is named after |
| Constraints.DefinedConstraints | mcux/mcux-sdk/components/power_manager/devices/MIMXRT685S/fsl_pm_device.h:150-283 | the header defines a token for (state, resource) exactly when the state is FULL_ON, or the resource is a PRAM or an SRAM partition |

## Left out

- `PM_ENCODE_RESC` and the numeric values of `PM_RESOURCE_FULL_ON` and `PM_RESOURCE_PARTABLE_ON1` are defined outside this header and are not part of this model. Each token is therefore an abstract (state, resource) pair, and there is no bit packing or decode round trip for tokens.
- The power manager's constraint-aggregation engine and the programming of the PDSLEEPCFG registers are not in this header and are not part of this model.
- The wakeup-source block (lines 285-287) is empty, so there is nothing to model.
- `s32/soc/s32k344/include/Siul2_Icu_Ip_SA_Init_PBcfg.h` holds only vendor and version constants and an empty macro, so there is nothing to model.
- Macro precedence: `PM_RESC_MASK`, `PM_RESC_GROUP` and the `*_SIZE` macros are not parenthesised. The model gives their meaning for a plain argument used on its own. It does not model how they expand inside larger expressions.
- Bounds: neither macro checks its array index. RescMask and RescGroup require the word to exist, and MaskPositions and GroupPositions show that 2 and 8 words are enough for every resource.
- Word type: the element type of `rescMask` and `groupSlice` is declared in a header that is not part of this model. Words are taken to be `uint32_t`, as the 32-per-word and 8-per-word indexing implies.
- The `enabled_resources_prams_t` and `enabled_resources_peripherals_t` records are only declared, as the datatypes EnabledResourcesPrams and EnabledResourcesPeripherals. The header places no constraint on them.
- ADC token: line 166 defines `PM_RESC_ADC_ACTIVE` with `kResc_ADC`, but no enumerator has that name; the enumerator at line 67 is `kResc_ADC_ACTIVE`. The model uses `kResc_ADC_ACTIVE` (AdcActive) for this token.
