# ESP32 SRAM layout, modelled in Dafny

This project models `soc/espressif/esp32/memory.h` from the Zephyr port for the ESP32. The header computes, at build time, how the chip's three SRAM banks are split:

- SRAM0 holds the external-memory cache, the optional MCUboot segments and the low part of the instruction memory (IRAM).
- SRAM1 can be reached from both buses. It holds a 32 KiB ROM/IPC reserve, the ESP heap and an IRAM extension.
- SRAM2 holds the data memory (DRAM) after the ROM reserve and an optional Bluetooth reserve.

IRAM and DRAM are then divided between the Pro CPU and the App CPU. The header also gives the flash segment lengths and the two macros that convert SRAM1 addresses between the instruction bus and the data bus, which see the bank in reverse order.

The header is plain integer arithmetic, so the model is made of functions and lemmas:

- `intervals.dfy` (module `Intervals`): named half-open regions, and what it means for a list of them to tile an address window. `Tiles` is the recursive definition and `Adjacent` the flat one. `TilesIffAdjacent` proves the two are equivalent, `TilesOrdered` shows a tiling is ordered and has no overlaps, and `Owner` finds the one region that holds a given byte.
- `memory.dfy` (module `Esp32Memory`): one function per macro or macro group. The device-tree bank table is the `Banks` argument and the Kconfig options are the `Config` argument. The lemmas state the promises the header makes.
- `memory_map.dfy` (module `Esp32MemoryMap`): the instruction-bus and data-bus memory maps drawn in the header's comment (lines 69-102), and the MCUboot view of SRAM0. Each is a list of regions built from those functions, proved to tile its banks.

The header checks nothing, so the macro functions return `int`. The only preconditions are on `BootloaderIramStart` and `BootloaderIramSize`: they require `c.mcuboot`, because those macros are defined only when MCUboot is configured (lines 133-157). The other macros in that block are defined here for every configuration: `BootloaderIramLoaderStart` and `BootloaderIramLoaderSize` (lines 144-145), and the constants `BOOTLOADER_DRAM_START` and `BOOTLOADER_DRAM_SIZE` (lines 156-157). Outside MCUboot builds they are simply unused. The predicate `Fits` collects the conditions under which every size is non-negative:

- the reserved head fits in SRAM0;
- the heap and the ROM reserve fit in SRAM1;
- the ROM and Bluetooth reserves fit in SRAM2;
- the App CPU's IRAM and DRAM sizes fit in their pools;
- the flash holds at least its 4 KiB trailer, so the flash segment lengths are non-negative.

The region maps require `Fits`.

Some functions have no contract of their own: `CacheStart`, `BootloaderIramReserved`, `BootloaderIramLoaderStart`, `BootloaderIramLoaderSize`, `HeapStart`, `HeapSize`, `IramStart`, `DramReserved`, `DramStart`, the `AppCpu*` and `ProCpu*` functions, `Sram1IramStart` and `Sram1DramStart`. Each is a one-line copy of a macro, and the lemmas and contracts in the table below state what the header promises about them. `FlashSize` has a contract, but that contract only transcribes the `#ifdef` at lines 223-227, so it has no row. The flash promises are stated on `IromSegLen` and `DromSegLen`.

Three places where the model follows the code rather than the prose around it:

- **Cache size.** The comment at lines 13-17 suggests the App CPU's 32 KiB of cache is given to IRAM when the App CPU is unused. The code at lines 123-127 does the opposite: it keeps 64 KiB of cache when the App CPU is not configured and 32 KiB when it is. `CacheSize` follows the code.
- **Pro CPU IRAM base.** The comment at lines 199-201 places the App CPU's sections at the end of the Pro CPU's IRAM and DRAM sections, which suggests the Pro CPU's base addresses stay put. That holds for DRAM (`ProCpuBaseIndependentOfAppCpu`). It does not hold for IRAM: without MCUboot, enabling the App CPU moves `IRAM_START` down by 32 KiB (`ProCpuIramBaseMovesWithAppCpu`).
- **No validation.** The header has no check that a reserved size fits its bank, so the model states those conditions as the `Fits` precondition and does not add an error type. `Fits` also allows zero-sized remainders, such as a bootloader segment that fills SRAM0 exactly.

The SRAM1 conversions map region *boundaries*, not bytes. The bottom of SRAM1 on the instruction bus maps to the top of SRAM1 on the data bus (one past its last byte). So an instruction-bus range `[x, y)` corresponds to the data-bus range `[conv(y), conv(x))`. `BusMapsAgreeOnSram1` states this correspondence for the heap and the IRAM extension.

`HEAP_START` (line 194) has no outer parentheses, so an expression that uses it can bind differently from what was intended. The model uses the intended sum.

## Model

| member | source | states |
|---|---|---|
| `Esp32Memory.CacheSize` | soc/espressif/esp32/memory.h:119-127 | The cache is 32 KiB when the App CPU is configured. It is the full 64 KiB (twice 32 KiB) exactly when the App CPU is not configured. |
| `Esp32Memory.BootloaderIramStart` | soc/espressif/esp32/memory.h:143-149 | With MCUboot, the reclaimable segment starts right after the head of SRAM0 reserved for the bootloader (32 KiB of cache plus the critical loader segment). |
| `Esp32Memory.BootloaderIramSize` | soc/espressif/esp32/memory.h:148-150 | The reclaimable bootloader segment ends exactly at the end of SRAM0. |
| `Esp32Memory.Sram1IramSize` | soc/espressif/esp32/memory.h:166-173 | The ROM reserve, the heap and the IRAM extension add up to SRAM1's size. Laid from the heap's start on the data bus, they reach the end of SRAM1. |
| `Esp32Memory.IramReserved` | soc/espressif/esp32/memory.h:175-180 | The reserved head of SRAM0 is the maximum of the cache size and the bootloader reservation. It is at least both, and equal to one of them. |
| `Esp32Memory.IramSize` | soc/espressif/esp32/memory.h:182-184 | IRAM runs from its start through the end of SRAM0 and ends where SRAM1's IRAM extension ends on the instruction bus. |
| `Esp32Memory.DramSize` | soc/espressif/esp32/memory.h:186-191 | DRAM ends exactly at the end of SRAM2. |
| `Esp32Memory.IromSegLen` | soc/espressif/esp32/memory.h:222-235 | The code segment is the flash size minus the 4 KiB trailer. Whenever the flash holds that trailer, the length is non-negative and shorter than the flash. With `CONFIG_FLASH_SIZE` unset, the flash defaults to 4 MiB and the length is 0x3ff000. |
| `Esp32Memory.DromSegLen` | soc/espressif/esp32/memory.h:236-237 | The read-only data segment has the same length as the code segment: the flash size minus 4 KiB. |
| `Esp32Memory.Sram1IramDramCalc` | soc/espressif/esp32/memory.h:250-255 | The bottom of SRAM1 on the instruction bus maps to the top of SRAM1 on the data bus, and the top maps to the bottom. An address lies in the instruction-bus view exactly when its image lies in the data-bus view. |
| `Esp32Memory.Sram1DramIramCalc` | soc/espressif/esp32/memory.h:250-258 | Undoes the instruction-to-data conversion, and pins the data-bus endpoints to the opposite instruction-bus endpoints. |
| `Esp32Memory.SizesNonNegative` | soc/espressif/esp32/memory.h:143-237 | Under `Fits`, none of these is negative: the SRAM1 IRAM extension, IRAM, DRAM, the Pro CPU sizes, the reclaimable bootloader segment, or the IROM and DROM segment lengths. IRAM is at least as large as the SRAM1 extension. |
| `Esp32Memory.Sram1ConversionsInverse` | soc/espressif/esp32/memory.h:253-258 | The two conversions are mutual inverses, in both orders, on every address. |
| `Esp32Memory.Sram1ConversionsReverseOrder` | soc/espressif/esp32/memory.h:36-40 | Both conversions strictly reverse the order of addresses, and both keep the distance between two addresses. |
| `Esp32Memory.HeapAbutsIramExtension` | soc/espressif/esp32/memory.h:89-97 | On the data bus, the image of the IRAM extension's top boundary is the end of the heap. The image of the bottom of SRAM1's instruction-bus view is the top of SRAM1. |
| `Esp32Memory.LoaderInsideReservedHead` | soc/espressif/esp32/memory.h:138-146 | The critical loader segment starts right after the Pro CPU's 32 KiB of cache and ends at or below the start of application IRAM. The cache also ends at or below that start. |
| `Esp32Memory.ProAppSplit` | soc/espressif/esp32/memory.h:204-220 | The Pro CPU's IRAM and DRAM are the heads of their pools, and the App CPU's are the tails. They meet with no gap. Without the App CPU, its sizes are 0 and the Pro CPU has each whole pool. |
| `Esp32Memory.ProCpuBaseIndependentOfAppCpu` | soc/espressif/esp32/memory.h:197-220 | The Pro CPU's IRAM and DRAM bases do not depend on the App CPU's sizes. Its DRAM base also does not depend on whether the App CPU is enabled. |
| `Esp32Memory.ProCpuIramBaseMovesWithAppCpu` | soc/espressif/esp32/memory.h:179-183 | Without MCUboot, enabling the App CPU moves the Pro CPU's IRAM base down by exactly 32 KiB. |
| `Esp32MemoryMap.InstructionBusMap` | soc/espressif/esp32/memory.h:74-87 | The instruction-bus regions, in order, tile the window from the start of SRAM0 to the top of SRAM1's instruction-bus view. The regions are: the reserved head, Pro CPU IRAM, App CPU IRAM, and the aliases of the heap and the ROM reserve. |
| `Esp32MemoryMap.Sram1DataBusMap` | soc/espressif/esp32/memory.h:89-97 | The ROM reserve, the heap and the IRAM extension tile SRAM1 on the data bus. |
| `Esp32MemoryMap.Sram2DataBusMap` | soc/espressif/esp32/memory.h:98-102 | The ROM reserve, the Bluetooth reserve, Pro CPU DRAM and App CPU DRAM tile SRAM2. |
| `Esp32MemoryMap.BootloaderSram0Map` | soc/espressif/esp32/memory.h:138-150 | With MCUboot, the Pro CPU's cache half, the critical loader segment and the reclaimable segment tile SRAM0. |
| `Esp32MemoryMap.BusMapsAgreeOnSram1` | soc/espressif/esp32/memory.h:239-258 | Converting the instruction-bus bounds of the IRAM extension, the heap alias and the ROM-reserve alias gives the data-bus bounds of the same regions, with the ends swapped. |
| `Esp32MemoryMap.EveryByteInOneRegion` | soc/espressif/esp32/memory.h:69-102 | Every byte of each bank, on each bus that sees it, lies in exactly one region of that bus's map. |

## Left out

- Device-tree lookups (`DT_REG_ADDR`, `DT_REG_SIZE`, `DT_CHOSEN`) are not modelled. Bank bases and sizes are the `Banks` argument.
- `FLASH_CODE_START` and `FLASH_CODE_SIZE` are not modelled. They copy a device-tree partition through with no arithmetic.
- Kconfig and `#if defined` are not modelled as such. Each option is a `Config` field: the two alternative symbols for the App CPU and for MCUboot each become one boolean, and an optional `CONFIG_FLASH_SIZE` becomes an `Option`.
- `CACHE_ALIGN` is not modelled. It passes `CONFIG_MMU_PAGE_SIZE` through unchanged.
- `IROM_SEG_ORG`, `DROM_SEG_ORG`, `BOOTLOADER_DRAM_START` and `BOOTLOADER_DRAM_SIZE` are kept as constants only. Nothing is computed from them.
- The linker scripts and the cache/MMU set-up that read these values are not part of this model.
- Integer width is not modelled. The preprocessor and the linker evaluate these expressions in machine integers, but every address and size here fits easily, so the model uses unbounded integers.
