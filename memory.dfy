/**
 * Build-time layout of the three ESP32 SRAM banks, one function per group of
 * macros in soc/espressif/esp32/memory.h.
 *
 * The macros are plain integer arithmetic over the device-tree bank table and
 * a handful of Kconfig options. Here the bank table is the `Banks` argument,
 * the options are the `Config` argument, and every `#if` becomes an `if` on a
 * boolean field. The macros themselves check nothing, so the functions below
 * return `int`; the only preconditions are on the bootloader segments, which
 * exist only with MCUboot. `Fits` collects the conditions under which every
 * computed size is non-negative.
 */
module Esp32Memory {

  datatype Option<T> = None | Some(value: T)

  /** Base address and size in bytes of one SRAM bank, as the device tree gives them. */
  datatype Bank = Bank(start: nat, size: nat)

  /**
   * The bank table. SRAM0 is given on the instruction bus, SRAM1 and SRAM2
   * on the data bus.
   */
  datatype Banks = Banks(sram0: Bank, sram1: Bank, sram2: Bank)

  /** The Kconfig options the layout depends on. */
  datatype Config = Config(
    appcpu: bool,            // CONFIG_SOC_ENABLE_APPCPU or CONFIG_SOC_ESP32_APPCPU
    mcuboot: bool,           // CONFIG_MCUBOOT or CONFIG_BOOTLOADER_MCUBOOT
    mcubootIram: nat,        // CONFIG_ESP32_MCUBOOT_IRAM
    sram1Heap: nat,          // CONFIG_ESP32_SRAM1_HEAP_SIZE
    btReserve: nat,          // CONFIG_ESP32_BT_RESERVE_DRAM
    appIram: nat,            // CONFIG_ESP_APPCPU_IRAM_SIZE
    appDram: nat,            // CONFIG_ESP_APPCPU_DRAM_SIZE
    flashSize: Option<nat>   // CONFIG_FLASH_SIZE, if set
  )

  const CACHE_SIZE_SINGLE_CPU: nat := 0x8000
  const CACHE_SIZE_DUAL_CPU: nat := 0x10000
  const SRAM1_RESERVED: nat := 0x8000
  const DRAM_ROM_RESERVED: nat := 0x2000
  const BOOTLOADER_DRAM_START: nat := 0x3ffe8000
  const BOOTLOADER_DRAM_SIZE: nat := 0x18000
  const DEFAULT_FLASH_SIZE: nat := 0x400000
  const FLASH_TRAILER: nat := 0x1000
  const IROM_SEG_ORG: nat := 0x400d0000
  const DROM_SEG_ORG: nat := 0x3f400000

  // ---------------------------------------------------------------------
  // External memory cache at the head of SRAM0

  function CacheStart(b: Banks): int {
    b.sram0.start
  }

  /**
   * The cache keeps both CPUs' 32 KiB halves unless the App CPU is
   * configured, in which case only the first half is cache.
   */
  function CacheSize(c: Config): (size: nat)
    ensures CACHE_SIZE_SINGLE_CPU <= size <= CACHE_SIZE_DUAL_CPU == 2 * CACHE_SIZE_SINGLE_CPU
    ensures size == CACHE_SIZE_DUAL_CPU <==> !c.appcpu
    ensures c.appcpu ==> size == CACHE_SIZE_SINGLE_CPU
  {
    if c.appcpu then CACHE_SIZE_SINGLE_CPU else CACHE_SIZE_DUAL_CPU
  }

  // ---------------------------------------------------------------------
  // Second stage bootloader (MCUboot) in SRAM0

  /** How much of the head of SRAM0 the bootloader's critical segment needs; 0 without MCUboot. */
  function BootloaderIramReserved(c: Config): nat {
    if c.mcuboot then CACHE_SIZE_SINGLE_CPU + c.mcubootIram else 0
  }

  /** The critical loader segment sits right after the Pro CPU's half of the cache. */
  function BootloaderIramLoaderStart(b: Banks): int {
    b.sram0.start + CACHE_SIZE_SINGLE_CPU
  }

  function BootloaderIramLoaderSize(c: Config): nat {
    c.mcubootIram
  }

  /** The reclaimable bootloader segment starts where the critical one ends ... */
  function BootloaderIramStart(b: Banks, c: Config): (start: int)
    requires c.mcuboot
    ensures start == b.sram0.start + BootloaderIramReserved(c)
  {
    BootloaderIramLoaderStart(b) + BootloaderIramLoaderSize(c)
  }

  /** ... and runs to the end of SRAM0. */
  function BootloaderIramSize(b: Banks, c: Config): (size: int)
    requires c.mcuboot
    ensures BootloaderIramStart(b, c) + size == b.sram0.start + b.sram0.size
  {
    b.sram0.size - BootloaderIramReserved(c)
  }

  // ---------------------------------------------------------------------
  // SRAM1: ROM reserve, ESP heap and IRAM extension

  /** The part of SRAM1 left over for instructions once the ROM reserve and the heap are taken. */
  function Sram1IramSize(b: Banks, c: Config): (size: int)
    ensures SRAM1_RESERVED + HeapSize(c) + size == b.sram1.size
    ensures HeapStart(b) + HeapSize(c) + size == b.sram1.start + b.sram1.size
  {
    b.sram1.size - SRAM1_RESERVED - c.sram1Heap
  }

  /** The ESP heap follows the 32 KiB ROM/IPC reserve at the head of SRAM1 on the data bus. */
  function HeapStart(b: Banks): int {
    b.sram1.start + SRAM1_RESERVED
  }

  function HeapSize(c: Config): nat {
    c.sram1Heap
  }

  // ---------------------------------------------------------------------
  // Instruction memory: SRAM0 after the reserved head, then SRAM1's IRAM part

  /** The reserved head of SRAM0 is the larger of the cache and the bootloader's critical reservation. */
  function IramReserved(c: Config): (reserved: nat)
    ensures reserved >= CacheSize(c) && reserved >= BootloaderIramReserved(c)
    ensures reserved == CacheSize(c) || reserved == BootloaderIramReserved(c)
  {
    if CacheSize(c) > BootloaderIramReserved(c) then CacheSize(c) else BootloaderIramReserved(c)
  }

  function IramStart(b: Banks, c: Config): int {
    b.sram0.start + IramReserved(c)
  }

  /** IRAM runs from its start through the end of SRAM0 and on over the IRAM part of SRAM1. */
  function IramSize(b: Banks, c: Config): (size: int)
    ensures IramStart(b, c) + size == Sram1IramStart(b) + Sram1IramSize(b, c)
  {
    b.sram0.size - IramReserved(c) + Sram1IramSize(b, c)
  }

  // ---------------------------------------------------------------------
  // Data memory: SRAM2 after the ROM reserve and the optional Bluetooth reserve

  function DramReserved(c: Config): nat {
    DRAM_ROM_RESERVED + c.btReserve
  }

  function DramStart(b: Banks, c: Config): int {
    b.sram2.start + DramReserved(c)
  }

  /** DRAM runs from its start to the end of SRAM2. */
  function DramSize(b: Banks, c: Config): (size: int)
    ensures DramStart(b, c) + size == b.sram2.start + b.sram2.size
  {
    b.sram2.size - DramReserved(c)
  }

  // ---------------------------------------------------------------------
  // Pro / App CPU split: the App CPU takes the tail of IRAM and of DRAM

  function AppCpuIramSize(c: Config): nat {
    if c.appcpu then c.appIram else 0
  }

  function AppCpuDramSize(c: Config): nat {
    if c.appcpu then c.appDram else 0
  }

  function AppCpuIramStart(b: Banks, c: Config): int {
    IramStart(b, c) + IramSize(b, c) - AppCpuIramSize(c)
  }

  function AppCpuDramStart(b: Banks, c: Config): int {
    DramStart(b, c) + DramSize(b, c) - AppCpuDramSize(c)
  }

  function ProCpuIramStart(b: Banks, c: Config): int {
    IramStart(b, c)
  }

  function ProCpuIramSize(b: Banks, c: Config): int {
    IramSize(b, c) - AppCpuIramSize(c)
  }

  function ProCpuDramStart(b: Banks, c: Config): int {
    DramStart(b, c)
  }

  function ProCpuDramSize(b: Banks, c: Config): int {
    DramSize(b, c) - AppCpuDramSize(c)
  }

  // ---------------------------------------------------------------------
  // Flash

  /** CONFIG_FLASH_SIZE when it is set, 4 MiB otherwise. */
  function FlashSize(c: Config): (size: nat)
    ensures c.flashSize.Some? ==> size == c.flashSize.value
    ensures c.flashSize.None? ==> size == DEFAULT_FLASH_SIZE
  {
    match c.flashSize
    case Some(n) => n
    case None => DEFAULT_FLASH_SIZE
  }

  /**
   * The cached code segment spans the flash except its last 4 KiB: a
   * non-negative length shorter than the flash whenever the flash holds the
   * trailer, and 0x3ff000 with the default 4 MiB flash.
   */
  function IromSegLen(c: Config): (len: int)
    ensures len + FLASH_TRAILER == FlashSize(c)
    ensures FlashSize(c) >= FLASH_TRAILER ==> 0 <= len < FlashSize(c)
    ensures c.flashSize.None? ==> len == 0x3ff000
  {
    FlashSize(c) - FLASH_TRAILER
  }

  /** The cached read-only data segment has the same length as the code segment. */
  function DromSegLen(c: Config): (len: int)
    ensures len == IromSegLen(c)
    ensures len + FLASH_TRAILER == FlashSize(c)
  {
    FlashSize(c) - FLASH_TRAILER
  }

  // ---------------------------------------------------------------------
  // SRAM1 seen from the two buses
  //
  // SRAM1 is wired to the instruction bus in reverse order: the instruction
  // bus sees it right after SRAM0, the data bus at its device-tree address,
  // and the lowest instruction-bus address is the highest data-bus address.
  // The conversions map region BOUNDARIES: the boundary at offset k from the
  // bottom of one view is the boundary at offset S - k in the other, so a
  // range [x, y) on one bus is the range [conv(y), conv(x)) on the other.

  function Sram1IramStart(b: Banks): int {
    b.sram0.start + b.sram0.size
  }

  function Sram1DramStart(b: Banks): int {
    b.sram1.start
  }

  /** Instruction-bus address of SRAM1 to its data-bus counterpart. */
  function Sram1IramDramCalc(b: Banks, addrIram: int): (addrDram: int)
    ensures addrIram == Sram1IramStart(b) ==> addrDram == Sram1DramStart(b) + b.sram1.size
    ensures addrIram == Sram1IramStart(b) + b.sram1.size ==> addrDram == Sram1DramStart(b)
    ensures Sram1IramStart(b) <= addrIram <= Sram1IramStart(b) + b.sram1.size
        <==> Sram1DramStart(b) <= addrDram <= Sram1DramStart(b) + b.sram1.size
  {
    b.sram1.size - (addrIram - Sram1IramStart(b)) + Sram1DramStart(b)
  }

  /** Data-bus address of SRAM1 to its instruction-bus counterpart; undoes `Sram1IramDramCalc`. */
  function Sram1DramIramCalc(b: Banks, addrDram: int): (addrIram: int)
    ensures Sram1IramDramCalc(b, addrIram) == addrDram
    ensures addrDram == Sram1DramStart(b) ==> addrIram == Sram1IramStart(b) + b.sram1.size
    ensures addrDram == Sram1DramStart(b) + b.sram1.size ==> addrIram == Sram1IramStart(b)
  {
    b.sram1.size - (addrDram - Sram1DramStart(b)) + Sram1IramStart(b)
  }

  // ---------------------------------------------------------------------
  // Properties of the layout

  /**
   * The configurations under which every size the header computes is
   * non-negative: the SRAM windows and segments, and the flash segment lengths.
   */
  predicate Fits(b: Banks, c: Config) {
    && IramReserved(c) <= b.sram0.size
    && SRAM1_RESERVED + c.sram1Heap <= b.sram1.size
    && DramReserved(c) <= b.sram2.size
    && AppCpuIramSize(c) <= IramSize(b, c)
    && AppCpuDramSize(c) <= DramSize(b, c)
    && FlashSize(c) >= FLASH_TRAILER
  }

  /** Under `Fits`, no window or segment of the layout has a negative size. */
  lemma SizesNonNegative(b: Banks, c: Config)
    requires Fits(b, c)
    ensures Sram1IramSize(b, c) >= 0
    ensures IramSize(b, c) >= Sram1IramSize(b, c)
    ensures DramSize(b, c) >= 0
    ensures ProCpuIramSize(b, c) >= 0 && ProCpuDramSize(b, c) >= 0
    ensures c.mcuboot ==> BootloaderIramSize(b, c) >= 0
    ensures IromSegLen(c) >= 0 && DromSegLen(c) >= 0
  {
  }

  /** The two conversions undo each other, in both orders, on every address. */
  lemma Sram1ConversionsInverse(b: Banks, addrIram: int, addrDram: int)
    ensures Sram1DramIramCalc(b, Sram1IramDramCalc(b, addrIram)) == addrIram
    ensures Sram1IramDramCalc(b, Sram1DramIramCalc(b, addrDram)) == addrDram
  {
  }

  /** Converting between the buses reverses the order of addresses, in both directions. */
  lemma Sram1ConversionsReverseOrder(b: Banks, x: int, y: int)
    requires x < y
    ensures Sram1IramDramCalc(b, x) > Sram1IramDramCalc(b, y)
    ensures Sram1DramIramCalc(b, x) > Sram1DramIramCalc(b, y)
    ensures Sram1IramDramCalc(b, x) - Sram1IramDramCalc(b, y) == y - x
    ensures Sram1DramIramCalc(b, x) - Sram1DramIramCalc(b, y) == y - x
  {
  }

  /**
   * On the data bus the ESP heap ends exactly where the data-bus image of the
   * IRAM extension begins, and that image ends at the top of SRAM1.
   */
  lemma HeapAbutsIramExtension(b: Banks, c: Config)
    ensures Sram1IramDramCalc(b, Sram1IramStart(b) + Sram1IramSize(b, c)) == HeapStart(b) + HeapSize(c)
    ensures Sram1IramDramCalc(b, Sram1IramStart(b)) == b.sram1.start + b.sram1.size
  {
  }

  /**
   * The bootloader's critical segment begins at the Pro CPU's half of the
   * cache and ends at or below the start of application IRAM, so the
   * application never places code over it.
   */
  lemma LoaderInsideReservedHead(b: Banks, c: Config)
    requires c.mcuboot
    ensures CacheStart(b) + CACHE_SIZE_SINGLE_CPU == BootloaderIramLoaderStart(b)
    ensures BootloaderIramLoaderStart(b) + BootloaderIramLoaderSize(c) <= IramStart(b, c)
    ensures CacheStart(b) + CacheSize(c) <= IramStart(b, c)
  {
  }

  /**
   * The App CPU's IRAM and DRAM are the tails of the two pools, the Pro CPU's
   * the heads, and without the App CPU the Pro CPU has both pools to itself.
   */
  lemma ProAppSplit(b: Banks, c: Config)
    ensures ProCpuIramStart(b, c) == IramStart(b, c)
    ensures ProCpuIramStart(b, c) + ProCpuIramSize(b, c) == AppCpuIramStart(b, c)
    ensures AppCpuIramStart(b, c) + AppCpuIramSize(c) == IramStart(b, c) + IramSize(b, c)
    ensures ProCpuDramStart(b, c) == DramStart(b, c)
    ensures ProCpuDramStart(b, c) + ProCpuDramSize(b, c) == AppCpuDramStart(b, c)
    ensures AppCpuDramStart(b, c) + AppCpuDramSize(c) == DramStart(b, c) + DramSize(b, c)
    ensures !c.appcpu ==> AppCpuIramSize(c) == 0 && AppCpuDramSize(c) == 0
    ensures !c.appcpu ==> ProCpuIramSize(b, c) == IramSize(b, c) && ProCpuDramSize(b, c) == DramSize(b, c)
  {
  }

  /**
   * The Pro CPU's base addresses do not depend on the sizes given to the App
   * CPU, and its DRAM base does not depend on whether the App CPU is enabled.
   */
  lemma ProCpuBaseIndependentOfAppCpu(b: Banks, c: Config, appcpu: bool, appIram: nat, appDram: nat)
    ensures ProCpuIramStart(b, c.(appIram := appIram, appDram := appDram)) == ProCpuIramStart(b, c)
    ensures ProCpuDramStart(b, c.(appcpu := appcpu, appIram := appIram, appDram := appDram)) == ProCpuDramStart(b, c)
  {
  }

  /**
   * The Pro CPU's IRAM base does move when the App CPU is enabled: without
   * MCUboot the cache shrinks to the Pro CPU's 32 KiB, the App CPU's 32 KiB
   * half of the cache becomes IRAM, and IRAM starts 32 KiB lower.
   */
  lemma ProCpuIramBaseMovesWithAppCpu(b: Banks, c: Config)
    requires !c.mcuboot
    ensures ProCpuIramStart(b, c.(appcpu := true)) + CACHE_SIZE_SINGLE_CPU == ProCpuIramStart(b, c.(appcpu := false))
  {
  }
}
