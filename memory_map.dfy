/**
 * The memory maps drawn in the comment of soc/espressif/esp32/memory.h, one
 * per bus, built from the macros of `Esp32Memory` as lists of regions. Each
 * map tiles its banks: every byte belongs to exactly one region.
 */
module Esp32MemoryMap {
  import opened Intervals
  import opened Esp32Memory

  datatype RegionName =
    | ReservedHead       // SRAM0 head: cache, and the bootloader's critical segment if any
    | ProCpuIram
    | AppCpuIram
    | Sram1RomReserve    // ROM data and IPC shared memory at the start of SRAM1
    | EspHeap
    | Sram1Iram          // the IRAM extension in SRAM1
    | DramRomReserve     // ROM data at the start of SRAM2
    | BluetoothReserve
    | ProCpuDram
    | AppCpuDram
    | ProCpuCache
    | BootloaderLoader
    | BootloaderReclaimable

  /**
   * Instruction bus, from the bottom of SRAM0 to the top of SRAM1's
   * instruction-bus view: the reserved head, the Pro and App CPU IRAM, then
   * the instruction-bus aliases of the heap and of the ROM reserve (SRAM1 is
   * reversed on this bus, so they come in the opposite order to the data bus).
   */
  function InstructionBusMap(b: Banks, c: Config): (rs: seq<Region<RegionName>>)
    requires Fits(b, c)
    ensures |rs| == 5
    ensures Tiles(rs, b.sram0.start, Sram1IramStart(b) + b.sram1.size)
  {
    SizesNonNegative(b, c);
    var sram1IramTop := Sram1IramStart(b) + Sram1IramSize(b, c);
    var rs := [
      Region(ReservedHead, b.sram0.start, IramReserved(c)),
      Region(ProCpuIram, ProCpuIramStart(b, c), ProCpuIramSize(b, c)),
      Region(AppCpuIram, AppCpuIramStart(b, c), AppCpuIramSize(c)),
      Region(EspHeap, sram1IramTop, HeapSize(c)),
      Region(Sram1RomReserve, sram1IramTop + HeapSize(c), SRAM1_RESERVED)
    ];
    TilesIffAdjacent(rs, b.sram0.start, Sram1IramStart(b) + b.sram1.size);
    rs
  }

  /** Data bus, SRAM1: the ROM reserve, the ESP heap, then the data-bus image of the IRAM extension. */
  function Sram1DataBusMap(b: Banks, c: Config): (rs: seq<Region<RegionName>>)
    requires Fits(b, c)
    ensures |rs| == 3
    ensures Tiles(rs, b.sram1.start, b.sram1.start + b.sram1.size)
  {
    SizesNonNegative(b, c);
    var rs := [
      Region(Sram1RomReserve, Sram1DramStart(b), SRAM1_RESERVED),
      Region(EspHeap, HeapStart(b), HeapSize(c)),
      Region(Sram1Iram, HeapStart(b) + HeapSize(c), Sram1IramSize(b, c))
    ];
    TilesIffAdjacent(rs, b.sram1.start, b.sram1.start + b.sram1.size);
    rs
  }

  /** Data bus, SRAM2: the ROM reserve, the Bluetooth reserve, the Pro CPU DRAM and the App CPU DRAM. */
  function Sram2DataBusMap(b: Banks, c: Config): (rs: seq<Region<RegionName>>)
    requires Fits(b, c)
    ensures |rs| == 4
    ensures Tiles(rs, b.sram2.start, b.sram2.start + b.sram2.size)
  {
    SizesNonNegative(b, c);
    var rs := [
      Region(DramRomReserve, b.sram2.start, DRAM_ROM_RESERVED),
      Region(BluetoothReserve, b.sram2.start + DRAM_ROM_RESERVED, c.btReserve),
      Region(ProCpuDram, ProCpuDramStart(b, c), ProCpuDramSize(b, c)),
      Region(AppCpuDram, AppCpuDramStart(b, c), AppCpuDramSize(c))
    ];
    TilesIffAdjacent(rs, b.sram2.start, b.sram2.start + b.sram2.size);
    rs
  }

  /**
   * SRAM0 as the second stage bootloader sees it: the Pro CPU's half of the
   * cache, the critical loader segment, and the reclaimable remainder.
   */
  function BootloaderSram0Map(b: Banks, c: Config): (rs: seq<Region<RegionName>>)
    requires c.mcuboot && Fits(b, c)
    ensures |rs| == 3
    ensures Tiles(rs, b.sram0.start, b.sram0.start + b.sram0.size)
  {
    SizesNonNegative(b, c);
    var rs := [
      Region(ProCpuCache, CacheStart(b), CACHE_SIZE_SINGLE_CPU),
      Region(BootloaderLoader, BootloaderIramLoaderStart(b), BootloaderIramLoaderSize(c)),
      Region(BootloaderReclaimable, BootloaderIramStart(b, c), BootloaderIramSize(b, c))
    ];
    TilesIffAdjacent(rs, b.sram0.start, b.sram0.start + b.sram0.size);
    rs
  }

  /**
   * The two bus maps of SRAM1 describe the same bytes: converting the
   * instruction-bus bounds of the IRAM extension and of the heap gives their
   * data-bus bounds, with the ends swapped.
   */
  lemma BusMapsAgreeOnSram1(b: Banks, c: Config)
    requires Fits(b, c)
    ensures var ib := InstructionBusMap(b, c); var db := Sram1DataBusMap(b, c);
      && Sram1IramDramCalc(b, ib[2].End()) == db[2].start
      && Sram1IramDramCalc(b, Sram1IramStart(b)) == db[2].End()
      && Sram1IramDramCalc(b, ib[3].start) == db[1].End()
      && Sram1IramDramCalc(b, ib[3].End()) == db[1].start
      && Sram1IramDramCalc(b, ib[4].End()) == db[0].start
  {
  }

  /**
   * Every byte of every bank, on each bus that sees it, lies in exactly one
   * region of that bus's map.
   */
  lemma EveryByteInOneRegion(b: Banks, c: Config, a: int)
    requires Fits(b, c)
    ensures b.sram0.start <= a < Sram1IramStart(b) + b.sram1.size ==> OwnedOnce(InstructionBusMap(b, c), a)
    ensures b.sram1.start <= a < b.sram1.start + b.sram1.size ==> OwnedOnce(Sram1DataBusMap(b, c), a)
    ensures b.sram2.start <= a < b.sram2.start + b.sram2.size ==> OwnedOnce(Sram2DataBusMap(b, c), a)
    ensures c.mcuboot && b.sram0.start <= a < b.sram0.start + b.sram0.size ==> OwnedOnce(BootloaderSram0Map(b, c), a)
  {
    if b.sram0.start <= a < Sram1IramStart(b) + b.sram1.size {
      TilesPartition(InstructionBusMap(b, c), b.sram0.start, Sram1IramStart(b) + b.sram1.size, a);
    }
    if b.sram1.start <= a < b.sram1.start + b.sram1.size {
      TilesPartition(Sram1DataBusMap(b, c), b.sram1.start, b.sram1.start + b.sram1.size, a);
    }
    if b.sram2.start <= a < b.sram2.start + b.sram2.size {
      TilesPartition(Sram2DataBusMap(b, c), b.sram2.start, b.sram2.start + b.sram2.size, a);
    }
    if c.mcuboot && b.sram0.start <= a < b.sram0.start + b.sram0.size {
      TilesPartition(BootloaderSram0Map(b, c), b.sram0.start, b.sram0.start + b.sram0.size, a);
    }
  }
}
