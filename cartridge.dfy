/** The cartridge: an iNES 1.0 image whose header (bytes 4 to 9) is decoded
    into the cartridge's fields, and the mapper-0 read path, which shows the
    first 16 KB program bank at 0x8000 and again at 0xC000. */
module Cartridges {
  import opened Wrappers
  import opened Bitwise

  /** A CPU bus address, 0x0000 to 0xFFFF, as the integer the cartridge's
      `read` takes. */
  type Address = a: int | 0 <= a < 0x10000

  /** Size of the iNES header that precedes the program banks. */
  const HEADER_SIZE := 0x10

  /** Index of each header byte the decoder reads. */
  const PRG_ROM_CODE := 4
  const CHR_ROM_CODE := 5
  const FLAGS_6_CODE := 6
  const FLAGS_7_CODE := 7
  const PRG_RAM_CODE := 8
  const FLAGS_9_CODE := 9

  datatype Mirroring = Horizontal | Vertical

  datatype TvSystem = Ntsc | Pal

  /** The decoded header. `mirroring` and `tvSystem` are assigned only when
      their bit is set; `None` stands for a field the decoder leaves
      unassigned. */
  datatype Header = Header(
    prgRomSize: nat,
    chrRomSize: nat,
    prgRamSize: nat,
    mirroring: Option<Mirroring>,
    batteryBacked: bool,
    trainerPresent: bool,
    ignoreMirroringControl: bool,
    tvSystem: Option<TvSystem>,
    mapperNumber: bv8)

  /** A ROM image long enough for every index the mapper-0 read path can
      form: the header and one 16 KB bank. */
  type Image = s: seq<bv8> | |s| >= 0x4010 witness seq(0x4010, i => 0)

  /** A loaded cartridge: the raw image and its decoded header. */
  datatype Cartridge = Cartridge(data: Image, header: Header)

  /** Header decoding of the constructor: sizes in KB from bytes 4, 5 and 8,
      flag bits from bytes 6 and 9, mapper number from the high nibbles of
      bytes 6 and 7. */
  function DecodeHeader(data: seq<bv8>): (h: Header)
    requires |data| >= 10
    ensures h.prgRomSize == data[4] as nat * 16 && h.chrRomSize == data[5] as nat * 8
    ensures data[8] != 0 ==> h.prgRamSize == data[8] as nat * 8
    ensures data[8] == 0 ==> h.prgRamSize == 8
    ensures h.mirroring == Some(Vertical) <==> IsSet(data[6], 0)
    ensures h.mirroring != Some(Horizontal)
    ensures h.batteryBacked == IsSet(data[6], 1)
    ensures h.trainerPresent == IsSet(data[6], 2)
    ensures h.ignoreMirroringControl == IsSet(data[6], 3)
    ensures h.tvSystem == Some(Pal) <==> IsSet(data[9], 0)
    ensures h.tvSystem != Some(Ntsc)
    ensures h.mapperNumber == MapperNumber(data[6], data[7])
  {
    var flags6 := data[FLAGS_6_CODE];
    var prgRam := data[PRG_RAM_CODE] as nat * 8;
    Header(
      prgRomSize := data[PRG_ROM_CODE] as nat * 16,
      chrRomSize := data[CHR_ROM_CODE] as nat * 8,
      prgRamSize := if prgRam == 0 then 8 else prgRam,
      mirroring := if CheckBit(flags6, 0) then Some(Vertical) else None,
      batteryBacked := CheckBit(flags6, 1),
      trainerPresent := CheckBit(flags6, 2),
      ignoreMirroringControl := CheckBit(flags6, 3),
      tvSystem := if CheckBit(data[FLAGS_9_CODE], 0) then Some(Pal) else None,
      mapperNumber := MapperNumber(flags6, data[FLAGS_7_CODE]))
  }

  /** The mapper number: high nibble of flags 7 above high nibble of
      flags 6. */
  function MapperNumber(flags6: bv8, flags7: bv8): (n: bv8)
    ensures n >> 4 == flags7 >> 4 && n & 0xF == flags6 >> 4
  {
    var lowerMapperNumber := (flags6 >> 4) & 0xF;
    var upperMapperNumber := (flags7 >> 4) & 0xF;
    CombineNibbles(upperMapperNumber, lowerMapperNumber)
  }

  /** `read` for mapper 0: the first bank appears in both 16 KB windows, and
      any address below 0x8000 reads as zero. */
  function Read(cart: Cartridge, address: Address): (b: bv8)
    ensures 0x8000 <= address ==> b == cart.data[address % 0x4000 + HEADER_SIZE]
    ensures address < 0x8000 ==> b == 0
  {
    if 0x8000 <= address <= 0xBFFF then
      cart.data[address - 0x8000 + HEADER_SIZE]
    else if 0xC000 <= address <= 0xFFFF then
      cart.data[address - 0xC000 + HEADER_SIZE]
    else
      0x00
  }

  /** The upper window always shows the first bank again, never a second
      one. */
  lemma UpperWindowMirrorsLower(cart: Cartridge, address: Address)
    requires address >= 0xC000
    ensures Read(cart, address) == Read(cart, address - 0x4000)
  {
    assert (address - 0x4000) % 0x4000 == address % 0x4000;
  }
}
