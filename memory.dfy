/** The NES CPU memory map: 2 KB of internal RAM mirrored four times below
    0x2000, eight PPU registers mirrored every 8 bytes up to 0x3FFF, the
    APU and I/O registers at 0x4000-0x4017, a disabled window at
    0x4018-0x401F that reads as zero, and cartridge space from 0x4020 on.
    Bus addresses are 16-bit words; the dispatch works on their integer
    value. */
module MemoryMap {
  import Cartridges

  type Address = Cartridges.Address

  /** The backing store: 64 KB, of which only the canonical cells of RAM,
      PPU and I/O are ever used. */
  type Ram = s: seq<bv8> | |s| == 0x10000 witness seq(0x10000, i => 0)

  /** Last address backed by `data`. */
  const IO_END := 0x4017

  /** First address handed to the cartridge. */
  const CARTRIDGE_START := 0x4020

  /** `readByte`, range by range. */
  function ReadAt(data: Ram, cart: Cartridges.Cartridge, address: Address): bv8
  {
    if address <= 0x07FF then data[address]
    else if 0x0800 <= address <= 0x0FFF then data[address - 0x0800]
    else if 0x1000 <= address <= 0x17FF then data[address - 0x1000]
    else if 0x1800 <= address <= 0x1FFF then data[address - 0x1800]
    else if 0x2000 <= address <= 0x2007 then data[address]
    else if 0x2008 <= address <= 0x3FFF then data[address % 8 + 0x2000]
    else if 0x4000 <= address <= IO_END then data[address]
    else if CARTRIDGE_START <= address <= 0xFFFF then Cartridges.Read(cart, address)
    else 0x00
  }

  /** `writeByte`, range by range; addresses above 0x4017 are ignored. */
  function WriteAt(data: Ram, address: Address, byte: bv8): Ram
  {
    if address <= 0x07FF then data[address := byte]
    else if 0x0800 <= address <= 0x0FFF then data[address - 0x0800 := byte]
    else if 0x1000 <= address <= 0x17FF then data[address - 0x1000 := byte]
    else if 0x1800 <= address <= 0x1FFF then data[address - 0x1800 := byte]
    else if 0x2000 <= address <= 0x2007 then data[address := byte]
    else if 0x2008 <= address <= 0x3FFF then data[address % 8 + 0x2000 := byte]
    else if 0x4000 <= address <= IO_END then data[address := byte]
    else data
  }

  /** `readByte` at a 16-bit bus address. */
  function Read(data: Ram, cart: Cartridges.Cartridge, address: bv16): bv8
  {
    ReadAt(data, cart, address as int)
  }

  /** `writeByte` at a 16-bit bus address. */
  function Write(data: Ram, address: bv16, byte: bv8): Ram
  {
    WriteAt(data, address as int, byte)
  }

  /** The cell of `data` that backs a RAM, PPU or I/O address, defined by
      the mirroring rule rather than by the range table: RAM repeats every
      0x800 bytes, the PPU registers every 8 bytes. */
  function Canonical(address: Address): (i: Address)
    requires address <= IO_END
  {
    if address <= 0x1FFF then address % 0x0800
    else if address <= 0x3FFF then 0x2000 + address % 8
    else address
  }

  /** Two addresses are mirrors of each other when they share a cell. */
  predicate Mirrors(address: Address, other: Address)
  {
    address <= IO_END && other <= IO_END && Canonical(address) == Canonical(other)
  }

  /** Below 0x2000 every read is a read of RAM at `address mod 0x800`. */
  lemma ReadRam(data: Ram, cart: Cartridges.Cartridge, address: Address)
    requires address <= 0x1FFF
    ensures ReadAt(data, cart, address) == data[address % 0x0800]
  {
    if address <= 0x07FF {
    } else if address <= 0x0FFF {
      assert address - 0x0800 == address % 0x0800;
    } else if address <= 0x17FF {
      assert address - 0x1000 == address % 0x0800;
    } else {
      assert address - 0x1800 == address % 0x0800;
    }
  }

  /** From 0x2000 to 0x3FFF every read is a read of PPU register
      `address mod 8`. */
  lemma ReadPpu(data: Ram, cart: Cartridges.Cartridge, address: Address)
    requires 0x2000 <= address <= 0x3FFF
    ensures ReadAt(data, cart, address) == data[0x2000 + address % 8]
  {
    if address <= 0x2007 {
      assert address == 0x2000 + address % 8;
    }
  }

  /** The disabled APU/IO window reads as zero, and cartridge space is
      whatever the cartridge returns. */
  lemma ReadAboveIo(data: Ram, cart: Cartridges.Cartridge, address: Address)
    requires address > IO_END
    ensures address < CARTRIDGE_START ==> ReadAt(data, cart, address) == 0
    ensures address >= CARTRIDGE_START ==> ReadAt(data, cart, address) == Cartridges.Read(cart, address)
  {
  }

  /** Every address backed by `data` reads its canonical cell. */
  lemma ReadCanonical(data: Ram, cart: Cartridges.Cartridge, address: Address)
    requires address <= IO_END
    ensures ReadAt(data, cart, address) == data[Canonical(address)]
  {
    if address <= 0x1FFF {
      ReadRam(data, cart, address);
    } else if address <= 0x3FFF {
      ReadPpu(data, cart, address);
    }
  }

  /** A write stores into the canonical cell of its address and changes
      no other cell; above 0x4017 it changes nothing at all. */
  lemma WriteCanonical(data: Ram, address: Address, byte: bv8)
    ensures address <= IO_END ==> WriteAt(data, address, byte) == data[Canonical(address) := byte]
    ensures address > IO_END ==> WriteAt(data, address, byte) == data
  {
    if address <= 0x1FFF {
      if address <= 0x07FF {
      } else if address <= 0x0FFF {
        assert address - 0x0800 == Canonical(address);
      } else if address <= 0x17FF {
        assert address - 0x1000 == Canonical(address);
      } else {
        assert address - 0x1800 == Canonical(address);
      }
    } else if address <= 0x2007 {
      assert address == Canonical(address);
    }
  }

  /** A read after a write sees the written byte exactly when the two
      addresses share a cell, and sees the old contents otherwise. */
  lemma ReadAfterWrite(data: Ram, cart: Cartridges.Cartridge, address: Address, other: Address, byte: bv8)
    ensures ReadAt(WriteAt(data, address, byte), cart, other) ==
      if Mirrors(address, other) then byte else ReadAt(data, cart, other)
  {
    WriteCanonical(data, address, byte);
    if other <= IO_END {
      ReadCanonical(data, cart, other);
      ReadCanonical(WriteAt(data, address, byte), cart, other);
    }
  }

  /** A write above the I/O registers changes nothing. */
  lemma WriteAboveIo(data: Ram, address: Address, byte: bv8)
    requires address > IO_END
    ensures WriteAt(data, address, byte) == data
  {
  }

  /** A write through any RAM mirror is seen at every mirror of it. */
  lemma RamMirrorWrite(data: Ram, cart: Cartridges.Cartridge, address: Address, other: Address, byte: bv8)
    requires address <= 0x1FFF && other <= 0x1FFF
    requires address % 0x0800 == other % 0x0800
    ensures ReadAt(WriteAt(data, address, byte), cart, other) == byte
  {
    ReadAfterWrite(data, cart, address, other, byte);
  }

  /** A write through any PPU register mirror is seen at every mirror of
      it. */
  lemma PpuMirrorWrite(data: Ram, cart: Cartridges.Cartridge, address: Address, other: Address, byte: bv8)
    requires 0x2000 <= address <= 0x3FFF && 0x2000 <= other <= 0x3FFF
    requires address % 8 == other % 8
    ensures ReadAt(WriteAt(data, address, byte), cart, other) == byte
  {
    ReadAfterWrite(data, cart, address, other, byte);
  }

  /** `Memory`: the 64 KB array the CPU writes in place, and the cartridge
      it reads program space from. */
  class Memory {
    const data: array<bv8>
    const cartridge: Cartridges.Cartridge

    ghost predicate Valid()
      reads this
    {
      data.Length == 0x10000
    }

    /** The array starts with arbitrary contents, given here as
        `contents`. */
    constructor (cartridge: Cartridges.Cartridge, contents: Ram)
      ensures Valid() && fresh(data)
      ensures this.cartridge == cartridge && Contents() == contents
    {
      this.cartridge := cartridge;
      data := new bv8[0x10000](i requires 0 <= i < 0x10000 => contents[i]);
    }

    /** The array as a value. */
    function Contents(): Ram
      requires Valid()
      reads this, data
    {
      data[..]
    }

    /** `readByte`: the range dispatch over the array. */
    method ReadByte(address: bv16) returns (b: bv8)
      requires Valid()
      ensures b == Read(Contents(), cartridge, address)
    {
      b := ReadByteAt(address as int);
    }

    /** The dispatch itself, on the integer value of the address. */
    method ReadByteAt(address: Address) returns (b: bv8)
      requires Valid()
      ensures b == ReadAt(Contents(), cartridge, address)
    {
      if address <= 0x07FF {
        b := data[address];
      } else if 0x0800 <= address <= 0x0FFF {
        b := data[address - 0x0800];
      } else if 0x1000 <= address <= 0x17FF {
        b := data[address - 0x1000];
      } else if 0x1800 <= address <= 0x1FFF {
        b := data[address - 0x1800];
      } else if 0x2000 <= address <= 0x2007 {
        b := data[address];
      } else if 0x2008 <= address <= 0x3FFF {
        b := data[address % 8 + 0x2000];
      } else if 0x4000 <= address <= IO_END {
        b := data[address];
      } else if CARTRIDGE_START <= address <= 0xFFFF {
        b := Cartridges.Read(cartridge, address);
      } else {
        b := 0x00;
      }
    }

    /** `writeByte`: the range dispatch, updating the array in place. */
    method WriteByte(byte: bv8, address: bv16)
      requires Valid()
      modifies data
      ensures Contents() == Write(old(Contents()), address, byte)
    {
      WriteByteAt(byte, address as int);
    }

    /** The dispatch itself, on the integer value of the address. */
    method WriteByteAt(byte: bv8, address: Address)
      requires Valid()
      modifies data
      ensures Contents() == WriteAt(old(Contents()), address, byte)
    {
      if address <= 0x07FF {
        data[address] := byte;
      } else if 0x0800 <= address <= 0x0FFF {
        data[address - 0x0800] := byte;
      } else if 0x1000 <= address <= 0x17FF {
        data[address - 0x1000] := byte;
      } else if 0x1800 <= address <= 0x1FFF {
        data[address - 0x1800] := byte;
      } else if 0x2000 <= address <= 0x2007 {
        data[address] := byte;
      } else if 0x2008 <= address <= 0x3FFF {
        data[address % 8 + 0x2000] := byte;
      } else if 0x4000 <= address <= IO_END {
        data[address] := byte;
      }
    }
  }
}
