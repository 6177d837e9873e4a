/** On-chip flash programming and erasing (drv_flash_f4.c), for the 256-Kbyte part of the board:
    sectors 8 and up are not defined. */
module Flash {
  type Byte = b: int | 0 <= b < 256

  const WORD32 := 0x1_0000_0000
  const ROM_START := 0x0800_0000
  const ROM_END := 0x0804_0000        // STM32_FLASH_END_ADDRESS

  /** The sum of two 32-bit numbers, wrapped to 32 bits. */
  function U32(x: nat): nat
    requires x < WORD32 + WORD32
  {
    if x < WORD32 then x else x - WORD32
  }

  datatype Result = Size(size: nat) | Einval | Error

  // ---- sectors ---------------------------------------------------------------------------

  /** First address of a sector; of sector 8, the end of the table. */
  function Base(sector: nat): nat
    requires sector <= 8
  {
    if sector <= 4 then 0x0800_0000 + sector * 0x4000
    else 0x0802_0000 + (sector - 5) * 0x2_0000
  }

  /** The table of the chip: four sectors of 16 Kbytes, one of 64, three of 128, without gaps. */
  lemma SectorSizes(sector: nat)
    requires sector < 8
    ensures Base(0) == 0x0800_0000
    ensures Base(sector + 1) - Base(sector) == if sector < 4 then 16384 else if sector == 4 then 65536 else 131072
  {
  }

  /** Outside the table the answer is sector 0. */
  function GetSector(address: nat): (s: nat)
    ensures s <= 7
  {
    if 0x0800_0000 <= address < 0x0800_4000 then 0
    else if 0x0800_4000 <= address < 0x0800_8000 then 1
    else if 0x0800_8000 <= address < 0x0800_C000 then 2
    else if 0x0800_C000 <= address < 0x0801_0000 then 3
    else if 0x0801_0000 <= address < 0x0802_0000 then 4
    else if 0x0802_0000 <= address < 0x0804_0000 then 5
    else if 0x0804_0000 <= address < 0x0806_0000 then 6
    else if 0x0806_0000 <= address < 0x0808_0000 then 7
    else 0
  }

  /** The sector found contains the address exactly when the address is in the table at all. */
  lemma SectorContains(address: nat)
    ensures Base(GetSector(address)) <= address < Base(GetSector(address) + 1) <==> Base(0) <= address < Base(8)
  {
  }

  /** `GetSector(addr + size - 1) - FirstSector + 1`, in 32 bits. */
  function SectorCount(addr: nat, size: nat): nat
    requires addr < WORD32 && 1 <= size < WORD32
  {
    (GetSector(U32(addr + size - 1)) - GetSector(addr) + 1) % WORD32
  }

  /** Where the loop of HAL_FLASHEx_Erase ends: first sector plus number of sectors, in 32 bits. */
  function SectorEnd(addr: nat, size: nat): (e: nat)
    requires addr < WORD32 && 1 <= size < WORD32
    ensures e == GetSector(U32(addr + size - 1)) + 1
  {
    (GetSector(addr) + SectorCount(addr, size)) % WORD32
  }

  predicate EraseAccepted(addr: nat, size: nat)
    requires addr < WORD32 && size < WORD32
  {
    U32(addr + size) <= ROM_END && size >= 1
  }

  /** The sectors handed to the HAL hold the whole range, and neither the first nor the last of them
      lies outside it. */
  ghost predicate Covers(addr: nat, size: nat, first: nat, count: nat) {
    && count >= 1 && first + count <= 8
    && Base(first) <= addr < Base(first + 1)
    && Base(first + count - 1) < addr + size <= Base(first + count)
  }

  lemma SectorsOrdered(a: nat, b: nat)
    requires ROM_START <= a <= b < ROM_END
    ensures GetSector(a) <= GetSector(b) <= 5
  {
  }

  lemma InsideCovers(addr: nat, size: nat)
    requires ROM_START <= addr && 1 <= size && addr + size <= ROM_END
    ensures Covers(addr, size, GetSector(addr), SectorCount(addr, size))
  {
    SectorContains(addr);
    SectorContains(addr + size - 1);
    SectorsOrdered(addr, addr + size - 1);
  }

  lemma SectorsReach(addr: nat, size: nat, first: nat, to: nat)
    requires ROM_START <= addr && 1 <= size && addr + size <= ROM_END
    requires first == GetSector(addr) && to == SectorEnd(addr, size)
    ensures to <= 8 && Base(first) <= addr && addr + size <= Base(to)
  {
    InsideCovers(addr, size);
  }

  /** An accepted erase covers its range if and only if the range starts inside the ROM and does not run
      over the end of the address space; neither is checked by the source. */
  lemma EraseCoversIff(addr: nat, size: nat)
    requires addr < WORD32 && size < WORD32 && EraseAccepted(addr, size)
    ensures Covers(addr, size, GetSector(addr), SectorCount(addr, size)) <==> ROM_START <= addr && addr + size < WORD32
  {
    if ROM_START <= addr && addr + size < WORD32 {
      InsideCovers(addr, size);
    }
  }

  /** A range below the ROM is accepted and erases sector 0. */
  lemma EraseBelowRom()
    ensures EraseAccepted(0x0700_0000, 16)
    ensures GetSector(0x0700_0000) == 0 && SectorCount(0x0700_0000, 16) == 1
  {
  }

  /** A range that runs over the end of the address space is accepted; when its last address is taken for
      one of an earlier sector than the first, nothing is erased at all. */
  lemma EraseNothing()
    ensures EraseAccepted(0x0802_0000, 0xF800_0000)
    ensures GetSector(0x0802_0000) == 5 && SectorEnd(0x0802_0000, 0xF800_0000) == 1
  {
  }

  // ---- the device ------------------------------------------------------------------------

  /** `a` is one of the `n` addresses from `addr`, counted round the address space. */
  predicate Within(addr: nat, n: nat, a: int) {
    addr <= a < addr + n || addr <= a + WORD32 < addr + n
  }

  lemma WithinMore(addr: nat, n: nat, m: nat)
    requires n <= m
    ensures forall a :: Within(addr, n, a) ==> Within(addr, m, a)
  {
  }

  /** An aligned unit does not run over the end of the address space. */
  lemma UnitFits(at: nat, width: nat)
    requires at < WORD32 && width in {1, 2, 4} && at % width == 0
    ensures at + width <= WORD32
  {
  }

  lemma UnitInside(addr: nat, n: nat, width: nat, a: int)
    requires addr < WORD32 && n + width < WORD32 && 0 <= a < WORD32
    requires U32(addr + n) <= a < U32(addr + n) + width <= WORD32
    ensures Within(addr, n + width, a) && !Within(addr, n, a)
  {
  }

  /** A unit is part of the range that ends with it. */
  lemma UnitWithin(addr: nat, n: nat, width: nat, a: int)
    requires addr < WORD32 && n + width < WORD32 && 0 <= a < WORD32
    requires !Within(addr, n + width, a) && U32(addr + n) + width <= WORD32
    ensures !(U32(addr + n) <= a < U32(addr + n) + width) && !Within(addr, n, a)
  {
  }

  /** A unit does not touch the bytes before it. */
  lemma UnitApart(addr: nat, n: nat, width: nat, i: nat)
    requires addr < WORD32 && n + width < WORD32 && U32(addr + n) + width <= WORD32 && i < n
    ensures !(U32(addr + n) <= U32(addr + i) < U32(addr + n) + width)
  {
  }

  /** The addresses of a unit are consecutive. */
  lemma UnitAt(addr: nat, n: nat, width: nat, j: nat)
    requires addr < WORD32 && n + width < WORD32 && U32(addr + n) + width <= WORD32 && j < width
    ensures U32(addr + (n + j)) == U32(addr + n) + j
  {
  }

  class Device {
    var mem: map<int, Byte>      // the 32-bit address space
    const reliable: bool         // every command on this part succeeds

    constructor (reliable: bool, mem: map<int, Byte>)
      requires forall a :: 0 <= a < WORD32 ==> a in mem
      ensures Valid() && this.mem == mem && this.reliable == reliable
    {
      this.reliable := reliable;
      this.mem := mem;
    }

    ghost predicate Valid()
      reads this
    {
      forall a :: 0 <= a < WORD32 ==> a in mem
    }

    /** HAL_FLASH_Program: may fail, and may leave anything in the word it was asked to program, except
        that a reliable part programs a blank word as asked. The address must be aligned to the width. */
    method Program(at: nat, data: seq<Byte>) returns (ok: bool)
      requires Valid() && |data| in {1, 2, 4} && at % |data| == 0 && at + |data| <= WORD32
      modifies this
      ensures Valid()
      ensures forall a :: 0 <= a < WORD32 && !(at <= a < at + |data|) ==> mem[a] == old(mem[a])
      ensures reliable && (forall a :: at <= a < at + |data| ==> old(mem[a]) == 0xff) ==>
                ok && forall a :: at <= a < at + |data| ==> mem[a] == data[a - at]
    {
      ok := *;
      ok := ok || reliable;
      var i := 0;
      while i < |data|
        invariant 0 <= i <= |data| && Valid()
        invariant forall a :: 0 <= a < WORD32 && !(at <= a < at + i) ==> mem[a] == old(mem[a])
        invariant reliable ==> forall a :: at <= a < at + i && old(mem[a]) == 0xff ==> mem[a] == data[a - at]
      {
        var value: Byte := *;
        if reliable && mem[at + i] == 0xff {
          value := data[i];
        }
        mem := mem[at + i := value];
        i := i + 1;
      }
    }

    /** The comparison with what was to be written. */
    method Matches(at: nat, data: seq<Byte>) returns (same: bool)
      requires Valid() && at + |data| <= WORD32
      ensures same <==> forall i :: 0 <= i < |data| ==> mem[at + i] == data[i]
    {
      var i := 0;
      while i < |data|
        invariant 0 <= i <= |data|
        invariant forall k :: 0 <= k < i ==> mem[at + k] == data[k]
      {
        if mem[at + i] != data[i] {
          return false;
        }
        i := i + 1;
      }
      same := true;
    }

    /** The bytes [0, n) of `buf` stand at `addr`; nothing else differs from `before`. */
    ghost predicate Written(before: map<int, Byte>, addr: nat, buf: seq<Byte>, n: nat)
      requires addr < WORD32 && n <= |buf| < WORD32
      reads this
    {
      && Valid()
      && (forall i :: 0 <= i < n ==> mem[U32(addr + i)] == buf[i])
      && (forall a :: 0 <= a < WORD32 && a in before && !Within(addr, n, a) ==> mem[a] == before[a])
    }

    /** The `n` addresses from `addr` read 0xff in `before`. */
    ghost predicate Blank(before: map<int, Byte>, addr: nat, n: nat) {
      forall a :: 0 <= a < WORD32 && a in before && Within(addr, n, a) ==> before[a] == 0xff
    }

    /** Program one unit and read it back. */
    method WriteUnit(ghost before: map<int, Byte>, addr: nat, buf: seq<Byte>, n: nat, width: nat) returns (ok: bool)
      requires addr < WORD32 && n + width <= |buf| < WORD32 && width in {1, 2, 4}
      requires Written(before, addr, buf, n) && U32(addr + n) % width == 0
      modifies this
      ensures Valid() && forall a :: 0 <= a < WORD32 && a in before && !Within(addr, n + width, a) ==> mem[a] == before[a]
      ensures ok ==> Written(before, addr, buf, n + width)
      ensures reliable && Blank(before, addr, n + width) && (forall a :: 0 <= a < WORD32 ==> a in before) ==> ok
    {
      var at := U32(addr + n);
      UnitFits(at, width);
      if Blank(before, addr, n + width) && (forall a :: 0 <= a < WORD32 ==> a in before) {
        forall a | at <= a < at + width
          ensures mem[a] == 0xff
        {
          UnitInside(addr, n, width, a);
          assert before[a] == 0xff;
        }
      }
      ok := Program(at, buf[n..n + width]);
      forall a | 0 <= a < WORD32 && a in before && !Within(addr, n + width, a)
        ensures mem[a] == before[a]
      {
        UnitWithin(addr, n, width, a);
      }
      if ok {
        ok := Matches(at, buf[n..n + width]);
        if ok {
          forall i | 0 <= i < n + width
            ensures mem[U32(addr + i)] == buf[i]
          {
            if i < n {
              UnitApart(addr, n, width, i);
            } else {
              UnitAt(addr, n, width, i - n);
              assert mem[at + (i - n)] == buf[n..n + width][i - n];
            }
          }
        }
      }
    }

    /** `stm32_flash_write`. When it returns the size, the flash holds the buffer and nothing else has
        changed; when it fails, nothing outside the range has. Blank flash on a reliable part is always
        written. */
    method Write(addr: nat, buf: seq<Byte>) returns (r: Result)
      requires Valid() && addr < WORD32 && |buf| < WORD32
      modifies this
      ensures Valid()
      ensures r == Einval <==> U32(addr + |buf|) > ROM_END || |buf| < 1
      ensures r == Einval ==> mem == old(mem)
      ensures r == Error ==> !(reliable && Blank(old(mem), addr, |buf|))
      ensures r.Size? ==> r.size == |buf| && Written(old(mem), addr, buf, |buf|)
      ensures forall a :: 0 <= a < WORD32 && !Within(addr, |buf|, a) ==> mem[a] == old(mem[a])
    {
      if U32(addr + |buf|) > ROM_END {
        return Einval;
      }
      if |buf| < 1 {
        return Einval;
      }
      var written: nat := 0;
      while written < |buf|
        invariant written <= |buf| && Written(old(mem), addr, buf, written)
      {
        var width: nat;
        if U32(addr + written) % 4 == 0 && |buf| - written >= 4 {
          width := 4;
        } else if U32(addr + written) % 2 == 0 && |buf| - written >= 2 {
          width := 2;
        } else {
          width := 1;
        }
        var ok := WriteUnit(old(mem), addr, buf, written, width);
        if !ok {
          WithinMore(addr, written + width, |buf|);
          assert Blank(old(mem), addr, |buf|) ==> Blank(old(mem), addr, written + width);
          return Error;
        }
        written := written + width;
      }
      r := Size(|buf|);
    }

    /** Sectors from `first` up to `to` read 0xff; every other byte is as in `before`. */
    ghost predicate Blanked(before: map<int, Byte>, first: nat, to: nat)
      requires (forall a :: 0 <= a < WORD32 ==> a in before) && first <= 8 && to <= 8
      reads this
    {
      && Valid()
      && forall a :: 0 <= a < WORD32 ==> mem[a] == if Base(first) <= a < Base(to) then 0xff else before[a]
    }

    /** The loop of HAL_FLASHEx_Erase: it may stop after any sector. Its end is computed in 32 bits, and an
        end before the first sector is success with nothing erased. */
    method EraseSectors(first: nat, count: nat) returns (ok: bool)
      requires Valid() && first <= 7 && count < WORD32 && (first + count) % WORD32 <= 8
      modifies this
      ensures Valid()
      ensures ok ==> Blanked(old(mem), first, (first + count) % WORD32)
      ensures !ok ==> forall a :: 0 <= a < WORD32 ==> mem[a] == old(mem[a]) || mem[a] == 0xff
      ensures reliable ==> ok
    {
      var end := (first + count) % WORD32;
      var index := first;
      ok := true;
      while index < end
        invariant first <= index && (index <= end || index == first) && Valid()
        invariant Blanked(old(mem), first, index) && ok
      {
        var done: bool := *;
        if !done && !reliable {
          return false;
        }
        mem := map a | a in mem :: if Base(index) <= a < Base(index + 1) then 0xff else mem[a];
        index := index + 1;
      }
    }

    /** `stm32_flash_erase`: on success exactly the sectors from that of the first address to that of the
        last are blank. */
    method Erase(addr: nat, size: nat) returns (r: Result)
      requires Valid() && addr < WORD32 && size < WORD32
      modifies this
      ensures Valid()
      ensures r == Einval <==> !EraseAccepted(addr, size)
      ensures r == Einval ==> mem == old(mem)
      ensures r.Size? ==> r.size == size && Blanked(old(mem), GetSector(addr), SectorEnd(addr, size))
      ensures reliable ==> r != Error
      ensures r.Size? && ROM_START <= addr && addr + size < WORD32 ==>
                forall a :: addr <= a < addr + size ==> mem[a] == 0xff
    {
      if U32(addr + size) > ROM_END {
        return Einval;
      }
      if size < 1 {
        return Einval;
      }
      var first := GetSector(addr);
      var count := (GetSector(U32(addr + size - 1)) - first + 1) % WORD32;
      assert (first + count) % WORD32 == SectorEnd(addr, size);
      if ROM_START <= addr && addr + size < WORD32 {
        SectorsReach(addr, size, first, SectorEnd(addr, size));
      }
      var ok := EraseSectors(first, count);
      r := if ok then Size(size) else Error;
    }
  }
}
