/**
 * The memory-management unit: five fixed-size RAM buffers and the cartridge
 * content, updated in place through the address decoding of module `Memory`.
 */
module MemoryUnit {
  import opened Wrappers
  import opened Bits
  import opened Words
  import opened Faults
  import opened Memory

  class Mmu {
    const internalRam: array<u8>     // 0xFF80..0xFFFF
    const ioPorts: array<u8>         // 0xFF00..0xFF4B
    const internal8kbRam: array<u8>  // 0xC000..0xDFFF, echoed at 0xE000..0xFDFF
    const switchableRam: array<u8>   // 0xA000..0xBFFF
    const videoRam: array<u8>        // 0x8000..0x9FFF
    const cartridge: array<u8>       // 0x0000..0x7FFF
    ghost const Repr: set<array<u8>>
    /** The memory as the machine sees it. */
    ghost var image: Image

    ghost predicate Valid()
      reads this, Repr
    {
      Wellformed() && image == Contents()
    }

    /** The buffers have the sizes of their address ranges and are distinct. */
    ghost predicate Wellformed()
      reads Repr
    {
      Repr == {internalRam, ioPorts, internal8kbRam, switchableRam, videoRam, cartridge} &&
      internalRam.Length == HighRamSize &&
      ioPorts.Length == IoPortsSize &&
      internal8kbRam.Length == WorkRamSize &&
      switchableRam.Length == SwitchableRamSize &&
      videoRam.Length == VideoRamSize &&
      cartridge.Length >= RomWindow &&
      internal8kbRam != switchableRam && internal8kbRam != videoRam && switchableRam != videoRam
    }

    /** The contents of all buffers. */
    ghost function Contents(): Image
      reads Repr
      requires Wellformed()
    {
      Buffers(cartridge[..], videoRam[..], switchableRam[..], internal8kbRam[..],
              ioPorts[..], internalRam[..])
    }

    /** `Mmu::new(cart)`: zeroed buffers, then the I/O power-on values. */
    constructor (content: seq<u8>)
      requires |content| >= RomWindow
      ensures Valid() && fresh(Repr)
      ensures image == PowerOn(content)
    {
      internalRam := new u8[HighRamSize](_ => 0);
      ioPorts := new u8[IoPortsSize](_ => 0);
      internal8kbRam := new u8[WorkRamSize](_ => 0);
      switchableRam := new u8[SwitchableRamSize](_ => 0);
      videoRam := new u8[VideoRamSize](_ => 0);
      cartridge := new u8[|content|](i requires 0 <= i < |content| => content[i]);
      Repr := {internalRam, ioPorts, internal8kbRam, switchableRam, videoRam, cartridge};
      image := PowerOn(content);
      new;
      InitIoPorts();
      assert ioPorts[..] == PowerOn(content).ioPorts;
      assert cartridge[..] == content;
    }

    /** `init_io_ports`. */
    method InitIoPorts()
      requires Wellformed()
      modifies ioPorts
      ensures Wellformed()
      ensures forall k :: 0 <= k < IoPortsSize ==>
        ioPorts[k] == IoPowerOn(k, old(ioPorts[k]))
    {
      // The 34 writes of the source, one per port listed in IoPowerOn.
      forall k | 0 <= k < IoPortsSize {
        ioPorts[k] := IoPowerOn(k, ioPorts[k]);
      }
    }

    /** `mmu[addr]` (the `Index` implementation). */
    method Get(addr: u16) returns (r: Result<u8, Fault>)
      requires Valid()
      ensures r == Read(image, addr)
    {
      if addr < 0x8000 {
        return Ok(cartridge[addr]);
      } else if addr < 0xA000 {
        return Ok(videoRam[addr - 0x8000]);
      } else if addr < 0xC000 {
        return Ok(switchableRam[addr - 0xA000]);
      } else if addr < 0xE000 {
        return Ok(internal8kbRam[addr - 0xC000]);
      } else if addr < 0xFE00 {
        return Ok(internal8kbRam[addr - 0xE000]);
      }
      if addr >= 0xFF00 && addr < 0xFF4C {
        return Ok(ioPorts[addr - 0xFF00]);
      }
      if addr >= 0xFF80 {
        return Ok(internalRam[addr - 0xFF80]);
      }
      return Err(UnmappedAddress(addr));
    }

    /** `mmu[addr] = v` (the `IndexMut` implementation). */
    method Set(addr: u16, v: u8) returns (r: Result<(), Fault>)
      requires Valid()
      modifies this, Repr
      ensures Valid()
      ensures r.Ok? <==> Write(old(image), addr, v).Ok?
      ensures r.Ok? ==> image == Write(old(image), addr, v).value
      ensures r.Err? ==> image == old(image) && r.error == UnmappedAddress(addr)
    {
      r := Store(addr, v);
      image := Contents();
    }

    /** The byte written into the buffer its address decodes to. */
    method Store(addr: u16, v: u8) returns (r: Result<(), Fault>)
      requires Wellformed()
      modifies Repr
      ensures Wellformed()
      ensures r.Ok? <==> Write(old(Contents()), addr, v).Ok?
      ensures r.Ok? ==> Contents() == Write(old(Contents()), addr, v).value
      ensures r.Err? ==> Contents() == old(Contents()) && r.error == UnmappedAddress(addr)
    {
      if addr < 0x8000 {
        cartridge[addr] := v;
        assert cartridge[..] == old(cartridge[..])[addr := v];
        return Ok(());
      } else if addr < 0xA000 {
        videoRam[addr - 0x8000] := v;
        assert videoRam[..] == old(videoRam[..])[addr - 0x8000 := v];
        return Ok(());
      } else if addr < 0xC000 {
        switchableRam[addr - 0xA000] := v;
        assert switchableRam[..] == old(switchableRam[..])[addr - 0xA000 := v];
        return Ok(());
      } else if addr < 0xE000 {
        internal8kbRam[addr - 0xC000] := v;
        assert internal8kbRam[..] == old(internal8kbRam[..])[addr - 0xC000 := v];
        return Ok(());
      } else if addr < 0xFE00 {
        internal8kbRam[addr - 0xE000] := v;
        assert internal8kbRam[..] == old(internal8kbRam[..])[addr - 0xE000 := v];
        return Ok(());
      }
      if addr >= 0xFF00 && addr < 0xFF4C {
        ioPorts[addr - 0xFF00] := v;
        assert ioPorts[..] == old(ioPorts[..])[addr - 0xFF00 := v];
        return Ok(());
      }
      if addr >= 0xFF80 {
        internalRam[addr - 0xFF80] := v;
        assert internalRam[..] == old(internalRam[..])[addr - 0xFF80 := v];
        return Ok(());
      }
      return Err(UnmappedAddress(addr));
    }
  }
}
