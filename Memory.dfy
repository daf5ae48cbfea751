/**
 * The address space of the memory-management unit as a value: how a 16-bit
 * address decodes to one of the buffers, and what reading and writing through
 * that decoding does.  The `Mmu` class of module `MemoryUnit` is proved
 * against these definitions.
 */
module Memory {
  import opened Wrappers
  import opened Bits
  import opened Words
  import opened Faults

  /** Buffer sizes, as the bounds of the ranges they back. */
  const HighRamSize: nat := 0xFFFF - 0xFF80 + 1
  const IoPortsSize: nat := 0xFF4C - 0xFF00
  const WorkRamSize: nat := 0xE000 - 0xC000
  const SwitchableRamSize: nat := 0xC000 - 0xA000
  const VideoRamSize: nat := 0xA000 - 0x8000
  /** The part of the cartridge the address space can reach. */
  const RomWindow: nat := 0x8000

  datatype Region = Cartridge | VideoRam | SwitchableRam | WorkRam | IoPorts | HighRam

  /** The number of cells of a region that addresses can reach. */
  function Reach(r: Region): nat
  {
    match r
    case Cartridge => RomWindow
    case VideoRam => VideoRamSize
    case SwitchableRam => SwitchableRamSize
    case WorkRam => WorkRamSize
    case IoPorts => IoPortsSize
    case HighRam => HighRamSize
  }

  datatype Location = Location(region: Region, offset: nat)

  /** The address decoding shared by reads and writes. */
  function Decode(addr: u16): (r: Result<Location, Fault>)
    ensures r.Ok? ==> r.value.offset < Reach(r.value.region)
    ensures r.Err? ==> r.error == UnmappedAddress(addr)
  {
    if addr < 0x8000 then Ok(Location(Cartridge, addr))
    else if addr < 0xA000 then Ok(Location(VideoRam, addr - 0x8000))
    else if addr < 0xC000 then Ok(Location(SwitchableRam, addr - 0xA000))
    else if addr < 0xE000 then Ok(Location(WorkRam, addr - 0xC000))
    else if addr < 0xFE00 then Ok(Location(WorkRam, addr - 0xE000)) // echo of work RAM
    else if 0xFF00 <= addr < 0xFF4C then Ok(Location(IoPorts, addr - 0xFF00))
    else if addr >= 0xFF80 then Ok(Location(HighRam, addr - 0xFF80))
    else Err(UnmappedAddress(addr))
  }

  /** The contents of the buffers the MMU owns. */
  datatype Buffers = Buffers(
    cartridge: seq<u8>,
    videoRam: seq<u8>,
    switchableRam: seq<u8>,
    workRam: seq<u8>,
    ioPorts: seq<u8>,
    highRam: seq<u8>)
  {
    predicate Valid()
    {
      |cartridge| >= RomWindow &&
      |videoRam| == VideoRamSize &&
      |switchableRam| == SwitchableRamSize &&
      |workRam| == WorkRamSize &&
      |ioPorts| == IoPortsSize &&
      |highRam| == HighRamSize
    }

    function Bank(r: Region): seq<u8>
    {
      match r
      case Cartridge => cartridge
      case VideoRam => videoRam
      case SwitchableRam => switchableRam
      case WorkRam => workRam
      case IoPorts => ioPorts
      case HighRam => highRam
    }

    function WithBank(r: Region, s: seq<u8>): Buffers
    {
      match r
      case Cartridge => this.(cartridge := s)
      case VideoRam => this.(videoRam := s)
      case SwitchableRam => this.(switchableRam := s)
      case WorkRam => this.(workRam := s)
      case IoPorts => this.(ioPorts := s)
      case HighRam => this.(highRam := s)
    }
  }

  /** A memory image: buffers of the sizes the MMU allocates. */
  type Image = b: Buffers | b.Valid()
    witness Buffers(seq(0x8000, _ => 0), seq(0x2000, _ => 0), seq(0x2000, _ => 0),
                    seq(0x2000, _ => 0), seq(0x4C, _ => 0), seq(0x80, _ => 0))

  /** `mmu[addr]`. */
  function Read(m: Image, addr: u16): Result<u8, Fault>
  {
    var loc :- Decode(addr);
    Ok(m.Bank(loc.region)[loc.offset])
  }

  /** `mmu[addr] = v`. */
  function Write(m: Image, addr: u16, v: u8): Result<Image, Fault>
  {
    var loc :- Decode(addr);
    var bank := m.Bank(loc.region);
    Ok(m.WithBank(loc.region, bank[loc.offset := v]))
  }

  /** The value `init_io_ports` leaves in I/O port `0xFF00 + k`, given
      the value `prior` it held before; unlisted ports keep theirs. */
  function IoPowerOn(k: int, prior: u8): u8
  {
    match k
    case 0x00 => 0xCF
    case 0x01 => 0x00
    case 0x02 => 0x7E
    case 0x04 => 0x18
    case 0x05 => 0x00
    case 0x06 => 0x00
    case 0x07 => 0xF8
    case 0x10 => 0x80
    case 0x11 => 0xBF
    case 0x12 => 0xF3
    case 0x14 => 0xBF
    case 0x16 => 0x3F
    case 0x17 => 0x00
    case 0x19 => 0xBF
    case 0x1A => 0x7F
    case 0x1B => 0xFF
    case 0x1C => 0x9F
    case 0x1E => 0xBF
    case 0x20 => 0xFF
    case 0x21 => 0x00
    case 0x22 => 0x00
    case 0x23 => 0xBF
    case 0x24 => 0x77
    case 0x25 => 0xF3
    case 0x26 => 0xF1
    case 0x40 => 0x91
    case 0x42 => 0x00
    case 0x43 => 0x00
    case 0x45 => 0x00
    case 0x47 => 0xFC
    case 0x48 => 0xFF
    case 0x49 => 0xFF
    case 0x4A => 0x00
    case 0x4B => 0x00
    case _ => prior
  }

  /** The image right after `Mmu::new`: zeroed RAM, the I/O power-on table,
      and the cartridge content. */
  function PowerOn(content: seq<u8>): (m: Image)
    requires |content| >= RomWindow
    ensures m.cartridge == content
  {
    Buffers(content,
            seq(VideoRamSize, _ => 0),
            seq(SwitchableRamSize, _ => 0),
            seq(WorkRamSize, _ => 0),
            seq(IoPortsSize, k => IoPowerOn(k, 0)),
            seq(HighRamSize, _ => 0))
  }

  // ---------------------------------------------------------------------
  // Properties of the decoding

  /** Exactly two ranges are unmapped. */
  lemma {:induction false} UnmappedRanges(addr: u16)
    ensures Decode(addr).Err? <==> (0xFE00 <= addr <= 0xFEFF || 0xFF4C <= addr <= 0xFF7F)
  {
  }

  /** Work RAM and its echo decode to the same cell. */
  lemma {:induction false} EchoAliasesWorkRam(k: nat)
    requires k < 0x1E00
    ensures Decode(0xC000 + k) == Decode(0xE000 + k) == Ok(Location(WorkRam, k))
  {
  }

  /** Two mapped addresses share a cell exactly when they are equal or one
      is the echo of the other. */
  lemma {:induction false} SameCellIff(a1: u16, a2: u16)
    requires Decode(a1).Ok? && Decode(a2).Ok?
    ensures Decode(a1) == Decode(a2) <==>
      (a1 == a2 || (0xC000 <= a1 < 0xDE00 && a2 == a1 + 0x2000)
                || (0xC000 <= a2 < 0xDE00 && a1 == a2 + 0x2000))
  {
  }

  // ---------------------------------------------------------------------
  // Properties of reading and writing

  /** Reads and writes fail on the same addresses, and only on unmapped ones. */
  lemma {:induction false} AccessFaults(m: Image, addr: u16, v: u8)
    ensures Read(m, addr).Err? <==> Decode(addr).Err?
    ensures Write(m, addr, v).Err? <==> Decode(addr).Err?
    ensures Read(m, addr).Err? ==> Read(m, addr).error == UnmappedAddress(addr)
    ensures Write(m, addr, v).Err? ==> Write(m, addr, v).error == UnmappedAddress(addr)
  {
  }

  /** A read after a write to the same address returns the byte written. */
  lemma {:induction false} ReadAfterWrite(m: Image, addr: u16, v: u8)
    requires Write(m, addr, v).Ok?
    ensures Read(Write(m, addr, v).value, addr) == Ok(v)
  {
  }

  /** A write leaves every cell but its own unchanged. */
  lemma {:induction false} WriteFrame(m: Image, addr: u16, v: u8, other: u16)
    requires Write(m, addr, v).Ok?
    requires Decode(other) != Decode(addr)
    ensures Read(Write(m, addr, v).value, other) == Read(m, other)
  {
  }

  /** A write to a mapped address is seen at the address and at its echo. */
  lemma {:induction false} EchoWrite(m: Image, k: nat, v: u8)
    requires k < 0x1E00
    ensures Write(m, 0xC000 + k, v).Ok? && Write(m, 0xE000 + k, v).Ok?
    ensures Read(Write(m, 0xC000 + k, v).value, 0xE000 + k) == Ok(v)
    ensures Read(Write(m, 0xE000 + k, v).value, 0xC000 + k) == Ok(v)
  {
    EchoAliasesWorkRam(k);
  }

  /** Writing the byte already stored changes nothing. */
  lemma {:induction false} WriteSameByte(m: Image, addr: u16)
    requires Read(m, addr).Ok?
    ensures Write(m, addr, Read(m, addr).value) == Ok(m)
  {
    var loc := Decode(addr).value;
    var bank := m.Bank(loc.region);
    assert bank[loc.offset := bank[loc.offset]] == bank;
  }

  /** Right after power-on the I/O ports hold their table values and all RAM
      reads as zero; the ROM window reads as the cartridge content. */
  lemma {:induction false} PowerOnContents(content: seq<u8>, addr: u16)
    requires |content| >= RomWindow
    ensures addr < 0x8000 ==> Read(PowerOn(content), addr) == Ok(content[addr])
    ensures 0xFF00 <= addr < 0xFF4C ==> Read(PowerOn(content), addr) == Ok(IoPowerOn(addr - 0xFF00, 0))
    ensures 0x8000 <= addr < 0xFE00 || addr >= 0xFF80 ==> Read(PowerOn(content), addr) == Ok(0)
  {
  }
}
