/** The sector device as it runs: port registers in fields, 128-byte copy loops over arrays. */
module Z80DiskMachine {
  import opened Bytes
  import opened Z80Disk

  class Z80DiskDevice {
    const Memory: array<byte>
    var Image: array<byte>
    var WriteProtect: bool
    var LbaReg: Lba
    var BufPtr: word
    var ErrorSticky: bool

    ghost predicate Valid()
      reads this
    {
      Memory.Length == 0x10000 && Image != Memory
    }

    ghost function Snap(): State
      requires Valid()
      reads this, Image, Memory
    {
      State(Disk(Image[..], WriteProtect, LbaReg, BufPtr, ErrorSticky), Memory[..])
    }

    constructor (memory: array<byte>)
      requires memory.Length == 0x10000
      ensures Valid() && Memory == memory && fresh(Image)
      ensures Snap() == State(Disk([], false, 0, 0, false), memory[..])
    {
      Memory := memory;
      Image := new byte[0];
      WriteProtect, LbaReg, BufPtr, ErrorSticky := false, 0, 0, false;
    }

    /** Mount an image; the device takes the array over. */
    method SetImage(bytes: array<byte>, writeProtect: bool)
      requires Valid() && bytes != Memory
      modifies this
      ensures Valid() && Snap() == Step(old(Snap()), Mount(bytes[..], writeProtect)) && Image == bytes
    {
      Image, WriteProtect := bytes, writeProtect;
      LbaReg, BufPtr, ErrorSticky := 0, 0, false;
    }

    method Reset()
      requires Valid()
      modifies this
      ensures Valid() && Snap() == Step(old(Snap()), ResetDevice) && Image == old(Image)
    {
      LbaReg, BufPtr, ErrorSticky := 0, 0, false;
    }

    method ReadPort(port: byte) returns (v: byte)
      requires Valid()
      ensures v == ReadIo(Snap().disk, port)
    {
      match port
      case 0xF0 => v := LbaReg % 0x100;
      case 0xF1 => v := LbaReg / 0x100 % 0x100;
      case 0xF2 => v := LbaReg / 0x10000;
      case 0xF3 => v := BufPtr % 0x100;
      case 0xF4 => v := BufPtr / 0x100;
      case 0xF6 =>
        v := 1;
        if Image.Length > 0 { v := v + 8; }
        if WriteProtect { v := v + 4; }
        if ErrorSticky { v := v + 2; }
      case 0xF7 => v := 0;
      case _ => v := 0xFF;
    }

    /** The READ loop. */
    method CopyToRam(off: nat)
      requires Valid() && off + SECTOR <= Image.Length
      modifies Memory
      ensures Valid() && Memory[..] == Blit(old(Memory[..]), BufPtr, Image[off..off + SECTOR])
    {
      hide Blit;
      BlitNone(Memory[..], BufPtr);
      assert Image[off..off + 0] == [];
      for i := 0 to SECTOR
        invariant Memory[..] == Blit(old(Memory[..]), BufPtr, Image[off..off + i])
      {
        ghost var was := Memory[..];
        var addr := W(BufPtr + i);
        Memory[addr] := Image[off + i];
        assert Memory[..] == was[addr := Image[off + i]];
        BlitMore(old(Memory[..]), BufPtr, Image[off..off + i], Image[off + i]);
        assert Image[off..off + i] + [Image[off + i]] == Image[off..off + i + 1];
      }
    }

    /** The WRITE loop. */
    method CopyToImage(off: nat)
      requires Valid() && off + SECTOR <= Image.Length
      modifies Image
      ensures Valid()
      ensures Image[..] == old(Image[..])[..off] + Window(Memory[..], BufPtr, SECTOR) + old(Image[..])[off + SECTOR..]
    {
      hide Window, W;
      ghost var was := Image[..];
      WindowGrows(Memory[..], BufPtr, 0);
      assert was == was[..off] + [] + was[off + 0..];
      for i := 0 to SECTOR
        invariant |Window(Memory[..], BufPtr, i)| == i
        invariant Image[..] == was[..off] + Window(Memory[..], BufPtr, i) + was[off + i..]
      {
        ghost var before := Image[..];
        Image[off + i] := Memory[W(BufPtr + i)];
        assert Image[..] == before[off + i := Memory[W(BufPtr + i)]];
        WindowGrows(Memory[..], BufPtr, i);
        PatchNext(was[..off], Window(Memory[..], BufPtr, i), was[off + i..], Memory[W(BufPtr + i)]);
      }
    }

    method ExecuteCommand(cmd: byte)
      requires Valid()
      modifies this, Image, Memory
      ensures Valid() && Snap() == Command(old(Snap()), cmd) && Image == old(Image)
    {
      hide Blit, Window;
      OffsetExact(Snap().disk);
      var off := LbaReg * SECTOR % 0x1_0000_0000;
      if cmd == 0 {
        ErrorSticky := false;
      } else if cmd == 1 {
        if Image.Length == 0 { ErrorSticky := true; return; }
        if (off + SECTOR) % 0x1_0000_0000 > Image.Length { ErrorSticky := true; return; }
        CopyToRam(off);
      } else if cmd == 2 {
        if Image.Length == 0 { ErrorSticky := true; return; }
        if WriteProtect { ErrorSticky := true; return; }
        if (off + SECTOR) % 0x1_0000_0000 > Image.Length { ErrorSticky := true; return; }
        CopyToImage(off);
      } else {
        ErrorSticky := true;
      }
    }

    method WritePort(port: byte, val: byte)
      requires Valid()
      modifies this, Image, Memory
      ensures Valid() && Snap() == Step(old(Snap()), PortWrite(port, val)) && Image == old(Image)
    {
      hide Command;
      match port
      case 0xF0 => LbaReg := LbaReg / 0x100 * 0x100 + val;
      case 0xF1 => LbaReg := LbaReg / 0x10000 * 0x10000 + val * 0x100 + LbaReg % 0x100;
      case 0xF2 => LbaReg := val * 0x10000 + LbaReg % 0x10000;
      case 0xF3 => BufPtr := BufPtr / 0x100 * 0x100 + val;
      case 0xF4 => BufPtr := val * 0x100 + BufPtr % 0x100;
      case 0xF5 => ExecuteCommand(val);
      case _ =>
    }
  }

  lemma BlitNone(ram: Ram, p: word)
    ensures Blit(ram, p, []) == ram
  {
  }

  lemma BlitMore(ram: Ram, p: word, bs: seq<byte>, b: byte)
    requires |bs| < 0x10000
    ensures Blit(ram, p, bs + [b]) == Blit(ram, p, bs)[W(p + |bs|) := b]
  {
    hide W;
    forall a | 0 <= a < 0x10000
      ensures BlitAt(ram, p, bs + [b], a) == if a == W(p + |bs|) then b else BlitAt(ram, p, bs, a)
    {
      WrapMeets(p, a, |bs|);
    }
  }

  lemma WrapMeets(p: word, a: word, i: int)
    requires 0 <= i < 0x10000
    ensures W(a - p) == i <==> a == W(p + i)
  {
  }

  lemma WindowGrows(ram: Ram, p: word, i: nat)
    ensures Window(ram, p, 0) == [] && |Window(ram, p, i)| == i
    ensures Window(ram, p, i + 1) == Window(ram, p, i) + [ram[W(p + i)]]
  {
    hide W;
  }

  lemma PatchNext(a: seq<byte>, w: seq<byte>, c: seq<byte>, b: byte)
    requires c != []
    ensures (a + w + c)[|a| + |w| := b] == a + (w + [b]) + c[1..]
  {
  }
}
