/** The spreadsheet archive: a template is generated once (frontend/src/odf.go) and
    every export patches it and splices the content in (frontend/src/odf.ts). The
    reader follows sections 4.3.7, 4.3.12 and 4.3.16 of PKWARE's APPNOTE.TXT. */
module Archives {
  import opened Machines
  import Checksums

  type Bytes = seq<int>

  const U16: nat := 0x1_0000
  const U32: nat := 0x1_0000_0000

  // ---- Little-endian numbers ----

  function LE16(v: nat): Bytes {
    [v % 256, v / 256 % 256]
  }

  function LE32(v: nat): Bytes {
    [v % 256, v / 256 % 256, v / 65536 % 256, v / 16777216 % 256]
  }

  function Get16(b: Bytes, i: nat): int
    requires i + 2 <= |b|
  {
    b[i] + 256 * b[i + 1]
  }

  function Get32(b: Bytes, i: nat): int
    requires i + 4 <= |b|
  {
    b[i] + 256 * b[i + 1] + 65536 * b[i + 2] + 16777216 * b[i + 3]
  }

  lemma Put16(v: nat)
    requires v < U16
    ensures v % 256 + 256 * (v / 256 % 256) == v
  {
  }

  lemma Put32(v: nat)
    requires v < U32
    ensures v % 256 + 256 * (v / 256 % 256) + 65536 * (v / 65536 % 256) + 16777216 * (v / 16777216 % 256) == v
  {
    assert v / 65536 == v / 256 / 256;
    assert v / 16777216 == v / 65536 / 256;
  }

  // ---- Checksums ----

  function Low(v: int): bv32 {
    if 0 <= v < 256 then (v as bv8) as bv32 else 0
  }

  function Octets(c: Bytes): seq<Checksums.Byte> {
    seq(|c|, i requires 0 <= i < |c| => Checksums.Byte(Low(c[i])))
  }

  /** The CRC-32 of some contents, as a number. */
  function Sum(c: Bytes): nat {
    Checksums.Crc32(Octets(c)) as nat
  }

  lemma OctetsAreBytes(c: Bytes)
    ensures Checksums.AreBytes(Octets(c))
  {
    forall v: int ensures Low(v) & 0xff == Low(v) {
      if 0 <= v < 256 { ByteFits(v as bv8); }
    }
  }

  lemma ByteFits(x: bv8)
    ensures (x as bv32) & 0xff == x as bv32
  {
  }

  lemma SumOfNothing()
    ensures Sum([]) == 0
  {
    assert Octets([]) == [];
  }

  // ---- What is written ----

  /** A file of an archive: its name, how it is packed, the checksum and size of its
      contents, and the packed bytes. */
  datatype File = File(name: Bytes, packing: nat, crc: nat, size: nat, data: Bytes)

  predicate Fits(f: File) {
    |f.name| < U16 && f.packing < U16 && f.crc < U32 && f.size < U32 && |f.data| < U32
  }

  /** The checksum and the two sizes, as both headers hold them. */
  function Meta(crc: nat, packed: nat, size: nat): Bytes {
    LE32(crc) + LE32(packed) + LE32(size)
  }

  const LOCAL_SIG: nat := 0x04034B50
  const CENTRAL_SIG: nat := 0x02014B50
  const END_SIG: nat := 0x06054B50

  function LocalStart(packing: nat): Bytes {
    LE32(LOCAL_SIG) + LE16(10) + LE16(0) + LE16(packing) + LE32(0)
  }

  function LocalHead(packing: nat, meta: Bytes, name: Bytes): Bytes {
    LocalStart(packing) + meta + LE16(|name|) + LE16(0) + name
  }

  function Local(f: File): Bytes {
    LocalHead(f.packing, Meta(f.crc, |f.data|, f.size), f.name) + f.data
  }

  function CentralStart(packing: nat): Bytes {
    LE32(CENTRAL_SIG) + LE16(10) + LE16(10) + LE16(0) + LE16(packing) + LE32(0)
  }

  function Zeros(): Bytes {
    LE16(0) + LE16(0) + LE16(0) + LE16(0) + LE32(0)
  }

  function CentralHead(packing: nat, meta: Bytes, name: Bytes, offset: nat): Bytes {
    CentralStart(packing) + meta + LE16(|name|) + Zeros() + LE32(offset) + name
  }

  function Central(f: File, offset: nat): Bytes {
    CentralHead(f.packing, Meta(f.crc, |f.data|, f.size), f.name, offset)
  }

  function Flat(parts: seq<Bytes>): Bytes {
    if parts == [] then [] else Flat(parts[..|parts| - 1]) + parts[|parts| - 1]
  }

  function LocalParts(files: seq<File>): seq<Bytes> {
    seq(|files|, i requires 0 <= i < |files| => Local(files[i]))
  }

  /** Where the file `k` begins. */
  function Offset(files: seq<File>, k: nat): nat
    requires k <= |files|
  {
    |Flat(LocalParts(files)[..k])|
  }

  function CentralParts(files: seq<File>): seq<Bytes> {
    seq(|files|, i requires 0 <= i < |files| => Central(files[i], Offset(files, i)))
  }

  function Locals(files: seq<File>): Bytes {
    Flat(LocalParts(files))
  }

  function Centrals(files: seq<File>): Bytes {
    Flat(CentralParts(files))
  }

  function EndStart(count: nat, length: nat): Bytes {
    LE32(END_SIG) + LE16(0) + LE16(0) + LE16(count) + LE16(count) + LE32(length)
  }

  function End(count: nat, length: nat, start: nat): Bytes {
    EndStart(count, length) + LE32(start) + LE16(0)
  }

  function Archive(files: seq<File>): Bytes {
    Locals(files) + Centrals(files) + End(|files|, |Centrals(files)|, |Locals(files)|)
  }

  const SMALL_FILE: File := File([0x61], 8, 0x44332211, 3, [0x41])

  lemma SmallNumbers()
    ensures LE16(0) == [0, 0] && LE16(1) == [1, 0] && LE16(8) == [8, 0] && LE16(10) == [10, 0]
    ensures LE32(0) == [0, 0, 0, 0] && LE32(1) == [1, 0, 0, 0] && LE32(3) == [3, 0, 0, 0] &&
            LE32(0x44332211) == [0x11, 0x22, 0x33, 0x44]
    ensures LE32(LOCAL_SIG) == [0x50, 0x4B, 3, 4] && LE32(CENTRAL_SIG) == [0x50, 0x4B, 1, 2]
    ensures LE32(END_SIG) == [0x50, 0x4B, 5, 6] && LE32(47) == [47, 0, 0, 0] && LE32(32) == [32, 0, 0, 0]
  {
  }

  lemma SmallLocal()
    ensures Local(SMALL_FILE) ==
            [0x50, 0x4B, 3, 4, 10, 0, 0, 0, 8, 0, 0, 0, 0, 0, 0x11, 0x22, 0x33, 0x44, 1, 0, 0, 0, 3, 0, 0, 0,
             1, 0, 0, 0, 0x61, 0x41]
  {
    SmallNumbers();
    hide LE16, LE32;
  }

  lemma SmallCentral()
    ensures Central(SMALL_FILE, 0) ==
            [0x50, 0x4B, 1, 2, 10, 0, 10, 0, 0, 0, 8, 0, 0, 0, 0, 0, 0x11, 0x22, 0x33, 0x44, 1, 0, 0, 0, 3, 0, 0, 0,
             1, 0, 0, 0, 0, 0, 0, 0, 0, 0, 0, 0, 0, 0, 0, 0, 0, 0, 0x61]
  {
    SmallNumbers();
    hide LE16, LE32;
    assert CentralStart(8) == [0x50, 0x4B, 1, 2, 10, 0, 10, 0, 0, 0, 8, 0, 0, 0, 0, 0];
    assert Meta(0x44332211, 1, 3) == [0x11, 0x22, 0x33, 0x44, 1, 0, 0, 0, 3, 0, 0, 0];
    assert Zeros() == [0, 0, 0, 0, 0, 0, 0, 0, 0, 0, 0, 0];
  }

  /** An archive with a single compressed file of three bytes, byte by byte: its header and
      what it is packed to, its entry in the directory, and the end, with every number's
      lowest byte first. */
  lemma SmallArchive()
    ensures Archive([SMALL_FILE]) ==
            [0x50, 0x4B, 3, 4, 10, 0, 0, 0, 8, 0, 0, 0, 0, 0, 0x11, 0x22, 0x33, 0x44, 1, 0, 0, 0, 3, 0, 0, 0,
             1, 0, 0, 0, 0x61, 0x41]
            + [0x50, 0x4B, 1, 2, 10, 0, 10, 0, 0, 0, 8, 0, 0, 0, 0, 0, 0x11, 0x22, 0x33, 0x44, 1, 0, 0, 0, 3, 0, 0, 0,
               1, 0, 0, 0, 0, 0, 0, 0, 0, 0, 0, 0, 0, 0, 0, 0, 0, 0, 0x61]
            + [0x50, 0x4B, 5, 6, 0, 0, 0, 0, 1, 0, 1, 0, 47, 0, 0, 0, 32, 0, 0, 0, 0, 0]
  {
    SmallLocal();
    SmallCentral();
    var fs := [SMALL_FILE];
    hide Local, Central, LE16, LE32;
    assert LocalParts(fs)[..0] == [] && LocalParts(fs) == [Local(SMALL_FILE)];
    assert Offset(fs, 0) == 0;
    assert CentralParts(fs) == [Central(SMALL_FILE, 0)] && CentralParts(fs)[..0] == [];
    assert Locals(fs) == Local(SMALL_FILE) && Centrals(fs) == Central(SMALL_FILE, 0);
    SmallEnd();
  }

  lemma SmallEnd()
    ensures End(1, 47, 32) == [0x50, 0x4B, 5, 6, 0, 0, 0, 0, 1, 0, 1, 0, 47, 0, 0, 0, 32, 0, 0, 0, 0, 0]
  {
    SmallNumbers();
    hide LE16, LE32;
  }

  // ---- Reading it back ----

  function ReadLocal(b: Bytes, at: nat): Option<File> {
    if at + 30 > |b| || Get32(b, at) != LOCAL_SIG then None
    else
      var packing, crc, packed, size := Get16(b, at + 8), Get32(b, at + 14), Get32(b, at + 18), Get32(b, at + 22);
      var name, extra := Get16(b, at + 26), Get16(b, at + 28);
      if packing < 0 || crc < 0 || packed < 0 || size < 0 || name < 0 || extra < 0 then None
      else
        var data := at + 30 + name + extra;
        if data + packed > |b| then None
        else Some(File(b[at + 30..at + 30 + name], packing, crc, size, b[data..data + packed]))
  }

  /** One entry of the central directory, checked against the file that it points
      to, and where the next entry begins. */
  function ReadEntry(b: Bytes, at: nat): Option<(File, nat)> {
    if at + 46 > |b| || Get32(b, at) != CENTRAL_SIG then None
    else
      var name, extra, comment := Get16(b, at + 28), Get16(b, at + 30), Get16(b, at + 32);
      var offset := Get32(b, at + 42);
      if name < 0 || extra < 0 || comment < 0 || offset < 0 || at + 46 + name > |b| then None
      else
        match ReadLocal(b, offset)
        case None => None
        case Some(f) =>
          if && f.name == b[at + 46..at + 46 + name] && f.packing == Get16(b, at + 10) && f.crc == Get32(b, at + 16)
             && |f.data| == Get32(b, at + 20) && f.size == Get32(b, at + 24)
          then Some((f, at + 46 + name + extra + comment))
          else None
  }

  function ReadEntries(b: Bytes, at: nat, count: nat): Option<seq<File>>
    decreases count
  {
    if count == 0 then Some([])
    else
      match ReadEntry(b, at)
      case None => None
      case Some(e) =>
        match ReadEntries(b, e.1, count - 1)
        case None => None
        case Some(rest) => Some([e.0] + rest)
  }

  function ReadArchive(b: Bytes): Option<seq<File>> {
    var e := |b| - 22;
    if e < 0 || Get32(b, e) != END_SIG then None
    else
      var count, start := Get16(b, e + 10), Get32(b, e + 16);
      if count < 0 || start < 0 then None else ReadEntries(b, start, count)
  }

  // ---- The headers ----

  lemma StartNumbers(packing: nat)
    requires packing < U16
    ensures var s := LocalStart(packing); |s| == 14 && Get32(s, 0) == LOCAL_SIG && Get16(s, 8) == packing
    ensures var s := CentralStart(packing); |s| == 16 && Get32(s, 0) == CENTRAL_SIG && Get16(s, 10) == packing
  {
    Put16(packing);
  }

  lemma MetaNumbers(crc: nat, packed: nat, size: nat)
    requires crc < U32 && packed < U32 && size < U32
    ensures var m := Meta(crc, packed, size);
            |m| == 12 && Get32(m, 0) == crc && Get32(m, 4) == packed && Get32(m, 8) == size
  {
    Put32(crc);
    Put32(packed);
    Put32(size);
  }

  lemma NameNumbers(n: nat)
    requires n < U16
    ensures var t := LE16(n) + LE16(0); |t| == 4 && Get16(t, 0) == n && Get16(t, 2) == 0
  {
    Put16(n);
  }

  /** A number in a part stands in the whole, counted from where the part begins. */
  lemma InPart16(h: Bytes, a: Bytes, x: Bytes, c: Bytes, i: nat)
    requires h == a + x + c && i + 2 <= |x|
    ensures |h| >= |a| + |x| && Get16(h, |a| + i) == Get16(x, i)
  {
    assert h[|a| + i] == x[i] && h[|a| + i + 1] == x[i + 1];
  }

  lemma InPart32(h: Bytes, a: Bytes, x: Bytes, c: Bytes, i: nat)
    requires h == a + x + c && i + 4 <= |x|
    ensures |h| >= |a| + |x| && Get32(h, |a| + i) == Get32(x, i)
  {
    assert h[|a| + i] == x[i] && h[|a| + i + 1] == x[i + 1] && h[|a| + i + 2] == x[i + 2] &&
           h[|a| + i + 3] == x[i + 3];
  }

  lemma LocalNumbers(f: File)
    requires Fits(f)
    ensures var h := Local(f);
            && |h| == 30 + |f.name| + |f.data| && Get32(h, 0) == LOCAL_SIG && Get16(h, 8) == f.packing
            && Get32(h, 14) == f.crc && Get32(h, 18) == |f.data| && Get32(h, 22) == f.size
            && Get16(h, 26) == |f.name| && Get16(h, 28) == 0
  {
    var h, s, m, t := Local(f), LocalStart(f.packing), Meta(f.crc, |f.data|, f.size), LE16(|f.name|) + LE16(0);
    StartNumbers(f.packing);
    MetaNumbers(f.crc, |f.data|, f.size);
    NameNumbers(|f.name|);
    LocalSplits(f);
    hide *;
    InPart32(h, [], s, m + t + f.name + f.data, 0);
    InPart16(h, [], s, m + t + f.name + f.data, 8);
    InPart32(h, s, m, t + f.name + f.data, 0);
    InPart32(h, s, m, t + f.name + f.data, 4);
    InPart32(h, s, m, t + f.name + f.data, 8);
    InPart16(h, s + m, t, f.name + f.data, 0);
    InPart16(h, s + m, t, f.name + f.data, 2);
  }

  lemma LocalSplits(f: File)
    ensures var h, s, m, t := Local(f), LocalStart(f.packing), Meta(f.crc, |f.data|, f.size), LE16(|f.name|) + LE16(0);
            && h == [] + s + (m + t + f.name + f.data) && h == s + m + (t + f.name + f.data)
            && h == s + m + t + (f.name + f.data)
  {
    hide LocalStart, Meta, LE16;
  }

  /** The fields of the local header. */
  lemma LocalFields(f: File, a: Bytes, c: Bytes)
    requires Fits(f)
    ensures var b := a + Local(f) + c; var at := |a|;
            && |Local(f)| == 30 + |f.name| + |f.data| && Get32(b, at) == LOCAL_SIG && Get16(b, at + 8) == f.packing
            && Get32(b, at + 14) == f.crc && Get32(b, at + 18) == |f.data| && Get32(b, at + 22) == f.size
            && Get16(b, at + 26) == |f.name| && Get16(b, at + 28) == 0
  {
    var b, h := a + Local(f) + c, Local(f);
    LocalNumbers(f);
    hide *;
    InPart32(b, a, h, c, 0);
    InPart16(b, a, h, c, 8);
    InPart32(b, a, h, c, 14);
    InPart32(b, a, h, c, 18);
    InPart32(b, a, h, c, 22);
    InPart16(b, a, h, c, 26);
    InPart16(b, a, h, c, 28);
  }

  /** The name and the data after the local header. */
  lemma LocalContent(f: File, a: Bytes, c: Bytes)
    requires |Local(f)| == 30 + |f.name| + |f.data|
    ensures var b := a + Local(f) + c; var at, n := |a| + 30, |f.name|;
            b[at..at + n] == f.name && b[at + n..at + n + |f.data|] == f.data
  {
    var b, at, n := a + Local(f) + c, |a| + 30, |f.name|;
    forall i | 0 <= i < n ensures b[at + i] == f.name[i] {
      assert b[at + i] == Local(f)[30 + i];
    }
    forall i | 0 <= i < |f.data| ensures b[at + n + i] == f.data[i] {
      assert b[at + n + i] == Local(f)[30 + n + i];
    }
  }

  lemma LocalIsRead(f: File, a: Bytes, c: Bytes)
    requires Fits(f)
    ensures ReadLocal(a + Local(f) + c, |a|) == Some(f)
  {
    LocalFields(f, a, c);
    LocalContent(f, a, c);
    hide Local, Get16, Get32, Fits;
  }

  lemma ZeroNumbers()
    ensures var z := Zeros(); |z| == 12 && Get16(z, 0) == 0 && Get16(z, 2) == 0
  {
  }

  lemma PlaceNumbers(n: nat, offset: nat)
    requires n < U16 && offset < U32
    ensures |LE16(n)| == 2 && Get16(LE16(n), 0) == n && |LE32(offset)| == 4 && Get32(LE32(offset), 0) == offset
  {
    Put16(n);
    Put32(offset);
  }

  lemma CentralNumbers(f: File, offset: nat)
    requires Fits(f) && offset < U32
    ensures var h := Central(f, offset);
            && |h| == 46 + |f.name| && Get32(h, 0) == CENTRAL_SIG && Get16(h, 10) == f.packing
            && Get32(h, 16) == f.crc && Get32(h, 20) == |f.data| && Get32(h, 24) == f.size
            && Get16(h, 28) == |f.name| && Get16(h, 30) == 0 && Get16(h, 32) == 0 && Get32(h, 42) == offset
  {
    CentralSizes(f, offset);
    CentralPlaces(f, offset);
  }

  lemma CentralSizes(f: File, offset: nat)
    requires Fits(f) && offset < U32
    ensures var h := Central(f, offset);
            && |h| == 46 + |f.name| && Get32(h, 0) == CENTRAL_SIG && Get16(h, 10) == f.packing
            && Get32(h, 16) == f.crc && Get32(h, 20) == |f.data| && Get32(h, 24) == f.size
  {
    var h, s, m := Central(f, offset), CentralStart(f.packing), Meta(f.crc, |f.data|, f.size);
    var n, z, o := LE16(|f.name|), Zeros(), LE32(offset);
    StartNumbers(f.packing);
    MetaNumbers(f.crc, |f.data|, f.size);
    ZeroNumbers();
    PlaceNumbers(|f.name|, offset);
    CentralSplits(f, offset);
    hide *;
    InPart32(h, [], s, m + n + z + o + f.name, 0);
    InPart16(h, [], s, m + n + z + o + f.name, 10);
    InPart32(h, s, m, n + z + o + f.name, 0);
    InPart32(h, s, m, n + z + o + f.name, 4);
    InPart32(h, s, m, n + z + o + f.name, 8);
  }

  lemma CentralPlaces(f: File, offset: nat)
    requires Fits(f) && offset < U32 && |Central(f, offset)| == 46 + |f.name|
    ensures var h := Central(f, offset);
            Get16(h, 28) == |f.name| && Get16(h, 30) == 0 && Get16(h, 32) == 0 && Get32(h, 42) == offset
  {
    var h, s, m := Central(f, offset), CentralStart(f.packing), Meta(f.crc, |f.data|, f.size);
    var n, z, o := LE16(|f.name|), Zeros(), LE32(offset);
    StartNumbers(f.packing);
    MetaNumbers(f.crc, |f.data|, f.size);
    ZeroNumbers();
    PlaceNumbers(|f.name|, offset);
    CentralSplits(f, offset);
    hide *;
    InPart16(h, s + m, n, z + o + f.name, 0);
    InPart16(h, s + m + n, z, o + f.name, 0);
    InPart16(h, s + m + n, z, o + f.name, 2);
    InPart32(h, s + m + n + z, o, f.name, 0);
  }

  lemma CentralSplits(f: File, offset: nat)
    ensures var h, s, m := Central(f, offset), CentralStart(f.packing), Meta(f.crc, |f.data|, f.size);
            var n, z, o := LE16(|f.name|), Zeros(), LE32(offset);
            && h == [] + s + (m + n + z + o + f.name) && h == s + m + (n + z + o + f.name)
            && h == s + m + n + (z + o + f.name) && h == s + m + n + z + (o + f.name) && h == s + m + n + z + o + f.name
  {
    hide CentralStart, Meta, LE16, LE32, Zeros;
  }

  /** The fields of the header in the central directory. */
  lemma CentralFields(f: File, offset: nat, a: Bytes, c: Bytes)
    requires Fits(f) && offset < U32
    ensures var b := a + Central(f, offset) + c; var at := |a|;
            && |Central(f, offset)| == 46 + |f.name|
            && Get32(b, at) == CENTRAL_SIG && Get16(b, at + 10) == f.packing
            && Get32(b, at + 16) == f.crc && Get32(b, at + 20) == |f.data| && Get32(b, at + 24) == f.size
            && Get16(b, at + 28) == |f.name| && Get16(b, at + 30) == 0 && Get16(b, at + 32) == 0
            && Get32(b, at + 42) == offset
  {
    var b, h := a + Central(f, offset) + c, Central(f, offset);
    CentralNumbers(f, offset);
    hide *;
    InPart32(b, a, h, c, 0);
    InPart16(b, a, h, c, 10);
    InPart32(b, a, h, c, 16);
    InPart32(b, a, h, c, 20);
    InPart32(b, a, h, c, 24);
    InPart16(b, a, h, c, 28);
    InPart16(b, a, h, c, 30);
    InPart16(b, a, h, c, 32);
    InPart32(b, a, h, c, 42);
  }

  lemma CentralName(f: File, offset: nat, a: Bytes, c: Bytes)
    requires Fits(f) && offset < U32
    ensures var b := a + Central(f, offset) + c; var at := |a|;
            |Central(f, offset)| == 46 + |f.name| && b[at + 46..at + 46 + |f.name|] == f.name
  {
    var b, at := a + Central(f, offset) + c, |a|;
    forall i | 0 <= i < |f.name| ensures b[at + 46 + i] == f.name[i] {
      assert b[at + 46 + i] == Central(f, offset)[46 + i];
    }
  }

  // ---- Everything is read back ----

  predicate AllFit(files: seq<File>) {
    && (forall f | f in files :: Fits(f)) && |files| < U16
    && |Locals(files)| + |Centrals(files)| < U32
  }

  /** A concatenation cut around its part `k`. */
  lemma {:induction false} Cut(parts: seq<Bytes>, k: nat) returns (rest: Bytes)
    requires k < |parts|
    ensures Flat(parts) == Flat(parts[..k]) + parts[k] + rest
    ensures Flat(parts[..k + 1]) == Flat(parts[..k]) + parts[k]
    decreases |parts|
  {
    assert parts[..k + 1][..k] == parts[..k];
    if k == |parts| - 1 {
      assert parts[..k + 1] == parts;
      rest := [];
    } else {
      var init, last := parts[..|parts| - 1], parts[|parts| - 1];
      assert init[..k] == parts[..k] && init[k] == parts[k];
      rest := Cut(init, k);
      assert Flat(init) + last == Flat(parts[..k]) + parts[k] + (rest + last);
      rest := rest + last;
    }
  }

  lemma EntryFrom(b: Bytes, at: nat, f: File, offset: nat)
    requires Fits(f) && at + 46 + |f.name| <= |b| && ReadLocal(b, offset) == Some(f)
    requires Get32(b, at) == CENTRAL_SIG && Get16(b, at + 10) == f.packing
    requires Get32(b, at + 16) == f.crc && Get32(b, at + 20) == |f.data| && Get32(b, at + 24) == f.size
    requires Get16(b, at + 28) == |f.name| && Get16(b, at + 30) == 0 && Get16(b, at + 32) == 0
    requires Get32(b, at + 42) == offset && b[at + 46..at + 46 + |f.name|] == f.name
    ensures ReadEntry(b, at) == Some((f, at + 46 + |f.name|))
  {
  }

  lemma LocalIsFound(files: seq<File>, end: Bytes, k: nat)
    requires AllFit(files) && k < |files|
    ensures ReadLocal(Locals(files) + Centrals(files) + end, Offset(files, k)) == Some(files[k])
    ensures Offset(files, k) < U32
  {
    var parts := LocalParts(files);
    var a := Flat(parts[..k]);
    assert files[k] in files;
    var rest := Cut(parts, k);
    AroundLocal(a, parts[k], rest, Centrals(files), end);
    LocalIsRead(files[k], a, rest + (Centrals(files) + end));
  }

  lemma EntryReads(f: File, offset: nat, a: Bytes, c: Bytes)
    requires Fits(f) && offset < U32 && ReadLocal(a + Central(f, offset) + c, offset) == Some(f)
    ensures ReadEntry(a + Central(f, offset) + c, |a|) == Some((f, |a| + |Central(f, offset)|))
  {
    hide *;
    CentralFields(f, offset, a, c);
    CentralName(f, offset, a, c);
    EntryFrom(a + Central(f, offset) + c, |a|, f, offset);
  }

  /** The archive cut around a directory entry. */
  lemma EntryIsThere(l: Bytes, parts: seq<Bytes>, end: Bytes, k: nat) returns (a: Bytes, c: Bytes)
    requires k < |parts|
    ensures l + Flat(parts) + end == a + parts[k] + c
    ensures |a| == |l| + |Flat(parts[..k])| && |a| + |parts[k]| == |l| + |Flat(parts[..k + 1])|
  {
    var rest := Cut(parts, k);
    AroundCentral(l, Flat(parts[..k]), parts[k], rest, end);
    a, c := l + Flat(parts[..k]), rest + end;
  }

  lemma EntryReadsAt(b: Bytes, f: File, offset: nat, entry: Bytes, a: Bytes, c: Bytes, at: nat, next: nat)
    requires Fits(f) && offset < U32 && entry == Central(f, offset) && b == a + entry + c
    requires ReadLocal(b, offset) == Some(f) && at == |a| && next == |a| + |entry|
    ensures ReadEntry(b, at) == Some((f, next))
  {
    hide *;
    EntryReads(f, offset, a, c);
  }

  lemma FileFits(files: seq<File>, k: nat)
    requires AllFit(files) && k < |files|
    ensures Fits(files[k])
  {
    assert files[k] in files;
  }

  /** One entry of the directory, and the file that it points to. */
  lemma {:induction false} EntryIsRead(files: seq<File>, l: Bytes, parts: seq<Bytes>, end: Bytes, k: nat)
    requires AllFit(files) && k < |files| && l == Locals(files) && parts == CentralParts(files)
    ensures ReadEntry(l + Flat(parts) + end, |l| + |Flat(parts[..k])|) == Some((files[k], |l| + |Flat(parts[..k + 1])|))
  {
    hide ReadEntry, Central, ReadLocal, Local;
    LocalIsFound(files, end, k);
    FileFits(files, k);
    var a, c := EntryIsThere(l, parts, end, k);
    EntryReadsAt(l + Flat(parts) + end, files[k], Offset(files, k), parts[k], a, c,
                 |l| + |Flat(parts[..k])|, |l| + |Flat(parts[..k + 1])|);
  }

  lemma AroundLocal(a: Bytes, f: Bytes, l: Bytes, c: Bytes, e: Bytes)
    ensures (a + f + l) + c + e == a + f + (l + (c + e))
  {
  }

  lemma AroundCentral(l: Bytes, a: Bytes, f: Bytes, c: Bytes, e: Bytes)
    ensures l + (a + f + c) + e == (l + a) + f + (c + e)
  {
  }

  lemma {:induction false} EntriesFollow(b: Bytes, files: seq<File>, at: seq<nat>, k: nat)
    requires k <= |files| && |at| == |files| + 1
    requires forall j | 0 <= j < |files| :: ReadEntry(b, at[j]) == Some((files[j], at[j + 1]))
    ensures ReadEntries(b, at[k], |files| - k) == Some(files[k..])
    decreases |files| - k
  {
    hide ReadEntry;
    if k < |files| {
      EntriesFollow(b, files, at, k + 1);
      assert [files[k]] + files[k + 1..] == files[k..];
    }
  }

  lemma FlatOfNone(parts: seq<Bytes>)
    ensures |Flat(parts[..0])| == 0
  {
  }

  lemma {:induction false} EntriesAreRead(files: seq<File>, l: Bytes, parts: seq<Bytes>, end: Bytes, b: Bytes)
    requires AllFit(files) && l == Locals(files) && parts == CentralParts(files) && |parts| == |files|
    requires b == l + Flat(parts) + end
    ensures ReadEntries(b, |l|, |files|) == Some(files)
  {
    hide *;
    var at: seq<nat> := seq(|files| + 1, i requires 0 <= i <= |files| => |l| + |Flat(parts[..i])|);
    forall j | 0 <= j < |files| ensures ReadEntry(b, at[j]) == Some((files[j], at[j + 1])) {
      EntryIsRead(files, l, parts, end, j);
    }
    EntriesFollow(b, files, at, 0);
    FlatOfNone(parts);
    assert files[0..] == files;
  }

  lemma EndFields(count: nat, length: nat, start: nat, a: Bytes)
    requires count < U16 && start < U32
    ensures var b := a + End(count, length, start);
            && |b| == |a| + 22 && Get32(b, |a|) == END_SIG && Get16(b, |a| + 10) == count && Get32(b, |a| + 16) == start
  {
    var b := a + End(count, length, start);
    Put16(count);
    Put32(start);
    forall i | 0 <= i < 22 ensures b[|a| + i] == End(count, length, start)[i] {
    }
  }

  /** A reader that follows the directory recovers exactly the files. */
  lemma ArchiveIsRead(files: seq<File>)
    requires AllFit(files)
    ensures ReadArchive(Archive(files)) == Some(files)
  {
    var l, c := Locals(files), Centrals(files);
    EndFields(|files|, |c|, |l|, l + c);
    EntriesAreRead(files, l, CentralParts(files), End(|files|, |c|, |l|), Archive(files));
  }

  // ---- Contents ----

  /** Packing or unpacking; which method of compression is used is left open. */
  type Coding = Bytes -> Bytes

  const STORED: nat := 0
  const DEFLATED: nat := 8

  datatype Text = Text(name: Bytes, contents: Bytes)

  /** The entry for a text. */
  function Packed(t: Text, compress: bool, deflate: Coding): File {
    File(t.name, if compress then DEFLATED else STORED, Sum(t.contents), |t.contents|,
         if compress then deflate(t.contents) else t.contents)
  }

  /** Compressed contents are marked with method 8 of section 4.4.5 of APPNOTE.TXT, others with 0. */
  lemma Methods(t: Text, deflate: Coding)
    ensures Packed(t, true, deflate).packing == SMALL_FILE.packing == 8 && Packed(t, false, deflate).packing == 0
  {
  }

  /** What is taken out of an entry: nothing unless the size and the checksum agree. */
  function Unpacked(f: File, inflate: Coding): Option<Text> {
    if f.packing != STORED && f.packing != DEFLATED then None
    else
      var c := if f.packing == DEFLATED then inflate(f.data) else f.data;
      if |c| == f.size && Sum(c) == f.crc then Some(Text(f.name, c)) else None
  }

  function AllUnpacked(files: seq<File>, inflate: Coding): Option<seq<Text>> {
    if files == [] then Some([])
    else
      match (AllUnpacked(files[..|files| - 1], inflate), Unpacked(files[|files| - 1], inflate))
      case (Some(rest), Some(t)) => Some(rest + [t])
      case _ => None
  }

  /** A reader that also checks what it takes out. */
  function Extract(b: Bytes, inflate: Coding): Option<seq<Text>> {
    match ReadArchive(b)
    case None => None
    case Some(files) => AllUnpacked(files, inflate)
  }

  lemma PackedIsUnpacked(t: Text, compress: bool, deflate: Coding, inflate: Coding)
    requires compress ==> inflate(deflate(t.contents)) == t.contents
    ensures Unpacked(Packed(t, compress, deflate), inflate) == Some(t)
  {
  }

  lemma {:induction false} UnpackedSnoc(files: seq<File>, texts: seq<Text>, f: File, t: Text, inflate: Coding)
    requires AllUnpacked(files, inflate) == Some(texts) && Unpacked(f, inflate) == Some(t)
    ensures AllUnpacked(files + [f], inflate) == Some(texts + [t])
  {
    hide Unpacked;
    assert (files + [f])[..|files|] == files;
  }

  // ---- The generator ----

  class Writer {
    var bytes: Bytes

    constructor ()
      ensures bytes == []
    {
      bytes := [];
    }

    method Write(b: Bytes)
      modifies this
      ensures bytes == old(bytes) + b
    {
      bytes := bytes + b;
    }

    method Write16(v: nat)
      modifies this
      ensures bytes == old(bytes) + LE16(v)
    {
      bytes := bytes + LE16(v);
    }

    method Write32(v: nat)
      modifies this
      ensures bytes == old(bytes) + LE32(v)
    {
      bytes := bytes + LE32(v);
    }
  }

  /** The checksum and the sizes. */
  method WriteMeta(w: Writer, f: File)
    modifies w
    ensures w.bytes == old(w.bytes) + Meta(f.crc, |f.data|, f.size)
  {
    w.Write32(f.crc);
    w.Write32(|f.data|);
    w.Write32(f.size);
  }

  method WriteCentralStart(cdlw: Writer, packing: nat)
    modifies cdlw
    ensures cdlw.bytes == old(cdlw.bytes) + CentralStart(packing)
  {
    hide LE16, LE32;
    cdlw.Write32(CENTRAL_SIG);
    cdlw.Write16(10);
    cdlw.Write16(10);
    cdlw.Write16(0);
    cdlw.Write16(packing);
    cdlw.Write32(0);
  }

  method WriteZeros(cdlw: Writer)
    modifies cdlw
    ensures cdlw.bytes == old(cdlw.bytes) + Zeros()
  {
    hide LE16, LE32;
    cdlw.Write16(0);
    cdlw.Write16(0);
    cdlw.Write16(0);
    cdlw.Write16(0);
    cdlw.Write32(0);
  }

  /** The entry of the central directory. */
  method WriteCentral(cdlw: Writer, f: File, offset: nat)
    modifies cdlw
    ensures cdlw.bytes == old(cdlw.bytes) + Central(f, offset)
  {
    hide LE16, LE32, Meta, CentralStart, Zeros;
    WriteCentralStart(cdlw, f.packing);
    WriteMeta(cdlw, f);
    cdlw.Write16(|f.name|);
    WriteZeros(cdlw);
    cdlw.Write32(offset);
    cdlw.Write(f.name);
  }

  method WriteLocalStart(lw: Writer, packing: nat)
    modifies lw
    ensures lw.bytes == old(lw.bytes) + LocalStart(packing)
  {
    hide LE16, LE32;
    lw.Write32(LOCAL_SIG);
    lw.Write16(10);
    lw.Write16(0);
    lw.Write16(packing);
    lw.Write32(0);
  }

  /** The local header and the file. */
  method WriteLocal(lw: Writer, f: File)
    modifies lw
    ensures lw.bytes == old(lw.bytes) + Local(f)
  {
    hide LE16, LE32, Meta, LocalStart;
    WriteLocalStart(lw, f.packing);
    WriteMeta(lw, f);
    lw.Write16(|f.name|);
    lw.Write16(0);
    lw.Write(f.name);
    lw.Write(f.data);
  }

  method WriteEnd(lw: Writer, count: nat, length: nat)
    modifies lw
    ensures lw.bytes == old(lw.bytes) + End(count, length, 0)
  {
    hide LE16, LE32;
    lw.Write32(END_SIG);
    lw.Write16(0);
    lw.Write16(0);
    lw.Write16(count);
    lw.Write16(count);
    lw.Write32(length);
    lw.Write32(0);
    lw.Write16(0);
  }

  /** `writeFile`. */
  method WriteFile(lw: Writer, cdlw: Writer, t: Text, compress: bool, deflate: Coding, ghost files: seq<File>)
    requires lw != cdlw && lw.bytes == Locals(files) && cdlw.bytes == Centrals(files)
    modifies lw, cdlw
    ensures var f := Packed(t, compress, deflate);
            lw.bytes == Locals(files + [f]) && cdlw.bytes == Centrals(files + [f])
  {
    hide Local, Central, Sum;
    var crc, method_, data := Sum(t.contents), STORED, t.contents;
    if compress {
      data := deflate(t.contents);
      method_ := DEFLATED;
    }
    var f := File(t.name, method_, crc, |t.contents|, data);
    OneMoreFile(files, f);
    WriteCentral(cdlw, f, |lw.bytes|);
    WriteLocal(lw, f);
  }

  lemma OneMoreFile(files: seq<File>, f: File)
    ensures Locals(files + [f]) == Locals(files) + Local(f)
    ensures Centrals(files + [f]) == Centrals(files) + Central(f, |Locals(files)|)
  {
    hide Local, Central;
    var all := files + [f];
    assert LocalParts(all)[..|files|] == LocalParts(files);
    forall i | 0 <= i < |files| ensures Offset(all, i) == Offset(files, i) {
      assert LocalParts(all)[..i] == LocalParts(files)[..i];
    }
    assert LocalParts(files)[..|files|] == LocalParts(files);
    assert CentralParts(all)[..|files|] == CentralParts(files);
  }

  // ---- The template ----

  /** The archive of the files `pre` and one more that is stored as it is, cut where
      an export patches it: before the checksum and sizes in the local header, before
      those in the directory, and before the start of the directory. */
  function BeforeMeta(pre: seq<File>): Bytes {
    Locals(pre) + LocalStart(0)
  }

  function LocalName(name: Bytes): Bytes {
    LE16(|name|) + LE16(0) + name
  }

  function BeforeCentralMeta(pre: seq<File>): Bytes {
    Centrals(pre) + CentralStart(0)
  }

  function CentralRest(pre: seq<File>, name: Bytes): Bytes {
    LE16(|name|) + Zeros() + LE32(|Locals(pre)|) + name
  }

  function BeforeStart(pre: seq<File>, name: Bytes): Bytes {
    CentralRest(pre, name) + EndStart(|pre| + 1, |Centrals(pre)| + 46 + |name|)
  }

  function Assemble(a: Bytes, here: Bytes, b: Bytes, there: Bytes, c: Bytes, start: nat): Bytes {
    a + here + b + there + c + LE32(start) + LE16(0)
  }

  function Template(pre: seq<File>, name: Bytes, here: Bytes, there: Bytes, start: nat): Bytes {
    Assemble(BeforeMeta(pre), here, LocalName(name) + BeforeCentralMeta(pre), there, BeforeStart(pre, name), start)
  }

  lemma MetaLength(crc: nat, packed: nat, size: nat)
    ensures |Meta(crc, packed, size)| == 12
  {
  }

  lemma HeadLengths(pre: seq<File>, name: Bytes)
    ensures |BeforeMeta(pre)| == |Locals(pre)| + 14 && |LocalName(name)| == 4 + |name|
    ensures |BeforeCentralMeta(pre)| == |Centrals(pre)| + 16 && |CentralRest(pre, name)| == 18 + |name|
  {
  }

  /** The archive with the contents left in, cut in the same places. */
  lemma ArchiveParts(pre: seq<File>, f: File)
    requires f.packing == 0
    ensures var all, meta := pre + [f], Meta(f.crc, |f.data|, f.size);
            && Locals(all) == BeforeMeta(pre) + meta + LocalName(f.name) + f.data
            && Centrals(all) == BeforeCentralMeta(pre) + meta + CentralRest(pre, f.name)
            && |Locals(all)| == DataInsert(pre, f.name) + |f.data| && |Centrals(all)| == |Centrals(pre)| + 46 + |f.name|
  {
    OneMoreFile(pre, f);
    HeadLengths(pre, f.name);
    LocalParted(Locals(pre), f);
    CentralParted(Centrals(pre), f, |Locals(pre)|);
  }

  lemma LocalParted(l: Bytes, f: File)
    requires f.packing == 0
    ensures l + Local(f) == (l + LocalStart(0)) + Meta(f.crc, |f.data|, f.size) + LocalName(f.name) + f.data
  {
    hide LE16, LE32, LocalStart, Meta;
  }

  lemma CentralParted(c: Bytes, f: File, offset: nat)
    requires f.packing == 0
    ensures c + Central(f, offset) ==
            (c + CentralStart(0)) + Meta(f.crc, |f.data|, f.size) + (LE16(|f.name|) + Zeros() + LE32(offset) + f.name)
  {
    hide LE16, LE32, CentralStart, Meta, Zeros;
  }

  /** Where an export has to patch the template. */
  function MetaInsert(pre: seq<File>): nat {
    |Locals(pre)| + 14
  }

  function DataInsert(pre: seq<File>, name: Bytes): nat {
    |Locals(pre)| + 30 + |name|
  }

  function CentralInsert(pre: seq<File>, name: Bytes): nat {
    DataInsert(pre, name) + |Centrals(pre)| + 16
  }

  const NO_META: Bytes := Meta(0, 0, 0)

  /** The three files that never change, and the name of the one that does. */
  datatype Parts = Parts(mime: Text, style: Text, manifest: Text, name: Bytes)

  function Fixed(p: Parts, deflate: Coding): seq<File> {
    [Packed(p.mime, false, deflate), Packed(p.style, true, deflate), Packed(p.manifest, true, deflate)]
  }

  /** `run`: the template, and where to patch it. */
  method Run(p: Parts, deflate: Coding)
    returns (ods: Bytes, contentMetaInsert: nat, contentData: nat, cdfhMetaInsert: nat)
    ensures var pre := Fixed(p, deflate);
            && ods == Template(pre, p.name, NO_META, NO_META, 0)
            && contentMetaInsert == MetaInsert(pre) && contentData == DataInsert(pre, p.name)
            && cdfhMetaInsert == CentralInsert(pre, p.name)
  {
    hide Local, Central, LocalHead, CentralHead, End, Sum;
    var lw := new Writer();
    var cdlw := new Writer();
    ghost var pre := Fixed(p, deflate);
    ghost var first, second, third := pre[0], pre[1], pre[2];
    assert [] + [first] == [first] && [first] + [second] == [first, second] && [first, second] + [third] == pre;
    WriteFile(lw, cdlw, p.mime, false, deflate, []);
    WriteFile(lw, cdlw, p.style, true, deflate, [first]);
    WriteFile(lw, cdlw, p.manifest, true, deflate, [first, second]);
    var contentStart, cdfhInsert := |lw.bytes|, |cdlw.bytes|;
    SumOfNothing();
    WriteFile(lw, cdlw, Text(p.name, []), false, deflate, pre);
    EmptyContent(pre, p.name);
    contentData := |lw.bytes|;
    cdfhInsert := cdfhInsert + |lw.bytes|;
    lw.Write(cdlw.bytes);
    WriteEnd(lw, 4, |cdlw.bytes|);
    ods, contentMetaInsert, cdfhMetaInsert := lw.bytes, contentStart + 14, cdfhInsert + 16;
  }

  lemma EmptyContent(pre: seq<File>, name: Bytes)
    ensures var all := pre + [File(name, 0, 0, 0, [])];
            && |Locals(all)| == DataInsert(pre, name) && |Centrals(all)| == |Centrals(pre)| + 46 + |name|
            && Locals(all) + Centrals(all) + End(|pre| + 1, |Centrals(all)|, 0) ==
              Template(pre, name, NO_META, NO_META, 0)
  {
    hide Locals, Centrals, LE16, LE32, BeforeMeta, LocalName, BeforeCentralMeta, CentralRest, EndStart, Meta, Assemble;
    ArchiveParts(pre, File(name, 0, 0, 0, []));
    var es := EndStart(|pre| + 1, |Centrals(pre)| + 46 + |name|);
    Associated(BeforeMeta(pre), NO_META, LocalName(name), BeforeCentralMeta(pre), NO_META, CentralRest(pre, name), es,
      0);
    NoData(BeforeMeta(pre) + NO_META + LocalName(name));
  }

  lemma NoData(l: Bytes)
    ensures l + [] == l
  {
  }

  lemma Associated(a: Bytes, here: Bytes, n: Bytes, b: Bytes, there: Bytes, r: Bytes, e: Bytes, start: nat)
    ensures (a + here + n) + (b + there + r) + (e + LE32(start) + LE16(0)) ==
            Assemble(a, here, n + b, there, r + e, start)
  {
    hide LE16, LE32;
  }

  // ---- The exporter ----

  function Replaced(b: Bytes, at: nat, patch: Bytes): Bytes
    requires at + |patch| <= |b|
  {
    b[..at] + patch + b[at + |patch|..]
  }

  lemma ReplaceMiddle(a: Bytes, old_: Bytes, c: Bytes, patch: Bytes)
    requires |patch| == |old_|
    ensures Replaced(a + old_ + c, |a|, patch) == a + patch + c
  {
  }

  lemma ReplaceThree(b: Bytes, at: nat, x: Bytes, y: Bytes, z: Bytes)
    requires |x| == |y| == |z| == 4 && at + 12 <= |b|
    ensures Replaced(Replaced(Replaced(b, at, x), at + 4, y), at + 8, z) == Replaced(b, at, x + y + z)
  {
  }

  lemma PatchHere(a: Bytes, here: Bytes, b: Bytes, there: Bytes, c: Bytes, start: nat, patch: Bytes)
    requires |here| == |patch|
    ensures |a| + |patch| <= |Assemble(a, here, b, there, c, start)|
    ensures Replaced(Assemble(a, here, b, there, c, start), |a|, patch) == Assemble(a, patch, b, there, c, start)
  {
    var tail := b + there + c + LE32(start) + LE16(0);
    assert Assemble(a, here, b, there, c, start) == a + here + tail;
    assert Assemble(a, patch, b, there, c, start) == a + patch + tail;
    ReplaceMiddle(a, here, tail, patch);
  }

  lemma PatchThere(a: Bytes, here: Bytes, b: Bytes, there: Bytes, c: Bytes, start: nat, patch: Bytes)
    requires |there| == |patch|
    ensures |a| + |here| + |b| + |patch| <= |Assemble(a, here, b, there, c, start)|
    ensures Replaced(Assemble(a, here, b, there, c, start), |a| + |here| + |b|, patch) ==
            Assemble(a, here, b, patch, c, start)
  {
    var tail := c + LE32(start) + LE16(0);
    assert Assemble(a, here, b, there, c, start) == (a + here + b) + there + tail;
    assert Assemble(a, here, b, patch, c, start) == (a + here + b) + patch + tail;
    ReplaceMiddle(a + here + b, there, tail, patch);
  }

  lemma PatchStart(a: Bytes, here: Bytes, b: Bytes, there: Bytes, c: Bytes, start: nat, start': nat)
    ensures var t := Assemble(a, here, b, there, c, start);
            |t| >= 6 && Replaced(t, |t| - 6, LE32(start')) == Assemble(a, here, b, there, c, start')
  {
    ReplaceMiddle(a + here + b + there + c, LE32(start), LE16(0), LE32(start'));
  }

  /** The contents spliced into a patched template are an archive. */
  lemma SpliceIsArchive(pre: seq<File>, name: Bytes, f: File)
    requires f.name == name && f.packing == 0
    ensures var meta := Meta(f.crc, |f.data|, f.size);
            var b := Template(pre, name, meta, meta, DataInsert(pre, name) + |f.data|);
            var at := DataInsert(pre, name);
            at <= |b| && b[..at] + f.data + b[at..] == Archive(pre + [f])
  {
    hide Locals, Centrals, LE16, LE32, BeforeMeta, LocalName, BeforeCentralMeta, CentralRest, EndStart, Meta, Assemble;
    var meta := Meta(f.crc, |f.data|, f.size);
    var start := DataInsert(pre, name) + |f.data|;
    var es := EndStart(|pre| + 1, |Centrals(pre)| + 46 + |name|);
    MetaLength(f.crc, |f.data|, f.size);
    ArchiveParts(pre, f);
    HeadLengths(pre, name);
    SpliceParts(BeforeMeta(pre), meta, LocalName(name), f.data, BeforeCentralMeta(pre), meta, CentralRest(pre, name),
      es, start);
  }

  lemma SpliceParts(a: Bytes, here: Bytes, n: Bytes, data: Bytes, b: Bytes, there: Bytes, r: Bytes, e: Bytes,
      start: nat)
    ensures var t := Assemble(a, here, n + b, there, r + e, start);
            var at := |a| + |here| + |n|;
            at <= |t| && t[..at] + data + t[at..] ==
                         (a + here + n + data) + (b + there + r) + (e + LE32(start) + LE16(0))
  {
    Associated(a, here, n, b, there, r, e, start);
    Splice(a + here + n, data, b + there + r, e + LE32(start) + LE16(0));
  }

  lemma Splice(l: Bytes, data: Bytes, c: Bytes, e: Bytes)
    ensures var b := l + c + e; b[..|l|] + data + b[|l|..] == (l + data) + c + e
  {
  }

  /** The two packed texts come out as they went in. */
  predicate Undoes(inflate: Coding, deflate: Coding, p: Parts) {
    inflate(deflate(p.style.contents)) == p.style.contents &&
      inflate(deflate(p.manifest.contents)) == p.manifest.contents
  }

  /** What has been exported can be read, and every checksum agrees. */
  lemma ExportIsRead(p: Parts, deflate: Coding, inflate: Coding, content: Bytes)
    requires Undoes(inflate, deflate, p)
    requires AllFit(Fixed(p, deflate) + [Packed(Text(p.name, content), false, deflate)])
    ensures Extract(Archive(Fixed(p, deflate) + [Packed(Text(p.name, content), false, deflate)]), inflate)
            == Some([p.mime, p.style, p.manifest, Text(p.name, content)])
  {
    hide Sum, Archive, ReadArchive, AllFit, Packed, Unpacked;
    var t := Text(p.name, content);
    var files := Fixed(p, deflate);
    PackedIsUnpacked(p.mime, false, deflate, inflate);
    PackedIsUnpacked(p.style, true, deflate, inflate);
    PackedIsUnpacked(p.manifest, true, deflate, inflate);
    PackedIsUnpacked(t, false, deflate, inflate);
    FourUnpacked(files[0], files[1], files[2], Packed(t, false, deflate), p.mime, p.style, p.manifest, t, inflate);
    assert files == [files[0], files[1], files[2]];
    ArchiveIsRead(files + [Packed(t, false, deflate)]);
  }

  lemma FourUnpacked(a: File, b: File, c: File, d: File, ta: Text, tb: Text, tc: Text, td: Text, inflate: Coding)
    requires Unpacked(a, inflate) == Some(ta) && Unpacked(b, inflate) == Some(tb)
    requires Unpacked(c, inflate) == Some(tc) && Unpacked(d, inflate) == Some(td)
    ensures AllUnpacked([a, b, c] + [d], inflate) == Some([ta, tb, tc, td])
  {
    hide Unpacked;
    UnpackedSnoc([], [], a, ta, inflate);
    assert [] + [a] == [a] && [] + [ta] == [ta];
    UnpackedSnoc([a], [ta], b, tb, inflate);
    assert [a] + [b] == [a, b] && [ta] + [tb] == [ta, tb];
    UnpackedSnoc([a, b], [ta, tb], c, tc, inflate);
    assert [a, b] + [c] == [a, b, c] && [ta, tb] + [tc] == [ta, tb, tc];
    UnpackedSnoc([a, b, c], [ta, tb, tc], d, td, inflate);
    assert [ta, tb, tc] + [td] == [ta, tb, tc, td];
  }

  class Exporter {
    const ods: array<int>
    const contentMetaInsert: nat
    const contentData: nat
    const cdfhMetaInsert: nat
    const table: map<Checksums.Byte, bv32>
    ghost const parts: Parts
    ghost const deflate: Coding
    ghost var here: Bytes
    ghost var there: Bytes
    ghost var start: nat

    /** Whatever was exported before, the buffer is the template up to the patches. */
    ghost predicate Valid()
      reads this, ods
    {
      var pre := Fixed(parts, deflate);
      && Checksums.IsTable(table)
      && |here| == 12 && |there| == 12 && ods[..] == Template(pre, parts.name, here, there, start)
      && contentMetaInsert == MetaInsert(pre) && contentData == DataInsert(pre, parts.name)
      && cdfhMetaInsert == CentralInsert(pre, parts.name)
    }

    constructor (p: Parts, deflate: Coding)
      ensures Valid() && fresh(ods) && parts == p && this.deflate == deflate
    {
      hide Template, Checksums.IsTable, Fixed, MetaInsert, CentralInsert;
      var b, meta, data, central := Run(p, deflate);
      var a := new int[|b|](i requires 0 <= i < |b| => b[i]);
      var t := Checksums.MakeTable();
      ods, contentMetaInsert, contentData, cdfhMetaInsert, table := a, meta, data, central, t;
      parts, this.deflate := p, deflate;
      here, there, start := NO_META, NO_META, 0;
      new;
      assert ods[..] == b;
    }

    method SetUint32(offset: nat, value: nat)
      requires offset + 4 <= ods.Length
      modifies ods
      ensures ods[..] == Replaced(old(ods[..]), offset, LE32(value))
    {
      ods[offset] := value % 256;
      ods[offset + 1] := value / 256 % 256;
      ods[offset + 2] := value / 65536 % 256;
      ods[offset + 3] := value / 16777216 % 256;
      assert ods[offset..offset + 4] == LE32(value);
      assert ods[..] == ods[..offset] + ods[offset..offset + 4] + ods[offset + 4..];
    }

    /** The checksum and both sizes, of contents that are stored as they are. */
    method SetMeta(offset: nat, crc: nat, size: nat)
      requires offset + 12 <= ods.Length
      modifies ods
      ensures ods[..] == Replaced(old(ods[..]), offset, Meta(crc, size, size))
    {
      SetUint32(offset, crc);
      SetUint32(offset + 4, size);
      SetUint32(offset + 8, size);
      ReplaceThree(old(ods[..]), offset, LE32(crc), LE32(size), LE32(size));
    }

    /** All the patches for some contents. */
    method Patch(crc: nat, size: nat)
      requires Valid()
      modifies this, ods
      ensures Valid() && here == there == Meta(crc, size, size) && start == contentData + size
    {
      hide Assemble, Meta, LE16, LE32, Locals, Centrals, BeforeMeta, BeforeCentralMeta, BeforeStart, LocalName,
        Replaced;
      hide Checksums.IsTable, Fixed;
      ghost var pre, name := Fixed(parts, deflate), parts.name;
      ghost var meta := Meta(crc, size, size);
      MetaLength(crc, size, size);
      ghost var a, b, c := BeforeMeta(pre), LocalName(name) + BeforeCentralMeta(pre), BeforeStart(pre, name);
      HeadLengths(pre, name);
      PatchHere(a, here, b, there, c, start, meta);
      SetMeta(contentMetaInsert, crc, size);
      PatchThere(a, meta, b, there, c, start, meta);
      SetMeta(cdfhMetaInsert, crc, size);
      PatchStart(a, meta, b, meta, c, start, contentData + size);
      SetUint32(ods.Length - 6, contentData + size);
      here, there, start := meta, meta, contentData + size;
    }

    method Checksum(content: Bytes) returns (crcV: nat)
      requires Checksums.IsTable(table)
      ensures crcV == Sum(content)
    {
      OctetsAreBytes(content);
      var crc := Checksums.GenerateCRC(table, Octets(content));
      crcV := crc as nat;
    }

    /** The export: exactly the archive that would have been written with these
        contents, checksum included, however often something has been exported before;
        a reader that checks every checksum takes out the four texts. */
    method Export(content: Bytes) returns (out: Bytes)
      requires Valid()
      modifies this, ods
      ensures var files := Fixed(parts, deflate) + [Packed(Text(parts.name, content), false, deflate)];
              && Valid() && out == Archive(files)
              && forall inflate: Coding | AllFit(files) && Undoes(inflate, deflate, parts) ::
                   Extract(out, inflate) == Some([parts.mime, parts.style, parts.manifest, Text(parts.name, content)])
    {
      hide Template, Archive, ReadArchive, AllFit, Meta, MetaInsert, CentralInsert, Sum, Extract, Checksums.IsTable,
        Fixed;
      ghost var pre := Fixed(parts, deflate);
      ghost var f := Packed(Text(parts.name, content), false, deflate);
      var crcV := Checksum(content);
      Patch(crcV, |content|);
      ghost var t := ods[..];
      SpliceIsArchive(pre, parts.name, f);
      assert ods[..contentData] == t[..contentData] && ods[contentData..] == t[contentData..];
      out := ods[..contentData] + content + ods[contentData..];
      forall inflate: Coding | AllFit(pre + [f]) && Undoes(inflate, deflate, parts)
        ensures Extract(out, inflate) == Some([parts.mime, parts.style, parts.manifest, Text(parts.name, content)])
      {
        ExportIsRead(parts, deflate, inflate, content);
      }
    }
  }
}
