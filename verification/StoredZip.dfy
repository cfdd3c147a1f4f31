// src/app/MaintenanceController.cpp: the writer of stored (uncompressed) ZIP archives, and a reader that
// follows sections 4.3.7, 4.3.12 and 4.3.16 of PKWARE APPNOTE.TXT.

module StoredZip {
  import opened Outcomes
  import opened Bytes
  import opened Checksum

  type u16 = n: nat | n < 0x1_0000
  type u32 = n: nat | n < 0x1_0000_0000

  const MAXIMUM_U16: nat := 0xffff
  const MAXIMUM_U32: nat := 0xffff_ffff

  const LOCAL_SIGNATURE: u32 := 0x0403_4b50
  const CENTRAL_SIGNATURE: u32 := 0x0201_4b50
  const END_SIGNATURE: u32 := 0x0605_4b50

  const LOCAL_HEADER_SIZE: nat := 30
  const CENTRAL_HEADER_SIZE: nat := 46
  const END_RECORD_SIZE: nat := 22

  datatype ZipEntry = ZipEntry(name: seq<byte>, data: seq<byte>, checksum: u32, localHeaderOffset: u32)

  // The narrowing casts of the source.
  function ToU16(n: nat): u16 { n % 0x1_0000 }
  function ToU32(n: nat): u32 { n % 0x1_0000_0000 }

  // ---- The writer.

  method AppendLittleEndian16(output: seq<byte>, value: u16) returns (r: seq<byte>)
    ensures r == output + LittleEndian(value, 2)
  {
    r := output + [value % 256];
    r := r + [value / 256 % 256];
    assert LittleEndian(value / 256, 1) == [value / 256 % 256];
  }

  method AppendLittleEndian32(output: seq<byte>, value: u32) returns (r: seq<byte>)
    ensures r == output + LittleEndian(value, 4)
  {
    r := output + [value % 256];
    r := r + [value / 0x100 % 256];
    r := r + [value / 0x1_0000 % 256];
    r := r + [value / 0x100_0000 % 256];
    FourBytes(value);
  }

  lemma {:induction false} FourBytes(value: u32)
    ensures LittleEndian(value, 4)
         == [value % 256, value / 0x100 % 256, value / 0x1_0000 % 256, value / 0x100_0000 % 256]
  {
    var a, b, c := value / 256, value / 0x1_0000, value / 0x100_0000;
    assert a / 256 == b && b / 256 == c;
    assert LittleEndian(c, 1) == [c % 256] + LittleEndian(c / 256, 0);
    assert LittleEndian(b, 2) == [b % 256] + LittleEndian(c, 1);
    assert LittleEndian(a, 3) == [a % 256] + LittleEndian(b, 2);
  }

  method BuildStoredZip(entries: seq<ZipEntry>) returns (ok: bool, archive: seq<byte>)
    ensures ok <==> Storable(entries)
    ensures ok ==> Read(Crc, archive) == Some(Files(entries))
  {
    if |entries| > MAXIMUM_U16 {
      return false, [];
    }
    var zip;
    ok, zip, archive := AppendLocals(entries);
    if !ok {
      return;
    }
    if |archive| > MAXIMUM_U32 {
      return false, archive;
    }
    ghost var locals := archive;
    SameCentralsSize(zip, entries, |zip|);
    var centralDirectoryOffset := ToU32(|archive|);
    archive := AppendCentrals(archive, zip);
    var centralSize := |archive| - centralDirectoryOffset;
    if centralSize > MAXIMUM_U32 {
      return false, archive;
    }
    ghost var directory := archive;
    archive := AppendEnd(archive, |entries|, centralSize, centralDirectoryOffset);
    ArchiveReadsBack(Crc, locals, directory, archive, zip);
    assert Files(zip) == Files(entries);
  }

  method AppendLocals(entries: seq<ZipEntry>) returns (ok: bool, zip: seq<ZipEntry>, archive: seq<byte>)
    ensures ok ==> EntriesFit(entries)
    ensures !ok ==> !EntriesFit(entries) || LocalsSize(entries, |entries|) > MAXIMUM_U32
    ensures ok ==> SameFiles(zip, entries) && LocalsStand(archive, zip, |zip|) && Summed(Crc, zip, |zip|)
    ensures ok ==> |archive| == LocalsSize(entries, |entries|)
  {
    zip, archive := entries, [];
    for n := 0 to |entries|
      invariant SameFiles(zip, entries)
      invariant |archive| == LocalsSize(entries, n)
      invariant LocalsStand(archive, zip, n) && Summed(Crc, zip, n)
      invariant forall i :: 0 <= i < n ==> Fits(entries[i])
    {
      LocalsGrow(entries, n, |entries|);
      var entry := zip[n];
      assert Fits(entry) == Fits(entries[n]);
      if |entry.name| > MAXIMUM_U16 || |entry.data| > MAXIMUM_U32 || |archive| > MAXIMUM_U32 {
        return false, zip, archive;
      }
      zip, archive := AppendEntry(zip, archive, n);
    }
    ok := true;
  }

  method AppendEntry(were: seq<ZipEntry>, before: seq<byte>, n: nat) returns (zip: seq<ZipEntry>, archive: seq<byte>)
    requires n < |were| && Fits(were[n]) && |before| <= MAXIMUM_U32
    requires LocalsStand(before, were, n) && Summed(Crc, were, n)
    ensures SameFiles(zip, were) && |archive| == |before| + LocalSize(were[n])
    ensures LocalsStand(archive, zip, n + 1) && Summed(Crc, zip, n + 1)
  {
    var entry := were[n];
    var checksum := Crc32(entry.data);
    CrcFits(entry.data);
    entry := entry.(checksum := checksum, localHeaderOffset := ToU32(|before|));
    archive := AppendLocal(before, entry);
    zip := were[n := entry];
    LocalsStay(Crc, before, archive, were, zip, n);
  }

  method AppendCentrals(locals: seq<byte>, zip: seq<ZipEntry>) returns (archive: seq<byte>)
    requires EntriesFit(zip)
    ensures locals <= archive && |archive| == |locals| + CentralsSize(zip, |zip|)
    ensures CentralsStand(archive, |locals|, zip, |zip|)
  {
    archive := locals;
    for n := 0 to |zip|
      invariant locals <= archive
      invariant |archive| == |locals| + CentralsSize(zip, n)
      invariant CentralsStand(archive, |locals|, zip, n)
    {
      ghost var before := archive;
      archive := AppendCentral(archive, zip[n]);
      CentralsStay(before, archive, |locals|, zip, n);
    }
  }

  method AppendLocal(before: seq<byte>, entry: ZipEntry) returns (archive: seq<byte>)
    requires Fits(entry) && entry.localHeaderOffset == |before|
    ensures before <= archive && |archive| == |before| + LocalSize(entry)
    ensures LocalStands(archive, entry)
  {
    archive := AppendLittleEndian32(before, LOCAL_SIGNATURE);
    archive := AppendLittleEndian16(archive, 20);
    archive := AppendLittleEndian16(archive, 0x0800);
    archive := AppendLittleEndian16(archive, 0);
    archive := AppendLittleEndian16(archive, 0);
    archive := AppendLittleEndian16(archive, 0);
    archive := AppendLittleEndian32(archive, entry.checksum);
    archive := AppendLittleEndian32(archive, ToU32(|entry.data|));
    archive := AppendLittleEndian32(archive, ToU32(|entry.data|));
    archive := AppendLittleEndian16(archive, ToU16(|entry.name|));
    archive := AppendLittleEndian16(archive, 0);
    ghost var header := archive;
    assert header == WithCommon(before + LittleEndian(LOCAL_SIGNATURE, 4), entry);
    archive := archive + entry.name;
    archive := archive + entry.data;
    LocalWritten(before, header, archive, entry);
  }

  method AppendCentral(before: seq<byte>, entry: ZipEntry) returns (archive: seq<byte>)
    requires Fits(entry)
    ensures before <= archive && |archive| == |before| + CentralSize(entry)
    ensures CentralStands(archive, |before|, entry)
  {
    archive := AppendLittleEndian32(before, CENTRAL_SIGNATURE);
    archive := AppendLittleEndian16(archive, 20);
    ghost var start := archive;
    archive := AppendLittleEndian16(archive, 20);
    archive := AppendLittleEndian16(archive, 0x0800);
    archive := AppendLittleEndian16(archive, 0);
    archive := AppendLittleEndian16(archive, 0);
    archive := AppendLittleEndian16(archive, 0);
    archive := AppendLittleEndian32(archive, entry.checksum);
    archive := AppendLittleEndian32(archive, ToU32(|entry.data|));
    archive := AppendLittleEndian32(archive, ToU32(|entry.data|));
    archive := AppendLittleEndian16(archive, ToU16(|entry.name|));
    archive := AppendLittleEndian16(archive, 0);
    ghost var common := archive;
    assert common == WithCommon(start, entry);
    archive := AppendLittleEndian16(archive, 0);
    archive := AppendLittleEndian16(archive, 0);
    archive := AppendLittleEndian16(archive, 0);
    archive := AppendLittleEndian32(archive, 0);
    archive := AppendLittleEndian32(archive, entry.localHeaderOffset);
    archive := archive + entry.name;
    CentralWritten(before, start, common, archive, entry);
  }

  method AppendEnd(before: seq<byte>, count: nat, centralSize: nat, centralDirectoryOffset: u32)
      returns (archive: seq<byte>)
    requires count <= MAXIMUM_U16 && centralSize <= MAXIMUM_U32
    ensures before <= archive && |archive| == |before| + END_RECORD_SIZE
    ensures EndStands(archive, |before|, count, centralSize, centralDirectoryOffset)
  {
    var none: u16 := 0;
    archive := AppendCounts(before, END_SIGNATURE, none, ToU16(count));
    ghost var counts := archive;
    archive := AppendExtent(archive, ToU32(centralSize), centralDirectoryOffset, none);
    EndWritten(before, counts, archive, ToU16(count), ToU32(centralSize), centralDirectoryOffset, none);
  }

  method AppendCounts(before: seq<byte>, signature: u32, disk: u16, count: u16) returns (archive: seq<byte>)
    ensures archive == WithCounts(before, signature, disk, count)
  {
    archive := AppendLittleEndian32(before, signature);
    archive := AppendLittleEndian16(archive, disk);
    archive := AppendLittleEndian16(archive, disk);
    archive := AppendLittleEndian16(archive, count);
    archive := AppendLittleEndian16(archive, count);
  }

  method AppendExtent(before: seq<byte>, size: u32, offset: u32, commentLength: u16) returns (archive: seq<byte>)
    ensures archive == WithExtent(before, size, offset, commentLength)
  {
    archive := AppendLittleEndian32(before, size);
    archive := AppendLittleEndian32(archive, offset);
    archive := AppendLittleEndian16(archive, commentLength);
  }

  // ---- What can be stored.

  predicate Fits(entry: ZipEntry) {
    |entry.name| <= MAXIMUM_U16 && |entry.data| <= MAXIMUM_U32
  }

  function LocalSize(entry: ZipEntry): nat {
    LOCAL_HEADER_SIZE + |entry.name| + |entry.data|
  }

  function CentralSize(entry: ZipEntry): nat {
    CENTRAL_HEADER_SIZE + |entry.name|
  }

  function LocalsSize(entries: seq<ZipEntry>, n: nat): nat
    requires n <= |entries|
  {
    if n == 0 then 0 else LocalsSize(entries, n - 1) + LocalSize(entries[n - 1])
  }

  function CentralsSize(entries: seq<ZipEntry>, n: nat): nat
    requires n <= |entries|
  {
    if n == 0 then 0 else CentralsSize(entries, n - 1) + CentralSize(entries[n - 1])
  }

  predicate EntriesFit(entries: seq<ZipEntry>) {
    forall i :: 0 <= i < |entries| ==> Fits(entries[i])
  }

  predicate Storable(entries: seq<ZipEntry>) {
    && |entries| <= MAXIMUM_U16
    && EntriesFit(entries)
    && LocalsSize(entries, |entries|) <= MAXIMUM_U32
    && CentralsSize(entries, |entries|) <= MAXIMUM_U32
  }

  lemma {:induction false} LocalsGrow(entries: seq<ZipEntry>, i: nat, j: nat)
    requires i <= j <= |entries|
    ensures LocalsSize(entries, i) <= LocalsSize(entries, j)
  {
    if i < j {
      LocalsGrow(entries, i, j - 1);
    }
  }

  predicate SameFiles(a: seq<ZipEntry>, b: seq<ZipEntry>) {
    |a| == |b| && forall i :: 0 <= i < |a| ==> a[i].name == b[i].name && a[i].data == b[i].data
  }

  lemma {:induction false} SameCentralsSize(a: seq<ZipEntry>, b: seq<ZipEntry>, n: nat)
    requires SameFiles(a, b) && n <= |a|
    ensures CentralsSize(a, n) == CentralsSize(b, n)
  {
    if n > 0 {
      SameCentralsSize(a, b, n - 1);
    }
  }

  // ---- The reader.

  datatype File = File(name: seq<byte>, data: seq<byte>)

  function Files(entries: seq<ZipEntry>): seq<File> {
    seq(|entries|, i requires 0 <= i < |entries| => File(entries[i].name, entries[i].data))
  }

  // The fields local and central headers have in common, from version needed to extra field length.
  datatype Common = Common(flags: nat, compression: nat, checksum: nat, storedSize: nat, fileSize: nat,
                           nameLength: nat, extraLength: nat)

  const COMMON_SIZE: nat := 26

  function Number(bytes: seq<byte>, at: nat, width: nat): nat
    requires at + width <= |bytes|
  {
    FromLittleEndian(bytes[at..at + width])
  }

  function ReadCommon(bytes: seq<byte>, at: nat): Common
    requires at + COMMON_SIZE <= |bytes|
  {
    Common(Number(bytes, at + 2, 2), Number(bytes, at + 4, 2), Number(bytes, at + 10, 4), Number(bytes, at + 14, 4),
           Number(bytes, at + 18, 4), Number(bytes, at + 22, 2), Number(bytes, at + 24, 2))
  }

  // 4.3.7: the local header, and the stored file after it.
  function ReadLocal(bytes: seq<byte>, at: nat): Option<(Common, File)> {
    if at + LOCAL_HEADER_SIZE > |bytes| || Number(bytes, at, 4) != LOCAL_SIGNATURE then None
    else
      var c := ReadCommon(bytes, at + 4);
      var nameEnd := at + LOCAL_HEADER_SIZE + c.nameLength;
      var start := nameEnd + c.extraLength;
      if c.compression != 0 || c.storedSize != c.fileSize || start + c.storedSize > |bytes| then None
      else Some((c, File(bytes[at + LOCAL_HEADER_SIZE..nameEnd], bytes[start..start + c.storedSize])))
  }

  datatype CentralHeader = CentralHeader(common: Common, name: seq<byte>, localHeaderOffset: nat, next: nat)

  // 4.3.12: one header of the central directory, and where the next one starts.
  function ReadHeader(bytes: seq<byte>, at: nat): Option<CentralHeader> {
    if at + CENTRAL_HEADER_SIZE > |bytes| || Number(bytes, at, 4) != CENTRAL_SIGNATURE then None
    else
      var c := ReadCommon(bytes, at + 6);
      var nameEnd := at + CENTRAL_HEADER_SIZE + c.nameLength;
      var next := nameEnd + c.extraLength + Number(bytes, at + 32, 2);
      if next > |bytes| then None
      else Some(CentralHeader(c, bytes[at + CENTRAL_HEADER_SIZE..nameEnd], Number(bytes, at + 42, 4), next))
  }

  function LocalReader(bytes: seq<byte>): nat -> Option<(Common, File)> {
    (at: nat) => ReadLocal(bytes, at)
  }

  function HeaderReader(bytes: seq<byte>): nat -> Option<CentralHeader> {
    (at: nat) => ReadHeader(bytes, at)
  }

  // The two headers of a file must agree, and the data must have the checksum they state.
  function ReadFile(crc: seq<byte> -> nat, header: nat -> Option<CentralHeader>, local: nat -> Option<(Common, File)>, at: nat)
    : Option<(File, nat)>
  {
    match header(at)
    case None => None
    case Some(found) =>
      match local(found.localHeaderOffset)
      case None => None
      case Some((common, file)) => Checked(crc, found, common, file)
  }

  function Checked(crc: seq<byte> -> nat, header: CentralHeader, local: Common, file: File): Option<(File, nat)> {
    if local.(extraLength := 0) != header.common.(extraLength := 0) || file.name != header.name ||
       crc(file.data) != header.common.checksum
    then None
    else Some((file, header.next))
  }

  function FileReader(crc: seq<byte> -> nat, header: nat -> Option<CentralHeader>, local: nat -> Option<(Common, File)>)
    : nat -> Option<(File, nat)>
  {
    (at: nat) => ReadFile(crc, header, local, at)
  }

  function CentralReader(crc: seq<byte> -> nat, bytes: seq<byte>): nat -> Option<(File, nat)> {
    FileReader(crc, HeaderReader(bytes), LocalReader(bytes))
  }

  // count items one after the other, each found where the one before it ends.
  function Walk<T>(next: nat -> Option<(T, nat)>, at: nat, count: nat): Option<(seq<T>, nat)>
    decreases count
  {
    if count == 0 then Some(([], at))
    else
      match next(at)
      case None => None
      case Some((item, end)) =>
        match Walk(next, end, count - 1)
        case None => None
        case Some((items, stop)) => Some(([item] + items, stop))
  }

  // 4.3.16: the last record whose comment ends with the file.
  function FindEnd(bytes: seq<byte>, at: nat): (r: Option<nat>)
    requires at + END_RECORD_SIZE <= |bytes|
    ensures r.Some? ==> r.value + END_RECORD_SIZE <= |bytes|
  {
    if Number(bytes, at, 4) == END_SIGNATURE && at + END_RECORD_SIZE + Number(bytes, at + 20, 2) == |bytes| then Some(at)
    else if at == 0 then None else FindEnd(bytes, at - 1)
  }

  function ReadEnd(next: nat -> Option<(File, nat)>, bytes: seq<byte>, end: nat): Option<seq<File>>
    requires end + END_RECORD_SIZE <= |bytes|
  {
    var count, size, offset := Number(bytes, end + 10, 2), Number(bytes, end + 12, 4), Number(bytes, end + 16, 4);
    if Number(bytes, end + 4, 2) != 0 || Number(bytes, end + 6, 2) != 0 || Number(bytes, end + 8, 2) != count ||
       offset + size != end
    then None
    else
      match Walk(next, offset, count)
      case None => None
      case Some((files, stop)) => if stop == end then Some(files) else None
  }

  function Read(crc: seq<byte> -> nat, bytes: seq<byte>): Option<seq<File>> {
    if |bytes| < END_RECORD_SIZE then None
    else
      match FindEnd(bytes, |bytes| - END_RECORD_SIZE)
      case None => None
      case Some(end) => ReadEnd(CentralReader(crc, bytes), bytes, end)
  }

  // ---- Records that stand in the archive.

  function CommonOf(entry: ZipEntry): Common {
    Common(0x0800, 0, entry.checksum, |entry.data|, |entry.data|, |entry.name|, 0)
  }

  predicate LocalStands(bytes: seq<byte>, entry: ZipEntry) {
    var at := entry.localHeaderOffset;
    && at + LocalSize(entry) <= |bytes|
    && Number(bytes, at, 4) == LOCAL_SIGNATURE
    && ReadCommon(bytes, at + 4) == CommonOf(entry)
    && Holds(bytes, at + LOCAL_HEADER_SIZE, entry.name)
    && Holds(bytes, at + LOCAL_HEADER_SIZE + |entry.name|, entry.data)
  }

  predicate CentralStands(bytes: seq<byte>, at: nat, entry: ZipEntry) {
    && at + CentralSize(entry) <= |bytes|
    && Number(bytes, at, 4) == CENTRAL_SIGNATURE
    && ReadCommon(bytes, at + 6) == CommonOf(entry)
    && Number(bytes, at + 32, 2) == 0
    && Number(bytes, at + 42, 4) == entry.localHeaderOffset
    && Holds(bytes, at + CENTRAL_HEADER_SIZE, entry.name)
  }

  predicate EndStands(bytes: seq<byte>, at: nat, count: nat, size: nat, offset: nat) {
    && at + END_RECORD_SIZE == |bytes|
    && Number(bytes, at, 4) == END_SIGNATURE
    && Number(bytes, at + 4, 2) == 0 && Number(bytes, at + 6, 2) == 0
    && Number(bytes, at + 8, 2) == count && Number(bytes, at + 10, 2) == count
    && Number(bytes, at + 12, 4) == size && Number(bytes, at + 16, 4) == offset
    && Number(bytes, at + 20, 2) == 0
  }

  predicate Summed(crc: seq<byte> -> nat, zip: seq<ZipEntry>, n: nat)
    requires n <= |zip|
  {
    forall i {:trigger SummedAt(crc, zip, i)} :: 0 <= i < n ==> SummedAt(crc, zip, i)
  }

  predicate SummedAt(crc: seq<byte> -> nat, zip: seq<ZipEntry>, i: nat)
    requires i < |zip|
  {
    zip[i].checksum == crc(zip[i].data)
  }

  predicate LocalsStand(bytes: seq<byte>, zip: seq<ZipEntry>, n: nat)
    requires n <= |zip|
  {
    forall i {:trigger LocalStandsAt(bytes, zip, i)} :: 0 <= i < n ==> LocalStandsAt(bytes, zip, i)
  }

  predicate LocalStandsAt(bytes: seq<byte>, zip: seq<ZipEntry>, i: nat)
    requires i < |zip|
  {
    LocalStands(bytes, zip[i])
  }

  predicate CentralsStand(bytes: seq<byte>, offset: nat, zip: seq<ZipEntry>, n: nat)
    requires n <= |zip|
  {
    forall i {:trigger CentralStandsAt(bytes, offset, zip, i)} :: 0 <= i < n ==> CentralStandsAt(bytes, offset, zip, i)
  }

  predicate CentralStandsAt(bytes: seq<byte>, offset: nat, zip: seq<ZipEntry>, i: nat)
    requires i < |zip|
  {
    CentralStands(bytes, offset + CentralsSize(zip, i), zip[i])
  }

  // ---- What is written stays, and reads as what was meant.

  lemma {:induction false} NumberStays(a: seq<byte>, b: seq<byte>, at: nat, width: nat)
    requires a <= b && at + width <= |a|
    ensures Number(a, at, width) == Number(b, at, width)
  {
    assert b[at..at + width] == a[at..at + width];
  }

  lemma {:induction false} CommonStays(a: seq<byte>, b: seq<byte>, at: nat)
    requires a <= b && at + COMMON_SIZE <= |a|
    ensures ReadCommon(a, at) == ReadCommon(b, at)
  {
    NumberStays(a, b, at + 2, 2);
    NumberStays(a, b, at + 4, 2);
    NumberStays(a, b, at + 10, 4);
    NumberStays(a, b, at + 14, 4);
    NumberStays(a, b, at + 18, 4);
    NumberStays(a, b, at + 22, 2);
    NumberStays(a, b, at + 24, 2);
  }

  lemma {:induction false} HoldsStays(a: seq<byte>, b: seq<byte>, at: nat, piece: seq<byte>)
    requires a <= b && Holds(a, at, piece)
    ensures Holds(b, at, piece)
  {
    assert b[at..at + |piece|] == a[at..at + |piece|];
  }

  lemma {:induction false} LocalStays(a: seq<byte>, b: seq<byte>, entry: ZipEntry)
    requires a <= b && LocalStands(a, entry)
    ensures LocalStands(b, entry)
  {
    var at := entry.localHeaderOffset;
    NumberStays(a, b, at, 4);
    CommonStays(a, b, at + 4);
    HoldsStays(a, b, at + LOCAL_HEADER_SIZE, entry.name);
    HoldsStays(a, b, at + LOCAL_HEADER_SIZE + |entry.name|, entry.data);
  }

  lemma {:induction false} CentralStays(a: seq<byte>, b: seq<byte>, at: nat, entry: ZipEntry)
    requires a <= b && CentralStands(a, at, entry)
    ensures CentralStands(b, at, entry)
  {
    NumberStays(a, b, at, 4);
    CommonStays(a, b, at + 6);
    NumberStays(a, b, at + 32, 2);
    NumberStays(a, b, at + 42, 4);
    HoldsStays(a, b, at + CENTRAL_HEADER_SIZE, entry.name);
  }

  lemma {:induction false} LocalsRemain(a: seq<byte>, b: seq<byte>, zip: seq<ZipEntry>, n: nat)
    requires n <= |zip| && a <= b && LocalsStand(a, zip, n)
    ensures LocalsStand(b, zip, n)
  {
    forall i | 0 <= i < n ensures LocalStandsAt(b, zip, i) {
      assert LocalStandsAt(a, zip, i);
      LocalStays(a, b, zip[i]);
    }
  }

  lemma {:induction false} LocalsStay(crc: seq<byte> -> nat, a: seq<byte>, b: seq<byte>, were: seq<ZipEntry>,
                                      zip: seq<ZipEntry>, n: nat)
    requires n < |zip| == |were| && were == zip[n := were[n]]
    requires a <= b && LocalsStand(a, were, n) && LocalStands(b, zip[n])
    requires Summed(crc, were, n) && zip[n].checksum == crc(zip[n].data)
    ensures LocalsStand(b, zip, n + 1) && Summed(crc, zip, n + 1)
  {
    forall i | 0 <= i < n + 1 ensures SummedAt(crc, zip, i) {
      if i < n {
        assert SummedAt(crc, were, i) && were[i] == zip[i];
      }
    }
    forall i | 0 <= i < n + 1 ensures LocalStandsAt(b, zip, i) {
      if i < n {
        assert LocalStandsAt(a, were, i) && were[i] == zip[i];
        LocalStays(a, b, zip[i]);
      }
    }
  }

  lemma {:induction false} CentralsRemain(a: seq<byte>, b: seq<byte>, offset: nat, zip: seq<ZipEntry>, n: nat)
    requires n <= |zip| && a <= b && CentralsStand(a, offset, zip, n)
    ensures CentralsStand(b, offset, zip, n)
  {
    forall i | 0 <= i < n ensures CentralStandsAt(b, offset, zip, i) {
      assert CentralStandsAt(a, offset, zip, i);
      CentralStays(a, b, offset + CentralsSize(zip, i), zip[i]);
    }
  }

  lemma {:induction false} CentralsStay(a: seq<byte>, b: seq<byte>, offset: nat, zip: seq<ZipEntry>, n: nat)
    requires n < |zip| && a <= b && CentralsStand(a, offset, zip, n)
    requires CentralStandsAt(b, offset, zip, n)
    ensures CentralsStand(b, offset, zip, n + 1)
  {
    CentralsRemain(a, b, offset, zip, n);
  }

  lemma {:induction false} AppendedNumber(before: seq<byte>, n: nat, width: nat)
    requires n < Power256(width)
    ensures Number(before + LittleEndian(n, width), |before|, width) == n
  {
    var after := before + LittleEndian(n, width);
    assert after[|before|..|before| + width] == LittleEndian(n, width);
    LittleEndianReadsBack(n, width);
  }

  function WithFlags(before: seq<byte>, version: u16, flags: u16, compression: u16, time: u16): seq<byte> {
    before + LittleEndian(version, 2) + LittleEndian(flags, 2) + LittleEndian(compression, 2)
      + LittleEndian(time, 2) + LittleEndian(time, 2)
  }

  function WithCommon(before: seq<byte>, entry: ZipEntry): seq<byte> {
    WithSizes(WithFlags(before, 20, 0x0800, 0, 0), entry.checksum, ToU32(|entry.data|))
      + LittleEndian(ToU16(|entry.name|), 2) + LittleEndian(0, 2)
  }

  lemma {:induction false} FlagsWritten(before: seq<byte>, version: u16, flags: u16, compression: u16, time: u16)
    ensures
      var after := WithFlags(before, version, flags, compression, time);
      && before <= after && |after| == |before| + 10
      && Number(after, |before| + 2, 2) == flags && Number(after, |before| + 4, 2) == compression
  {
    PowersOf256();
    var after := WithFlags(before, version, flags, compression, time);
    var a := before + LittleEndian(version, 2);
    var b := a + LittleEndian(flags, 2);
    var c := b + LittleEndian(compression, 2);
    AppendedNumber(a, flags, 2);
    AppendedNumber(b, compression, 2);
    NumberStays(b, after, |a|, 2);
    NumberStays(c, after, |b|, 2);
  }

  function WithSizes(before: seq<byte>, checksum: u32, storedSize: u32): seq<byte> {
    before + LittleEndian(checksum, 4) + LittleEndian(storedSize, 4) + LittleEndian(storedSize, 4)
  }

  lemma {:induction false} SizesWritten(before: seq<byte>, checksum: u32, storedSize: u32)
    ensures
      var after := WithSizes(before, checksum, storedSize);
      && before <= after && |after| == |before| + 12
      && Number(after, |before|, 4) == checksum
      && Number(after, |before| + 4, 4) == storedSize
      && Number(after, |before| + 8, 4) == storedSize
  {
    PowersOf256();
    var after := WithSizes(before, checksum, storedSize);
    var a := before + LittleEndian(checksum, 4);
    var b := a + LittleEndian(storedSize, 4);
    AppendedNumber(before, checksum, 4);
    NumberStays(a, after, |before|, 4);
    AppendedNumber(a, storedSize, 4);
    NumberStays(b, after, |a|, 4);
    AppendedNumber(b, storedSize, 4);
  }

  lemma {:induction false} LengthsWritten(before: seq<byte>, nameLength: u16, extraLength: u16)
    ensures
      var after := before + LittleEndian(nameLength, 2) + LittleEndian(extraLength, 2);
      && before <= after && |after| == |before| + 4
      && Number(after, |before|, 2) == nameLength && Number(after, |before| + 2, 2) == extraLength
  {
    PowersOf256();
    var a := before + LittleEndian(nameLength, 2);
    AppendedNumber(before, nameLength, 2);
    NumberStays(a, a + LittleEndian(extraLength, 2), |before|, 2);
    AppendedNumber(a, extraLength, 2);
  }

  // No cast loses anything of an entry that fits.
  lemma {:induction false} CastsAreLossless(entry: ZipEntry)
    requires Fits(entry)
    ensures ToU32(|entry.data|) == |entry.data| && ToU16(|entry.name|) == |entry.name|
  {
  }

  lemma {:induction false} CommonWritten(before: seq<byte>, entry: ZipEntry)
    requires Fits(entry)
    ensures before <= WithCommon(before, entry) && |WithCommon(before, entry)| == |before| + COMMON_SIZE
    ensures ReadCommon(WithCommon(before, entry), |before|) == CommonOf(entry)
  {
    CastsAreLossless(entry);
    var flags := WithFlags(before, 20, 0x0800, 0, 0);
    var sizes := WithSizes(flags, entry.checksum, ToU32(|entry.data|));
    FlagsWritten(before, 20, 0x0800, 0, 0);
    SizesWritten(flags, entry.checksum, ToU32(|entry.data|));
    LengthsWritten(sizes, ToU16(|entry.name|), 0);
    CommonReads(flags, sizes, WithCommon(before, entry), |before|, CommonOf(entry));
  }

  lemma {:induction false} CommonReads(flags: seq<byte>, sizes: seq<byte>, all: seq<byte>, at: nat, c: Common)
    requires flags <= sizes <= all && |flags| == at + 10 && |sizes| == at + 22 && |all| == at + COMMON_SIZE
    requires Number(flags, at + 2, 2) == c.flags && Number(flags, at + 4, 2) == c.compression
    requires Number(sizes, at + 10, 4) == c.checksum
    requires Number(sizes, at + 14, 4) == c.storedSize && Number(sizes, at + 18, 4) == c.fileSize
    requires Number(all, at + 22, 2) == c.nameLength && Number(all, at + 24, 2) == c.extraLength
    ensures ReadCommon(all, at) == c
  {
    NumberStays(flags, all, at + 2, 2);
    NumberStays(flags, all, at + 4, 2);
    NumberStays(sizes, all, at + 10, 4);
    NumberStays(sizes, all, at + 14, 4);
    NumberStays(sizes, all, at + 18, 4);
  }

  lemma {:induction false} AppendedPiece(before: seq<byte>, piece: seq<byte>, more: seq<byte>)
    ensures Holds(before + piece + more, |before|, piece)
  {
    assert (before + piece + more)[|before|..|before| + |piece|] == piece;
  }

  lemma {:induction false} HeaderWritten(before: seq<byte>, signature: u32, versions: seq<byte>, entry: ZipEntry,
                                         more: seq<byte>)
    requires Fits(entry)
    ensures
      var start := before + LittleEndian(signature, 4) + versions;
      var archive := WithCommon(start, entry) + more;
      && before <= archive
      && |archive| == |start| + COMMON_SIZE + |more|
      && Number(archive, |before|, 4) == signature
      && ReadCommon(archive, |start|) == CommonOf(entry)
  {
    PowersOf256();
    var signed := before + LittleEndian(signature, 4);
    var start := signed + versions;
    var header := WithCommon(start, entry);
    AppendedNumber(before, signature, 4);
    CommonWritten(start, entry);
    NumberStays(signed, header + more, |before|, 4);
    CommonStays(header, header + more, |start|);
  }

  lemma {:induction false} LocalWritten(before: seq<byte>, header: seq<byte>, archive: seq<byte>, entry: ZipEntry)
    requires Fits(entry) && entry.localHeaderOffset == |before|
    requires header == WithCommon(before + LittleEndian(LOCAL_SIGNATURE, 4), entry)
    requires archive == header + entry.name + entry.data
    ensures before <= archive && |archive| == |before| + LocalSize(entry)
    ensures LocalStands(archive, entry)
  {
    var signed := before + LittleEndian(LOCAL_SIGNATURE, 4);
    assert signed + [] == signed;
    assert archive == header + (entry.name + entry.data) + [];
    assert archive == header + (entry.name + entry.data);
    HeaderWritten(before, LOCAL_SIGNATURE, [], entry, entry.name + entry.data);
    AppendedPiece(header, entry.name, entry.data);
    AppendedPiece(header + entry.name, entry.data, []);
    assert archive == header + entry.name + entry.data + [];
  }

  function WithTail(common: seq<byte>, entry: ZipEntry): seq<byte> {
    common + LittleEndian(0, 2) + LittleEndian(0, 2) + LittleEndian(0, 2) + LittleEndian(0, 4)
      + LittleEndian(entry.localHeaderOffset, 4) + entry.name
  }

  lemma {:induction false} TailWritten(common: seq<byte>, entry: ZipEntry) returns (more: seq<byte>)
    ensures WithTail(common, entry) == common + more && |more| == 14 + |entry.name|
    ensures Number(common + more, |common|, 2) == 0
    ensures Number(common + more, |common| + 10, 4) == entry.localHeaderOffset
    ensures Holds(common + more, |common| + 14, entry.name)
  {
    PowersOf256();
    var archive := WithTail(common, entry);
    var comment := common + LittleEndian(0, 2);
    var attributes := comment + LittleEndian(0, 2) + LittleEndian(0, 2) + LittleEndian(0, 4);
    var offset := attributes + LittleEndian(entry.localHeaderOffset, 4);
    AppendedNumber(common, 0, 2);
    NumberStays(comment, archive, |common|, 2);
    AppendedNumber(attributes, entry.localHeaderOffset, 4);
    NumberStays(offset, archive, |attributes|, 4);
    AppendedPiece(offset, entry.name, []);
    more := archive[|common|..];
    assert archive == common + more;
    assert offset + entry.name + [] == archive;
  }

  lemma {:induction false} CentralWritten(before: seq<byte>, start: seq<byte>, common: seq<byte>, archive: seq<byte>,
                                          entry: ZipEntry)
    requires Fits(entry)
    requires start == before + LittleEndian(CENTRAL_SIGNATURE, 4) + LittleEndian(20, 2)
    requires common == WithCommon(start, entry) && archive == WithTail(common, entry)
    ensures before <= archive && |archive| == |before| + CentralSize(entry)
    ensures CentralStands(archive, |before|, entry)
  {
    var more := TailWritten(common, entry);
    HeaderWritten(before, CENTRAL_SIGNATURE, LittleEndian(20, 2), entry, more);
  }

  function WithCounts(before: seq<byte>, signature: u32, disk: u16, count: u16): seq<byte> {
    before + LittleEndian(signature, 4) + LittleEndian(disk, 2) + LittleEndian(disk, 2)
      + LittleEndian(count, 2) + LittleEndian(count, 2)
  }

  function WithExtent(before: seq<byte>, size: u32, offset: u32, comment: u16): seq<byte> {
    before + LittleEndian(size, 4) + LittleEndian(offset, 4) + LittleEndian(comment, 2)
  }

  lemma {:induction false} CountsWritten(before: seq<byte>, signature: u32, disk: u16, count: u16)
    ensures
      var after, at := WithCounts(before, signature, disk, count), |before|;
      && before <= after && |after| == at + 12
      && Number(after, at, 4) == signature && Number(after, at + 4, 2) == disk && Number(after, at + 6, 2) == disk
      && Number(after, at + 8, 2) == count && Number(after, at + 10, 2) == count
  {
    PowersOf256();
    var after := WithCounts(before, signature, disk, count);
    var a := before + LittleEndian(signature, 4);
    var b := a + LittleEndian(disk, 2);
    var c := b + LittleEndian(disk, 2);
    var d := c + LittleEndian(count, 2);
    AppendedNumber(before, signature, 4);
    NumberStays(a, after, |before|, 4);
    AppendedNumber(a, disk, 2);
    NumberStays(b, after, |a|, 2);
    AppendedNumber(b, disk, 2);
    NumberStays(c, after, |b|, 2);
    AppendedNumber(c, count, 2);
    NumberStays(d, after, |c|, 2);
    AppendedNumber(d, count, 2);
  }

  lemma {:induction false} ExtentWritten(before: seq<byte>, size: u32, offset: u32, comment: u16)
    ensures
      var after, at := WithExtent(before, size, offset, comment), |before|;
      && before <= after && |after| == at + 10
      && Number(after, at, 4) == size && Number(after, at + 4, 4) == offset && Number(after, at + 8, 2) == comment
  {
    PowersOf256();
    var after := WithExtent(before, size, offset, comment);
    var a := before + LittleEndian(size, 4);
    var b := a + LittleEndian(offset, 4);
    AppendedNumber(before, size, 4);
    NumberStays(a, after, |before|, 4);
    AppendedNumber(a, offset, 4);
    NumberStays(b, after, |a|, 4);
    AppendedNumber(b, comment, 2);
  }

  lemma {:induction false} EndReads(counts: seq<byte>, archive: seq<byte>, at: nat, count: nat, size: nat, offset: nat)
    requires counts <= archive && |counts| == at + 12 && |archive| == at + END_RECORD_SIZE
    requires Number(counts, at, 4) == END_SIGNATURE
    requires Number(counts, at + 4, 2) == 0 && Number(counts, at + 6, 2) == 0
    requires Number(counts, at + 8, 2) == count && Number(counts, at + 10, 2) == count
    requires Number(archive, at + 12, 4) == size && Number(archive, at + 16, 4) == offset && Number(archive, at + 20, 2) == 0
    ensures EndStands(archive, at, count, size, offset)
  {
    NumberStays(counts, archive, at, 4);
    NumberStays(counts, archive, at + 4, 2);
    NumberStays(counts, archive, at + 6, 2);
    NumberStays(counts, archive, at + 8, 2);
    NumberStays(counts, archive, at + 10, 2);
  }

  lemma {:induction false} EndWritten(before: seq<byte>, counts: seq<byte>, archive: seq<byte>, count: u16, size: u32,
                                      offset: u32, none: u16)
    requires none == 0
    requires counts == WithCounts(before, END_SIGNATURE, none, count) && archive == WithExtent(counts, size, offset, none)
    ensures before <= archive && |archive| == |before| + END_RECORD_SIZE
    ensures EndStands(archive, |before|, count, size, offset)
  {
    CountsWritten(before, END_SIGNATURE, none, count);
    ExtentWritten(counts, size, offset, none);
    EndReads(counts, archive, |before|, count, size, offset);
  }

  // ---- The whole archive.

  lemma {:induction false} LocalReadsBack(bytes: seq<byte>, entry: ZipEntry)
    requires LocalStands(bytes, entry)
    ensures LocalReader(bytes)(entry.localHeaderOffset) == Some((CommonOf(entry), File(entry.name, entry.data)))
  {
  }

  lemma {:induction false} HeaderReadsBack(bytes: seq<byte>, at: nat, entry: ZipEntry)
    requires CentralStands(bytes, at, entry)
    ensures HeaderReader(bytes)(at)
         == Some(CentralHeader(CommonOf(entry), entry.name, entry.localHeaderOffset, at + CentralSize(entry)))
  {
  }

  // A file whose headers are read back, at a place of the directory.
  predicate ReadsBack(header: nat -> Option<CentralHeader>, local: nat -> Option<(Common, File)>, at: nat, entry: ZipEntry) {
    && local(entry.localHeaderOffset) == Some((CommonOf(entry), File(entry.name, entry.data)))
    && header(at) == Some(CentralHeader(CommonOf(entry), entry.name, entry.localHeaderOffset, at + CentralSize(entry)))
  }

  lemma {:induction false} FileReadsBack(crc: seq<byte> -> nat, header: nat -> Option<CentralHeader>,
                                         local: nat -> Option<(Common, File)>, at: nat, entry: ZipEntry)
    requires ReadsBack(header, local, at, entry) && entry.checksum == crc(entry.data)
    ensures FileReader(crc, header, local)(at) == Some((File(entry.name, entry.data), at + CentralSize(entry)))
  {
  }

  ghost predicate VisitsAt(next: nat -> Option<(File, nat)>, offset: nat, zip: seq<ZipEntry>, i: nat)
    requires i < |zip|
  {
    next(offset + CentralsSize(zip, i)) == Some((Files(zip)[i], offset + CentralsSize(zip, i + 1)))
  }

  lemma {:induction false} Visits(next: nat -> Option<(File, nat)>, offset: nat, zip: seq<ZipEntry>, n: nat, at: nat)
    requires n < |zip| && at == offset + CentralsSize(zip, n)
    requires next(at) == Some((File(zip[n].name, zip[n].data), at + CentralSize(zip[n])))
    ensures VisitsAt(next, offset, zip, n)
  {
  }

  lemma {:induction false} WalkVisits(next: nat -> Option<(File, nat)>, offset: nat, zip: seq<ZipEntry>, n: nat)
    requires n <= |zip|
    requires forall i {:trigger VisitsAt(next, offset, zip, i)} :: 0 <= i < |zip| ==> VisitsAt(next, offset, zip, i)
    ensures Walk(next, offset + CentralsSize(zip, n), |zip| - n) == Some((Files(zip)[n..], offset + CentralsSize(zip, |zip|)))
    decreases |zip| - n
  {
    if n == |zip| {
      assert Files(zip)[n..] == [];
    } else {
      assert VisitsAt(next, offset, zip, n);
      WalkVisits(next, offset, zip, n + 1);
      assert Files(zip)[n..] == [Files(zip)[n]] + Files(zip)[n + 1..];
    }
  }

  predicate ReadsBackAt(header: nat -> Option<CentralHeader>, local: nat -> Option<(Common, File)>, offset: nat,
                        zip: seq<ZipEntry>, i: nat)
    requires i < |zip|
  {
    ReadsBack(header, local, offset + CentralsSize(zip, i), zip[i])
  }

  predicate AllReadBack(header: nat -> Option<CentralHeader>, local: nat -> Option<(Common, File)>, offset: nat, zip: seq<ZipEntry>) {
    forall i {:trigger ReadsBackAt(header, local, offset, zip, i)} :: 0 <= i < |zip| ==> ReadsBackAt(header, local, offset, zip, i)
  }

  lemma {:induction false} HeadersReadBack(bytes: seq<byte>, offset: nat, zip: seq<ZipEntry>)
    requires LocalsStand(bytes, zip, |zip|) && CentralsStand(bytes, offset, zip, |zip|)
    ensures AllReadBack(HeaderReader(bytes), LocalReader(bytes), offset, zip)
  {
    forall i | 0 <= i < |zip| ensures ReadsBackAt(HeaderReader(bytes), LocalReader(bytes), offset, zip, i) {
      assert LocalStandsAt(bytes, zip, i) && CentralStandsAt(bytes, offset, zip, i);
      HeadersOfOne(bytes, zip[i], offset + CentralsSize(zip, i));
    }
  }

  lemma {:induction false} HeadersOfOne(bytes: seq<byte>, entry: ZipEntry, at: nat)
    requires LocalStands(bytes, entry) && CentralStands(bytes, at, entry)
    ensures ReadsBack(HeaderReader(bytes), LocalReader(bytes), at, entry)
  {
    LocalReadsBack(bytes, entry);
    HeaderReadsBack(bytes, at, entry);
  }

  lemma {:induction false} DirectoryReadsBack(crc: seq<byte> -> nat, header: nat -> Option<CentralHeader>,
                                              local: nat -> Option<(Common, File)>, offset: nat, zip: seq<ZipEntry>)
    requires AllReadBack(header, local, offset, zip) && Summed(crc, zip, |zip|)
    ensures Walk(FileReader(crc, header, local), offset, |zip|) == Some((Files(zip), offset + CentralsSize(zip, |zip|)))
  {
    var next := FileReader(crc, header, local);
    forall i | 0 <= i < |zip| ensures VisitsAt(next, offset, zip, i) {
      assert SummedAt(crc, zip, i) && ReadsBackAt(header, local, offset, zip, i);
      FileReadsBack(crc, header, local, offset + CentralsSize(zip, i), zip[i]);
      Visits(next, offset, zip, i, offset + CentralsSize(zip, i));
    }
    WalkVisits(next, offset, zip, 0);
    assert Files(zip)[0..] == Files(zip);
  }

  lemma {:induction false} EndReadsBack(next: nat -> Option<(File, nat)>, bytes: seq<byte>, at: nat, count: nat,
                                        size: nat,
                                        offset: nat, files: seq<File>)
    requires EndStands(bytes, at, count, size, offset) && offset + size == at
    requires Walk(next, offset, count) == Some((files, at))
    ensures FindEnd(bytes, |bytes| - END_RECORD_SIZE) == Some(at) && ReadEnd(next, bytes, at) == Some(files)
  {
    EndIsFound(bytes, at);
  }

  lemma {:induction false} DirectoryIsTheArchive(crc: seq<byte> -> nat, bytes: seq<byte>, offset: nat,
                                                 zip: seq<ZipEntry>)
    requires LocalsStand(bytes, zip, |zip|) && CentralsStand(bytes, offset, zip, |zip|) && Summed(crc, zip, |zip|)
    requires EndStands(bytes, offset + CentralsSize(zip, |zip|), |zip|, CentralsSize(zip, |zip|), offset)
    ensures Read(crc, bytes) == Some(Files(zip))
  {
    var size := CentralsSize(zip, |zip|);
    HeadersReadBack(bytes, offset, zip);
    DirectoryReadsBack(crc, HeaderReader(bytes), LocalReader(bytes), offset, zip);
    EndReadsBack(CentralReader(crc, bytes), bytes, offset + size, |zip|, size, offset, Files(zip));
  }

  lemma {:induction false} EndIsFound(bytes: seq<byte>, at: nat)
    requires at + END_RECORD_SIZE == |bytes| && Number(bytes, at, 4) == END_SIGNATURE && Number(bytes, at + 20, 2) == 0
    ensures FindEnd(bytes, at) == Some(at)
  {
  }

  lemma {:induction false} ArchiveReadsBack(crc: seq<byte> -> nat, locals: seq<byte>, directory: seq<byte>,
                                            archive: seq<byte>, zip: seq<ZipEntry>)
    requires locals <= directory <= archive
    requires |directory| == |locals| + CentralsSize(zip, |zip|) && Summed(crc, zip, |zip|)
    requires LocalsStand(locals, zip, |zip|) && CentralsStand(directory, |locals|, zip, |zip|)
    requires EndStands(archive, |directory|, |zip|, CentralsSize(zip, |zip|), |locals|)
    ensures Read(crc, archive) == Some(Files(zip))
  {
    LocalsRemain(locals, archive, zip, |zip|);
    CentralsRemain(directory, archive, |locals|, zip, |zip|);
    DirectoryIsTheArchive(crc, archive, |locals|, zip);
  }
}
