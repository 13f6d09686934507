/** Compressing a report and decoding the result: when it works and what comes back. */
module RoundTrip {
  import opened Wrappers
  import opened Bits
  import opened Versions
  import opened ReportFormat

  // ------------------------------------------------------------------ records

  lemma Powers()
    ensures Pow2(4) == 16 && Pow2(6) == 64 && Pow2(8) == 256 && Pow2(15) == 32768
  {
  }

  /** The encoder's branches on one instance amount to: raise unless the finding is encodable. */
  lemma EncodeInstanceMeaning(t: TypeTable, name: string, i: Instance)
    ensures var f := FindingOf(name, i);
            EncodeInstance(t, name, i) ==
            if Encodable(t, f) then Ok(Record(t, f)) else Raised
  {
  }

  lemma DecodeShort(t: TypeTable, b: BitString, id: BitString, start: BitString, rest: BitString)
    requires |id| == 8 && |start| == 15 && id in t.names && b == id + ([false] + start) + rest
    ensures b != [] && DecodeRecord(t, b) == Ok((Finding(t.names[id], Value(start), Value(start)), rest))
  {
    var lines := [false] + start;
    assert Slice(b, 0, 8) == id && Slice(b, 8, 24) == lines && Drop(b, 24) == rest;
    assert Slice(lines, 1, 16) == start;
  }

  lemma DecodeLong(t: TypeTable, b: BitString, id: BitString, start: BitString, diff: BitString, rest: BitString)
    requires |id| == 8 && |start| == 15 && |diff| == 8 && id in t.names
    requires b == id + ([true] + start) + diff + rest
    ensures b != []
    ensures DecodeRecord(t, b) == Ok((Finding(t.names[id], Value(start), Value(start) + Value(diff)), rest))
  {
    var lines := [true] + start;
    assert Slice(b, 0, 8) == id && Slice(b, 8, 24) == lines;
    assert Slice(b, 24, 32) == diff && Drop(b, 32) == rest;
    assert Slice(lines, 1, 16) == start;
  }

  /** The line fields of a record. */
  function FieldBits(f: Finding): (BitString, BitString)
    requires 0 <= f.start <= f.end
  {
    (Binary(f.start, 15), Binary(f.end - f.start, 8))
  }

  lemma FieldValues(t: TypeTable, f: Finding)
    requires Encodable(t, f)
    ensures var (start, diff) := FieldBits(f);
            |start| == 15 && Value(start) == f.start && |diff| == 8 && Value(diff) == f.end - f.start
  {
    Powers();
    ValueOfBinary(f.start, 15);
    ValueOfBinary(f.end - f.start, 8);
  }

  lemma RecordShape(t: TypeTable, f: Finding)
    requires Encodable(t, f)
    ensures var (start, diff) := FieldBits(f);
            Record(t, f) == if f.start == f.end then t.ids[f.name] + ([false] + start)
                            else t.ids[f.name] + ([true] + start) + diff
  {
    var id, flag, start := t.ids[f.name], [f.start != f.end], Binary(f.start, 15);
    assert id + flag + start == id + (flag + start);
  }

  lemma DecodeOfParts(t: TypeTable, f: Finding, b: BitString, start: BitString, diff: BitString, rest: BitString)
    requires ValidTable(t) && Encodable(t, f)
    requires |start| == 15 && Value(start) == f.start && |diff| == 8 && Value(diff) == f.end - f.start
    requires b == (if f.start == f.end then t.ids[f.name] + ([false] + start)
                   else t.ids[f.name] + ([true] + start) + diff) + rest
    ensures b != [] && DecodeRecord(t, b) == Ok((f, rest))
  {
    if f.start == f.end {
      DecodeShort(t, b, t.ids[f.name], start, rest);
    } else {
      DecodeLong(t, b, t.ids[f.name], start, diff, rest);
    }
  }

  /** Decoding a record followed by anything gives back the finding and leaves the rest. */
  lemma DecodeOfRecord(t: TypeTable, f: Finding, rest: BitString)
    requires ValidTable(t) && Encodable(t, f)
    ensures Record(t, f) + rest != []
    ensures DecodeRecord(t, Record(t, f) + rest) == Ok((f, rest))
  {
    var (start, diff) := FieldBits(f);
    FieldValues(t, f);
    RecordShape(t, f);
    DecodeOfParts(t, f, Record(t, f) + rest, start, diff, rest);
  }

  lemma {:induction false} DecodeOfRecords(t: TypeTable, fs: seq<Finding>)
    requires ValidTable(t) && AllEncodable(t, fs)
    ensures DecodeRecords(t, Records(t, fs)) == Ok(fs)
  {
    if fs != [] {
      var rest := Records(t, fs[1..]);
      DecodeOfRecord(t, fs[0], rest);
      DecodeOfRecords(t, fs[1..]);
      assert Records(t, fs) == Record(t, fs[0]) + rest;
      assert fs == [fs[0]] + fs[1..];
    }
  }

  function Count(long: bool, fs: seq<Finding>): nat {
    if fs == [] then 0
    else (if (fs[0].start != fs[0].end) == long then 1 else 0) + Count(long, fs[1..])
  }

  lemma {:induction false} RecordsLength(t: TypeTable, fs: seq<Finding>)
    requires ValidTable(t) && AllEncodable(t, fs)
    ensures |Records(t, fs)| == 24 * Count(false, fs) + 32 * Count(true, fs)
  {
    if fs != [] {
      RecordsLength(t, fs[1..]);
    }
  }

  // ------------------------------------------------------------------- header

  predicate HeaderFits(r: Report) {
    var v := ParseVersion(r.version);
    && v.Ok? && 0 <= v.value.major < 16 && 0 <= v.value.minor < 16 && 0 <= v.value.patch < 64
    && r.auditState in {4, 5}
    && r.status in {"success", "error"}
  }

  lemma HeaderRoundTrip(r: Report)
    ensures var e := EncodeHeader(r.version, r.auditState, r.status);
            && (e.Ok? <==> HeaderFits(r))
            && (e.Ok? ==>
                  && |e.value| == HEADER_SIZE
                  && DecodeHeader(e.value)
                     == Ok((VersionText(ParseVersion(r.version).value), r.auditState, r.status)))
  {
    Powers();
    if HeaderFits(r) {
      var v := ParseVersion(r.version).value;
      var major, minor, patch := Binary(v.major, 4), Binary(v.minor, 4), Binary(v.patch, 6);
      ValueOfBinary(v.major, 4);
      ValueOfBinary(v.minor, 4);
      ValueOfBinary(v.patch, 6);
      var b := EncodeHeader(r.version, r.auditState, r.status).value;
      assert Slice(b, 0, 4) == major;
      assert Slice(b, 4, 8) == minor;
      assert Slice(b, 8, 14) == patch;
    }
  }

  // ------------------------------------------------------------ whole reports

  predicate Compressible(t: TypeTable, r: Report) {
    && HeaderFits(r)
    && |r.contractHash| == 64 && IsHex(r.contractHash)
    && AllEncodable(t, Findings(r.analyzersReports))
  }

  /** The bits that are written, before conversion to hex. */
  function ReportBits(t: TypeTable, r: Report): BitString
    requires Compressible(t, r)
  {
    HeaderRoundTrip(r);
    KeepFirstEncodable(t, Findings(r.analyzersReports));
    EncodeHeader(r.version, r.auditState, r.status).value
    + Nibbles(r.contractHash)
    + Records(t, KeepFirst(Findings(r.analyzersReports)))
  }

  lemma ReportBitsLength(t: TypeTable, r: Report)
    requires ValidTable(t) && Compressible(t, r)
    ensures var fs := KeepFirst(Findings(r.analyzersReports));
            |ReportBits(t, r)| == 4 * (68 + 6 * Count(false, fs) + 8 * Count(true, fs))
  {
    HeaderRoundTrip(r);
    KeepFirstEncodable(t, Findings(r.analyzersReports));
    RecordsLength(t, KeepFirst(Findings(r.analyzersReports)));
  }

  lemma CompressParts(t: TypeTable, r: Report)
    ensures !Compressible(t, r) ==> Compress(t, r).Raised?
    ensures Compressible(t, r) ==> Compress(t, r) == ToHex(ReportBits(t, r))
  {
  }

  lemma ToHexSucceeds(b: BitString, digits: nat)
    requires |b| == 4 * digits && digits >= 68
    ensures ToHex(b).Ok? && |b| % 4 == 0 && |b| >= 272
  {
  }

  lemma CompressBits(t: TypeTable, r: Report)
    requires ValidTable(t)
    ensures Compress(t, r).Ok? <==> Compressible(t, r)
    ensures Compressible(t, r) ==>
      && |ReportBits(t, r)| % 4 == 0 && |ReportBits(t, r)| >= 272
      && Compress(t, r) == ToHex(ReportBits(t, r))
  {
    CompressParts(t, r);
    if Compressible(t, r) {
      ReportBitsLength(t, r);
      var fs := KeepFirst(Findings(r.analyzersReports));
      ToHexSucceeds(ReportBits(t, r), 68 + 6 * Count(false, fs) + 8 * Count(true, fs));
    }
  }

  /** Compression succeeds exactly on the reports whose parts fit the format, and the number
      of hex digits is 4 for the header, 64 for the hash, 6 or 8 for each distinct finding. */
  lemma CompressSucceedsIff(t: TypeTable, r: Report)
    requires ValidTable(t)
    ensures Compress(t, r).Ok? <==>
      && HeaderFits(r)
      && |r.contractHash| == 64 && IsHex(r.contractHash)
      && forall f :: f in Findings(r.analyzersReports) ==>
           f.name in t.ids && 0 <= f.start <= 32767 && f.start <= f.end <= f.start + 255
    ensures Compress(t, r).Ok? ==>
      var fs := KeepFirst(Findings(r.analyzersReports));
      |Compress(t, r).value| == 68 + 6 * Count(false, fs) + 8 * Count(true, fs)
  {
    CompressBits(t, r);
    var all := Findings(r.analyzersReports);
    assert AllEncodable(t, all) <==> forall f :: f in all ==> Encodable(t, f);
    if Compressible(t, r) {
      ReportBitsLength(t, r);
    }
  }

  /** What decoding gives back: normalised version, upper-cased hash, and the distinct findings
      grouped by type under one analyzer. */
  function Canonical(r: Report): Report
    requires HeaderFits(r)
  {
    ProducedReport(VersionText(ParseVersion(r.version).value), r.auditState, r.status,
                   Upper(r.contractHash), KeepFirst(Findings(r.analyzersReports)))
  }

  lemma HashPart(s: string)
    requires |s| == 64 && IsHex(s)
    ensures |Nibbles(s)| == CONTRACT_HASH_SIZE
    ensures ToHex(Nibbles(s)) == Ok(Upper(s))
  {
    ToHexOfNibbles(s);
  }

  /** Every report that compresses comes back in canonical form. */
  lemma CompressThenDecode(t: TypeTable, r: Report)
    requires ValidTable(t) && Compress(t, r).Ok?
    ensures HeaderFits(r)
    ensures Decode(t, Compress(t, r).value) == Ok(Canonical(r))
  {
    CompressBits(t, r);
    ToHexRoundTrip(ReportBits(t, r));
    HeaderRoundTrip(r);
    HashPart(r.contractHash);
    var fs := KeepFirst(Findings(r.analyzersReports));
    KeepFirstEncodable(t, Findings(r.analyzersReports));
    DecodeOfRecords(t, fs);
    var header := EncodeHeader(r.version, r.auditState, r.status).value;
    var hash, records := Nibbles(r.contractHash), Records(t, fs);
    var b := ReportBits(t, r);
    assert Slice(b, 0, HEADER_SIZE) == header;
    assert Slice(b, HEADER_SIZE, VULNERABILITIES_START) == hash;
    assert Drop(b, VULNERABILITIES_START) == records;
  }
}
