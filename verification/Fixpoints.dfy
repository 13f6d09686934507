/** Exactly which hex strings survive decoding and compressing again. */
module Fixpoints {
  import opened Wrappers
  import opened Bits
  import opened Versions
  import opened ReportFormat
  import opened RoundTrip
  import opened NormalForm

  /** Whole records only, each written as the encoder writes it: a type code the encoder uses,
      and a difference byte only when the difference is not zero. */
  predicate WholeRecords(t: TypeTable, b: BitString)
    requires forall n :: n in t.names ==> t.names[n] in t.ids
    decreases |b|
  {
    b == [] ||
    (&& |b| >= 24
     && b[..8] in t.names && t.ids[t.names[b[..8]]] == b[..8]
     && if b[8] then |b| >= 32 && Value(b[24..32]) > 0 && WholeRecords(t, b[32..])
        else WholeRecords(t, b[24..]))
  }

  /** The finding written in the first record. */
  function DecodedFinding(t: TypeTable, b: BitString): Finding
    requires |b| >= 24 && b[..8] in t.names && (b[8] ==> |b| >= 32)
  {
    var start := Value(b[8..24][1..]);
    Finding(t.names[b[..8]], start, start + if b[8] then Value(b[24..32]) else 0)
  }

  /** The record of the finding at the front is exactly the bits it was read from. */
  lemma RecordOfDecoded(t: TypeTable, b: BitString)
    requires ValidTable(t) && b != [] && WholeRecords(t, b)
    ensures Encodable(t, DecodedFinding(t, b))
    ensures Record(t, DecodedFinding(t, b)) + (if b[8] then b[32..] else b[24..]) == b
    ensures DecodeRecord(t, b) == Ok((DecodedFinding(t, b), if b[8] then b[32..] else b[24..]))
  {
    var id, lines, f := b[..8], b[8..24], DecodedFinding(t, b);
    Powers();
    BinaryOfValue(lines[1..]);
    BinaryOfValue(if b[8] then b[24..32] else []);
    assert t.ids[f.name] + [b[8]] + Binary(f.start, 15) == b[..24];
    if b[8] {
      assert Record(t, f) == b[..24] + b[24..32];
    } else {
      assert Record(t, f) == b[..24];
    }
    DecodeOfRecord(t, f, if b[8] then b[32..] else b[24..]);
  }

  lemma RecordsCons(t: TypeTable, f: Finding, fs: seq<Finding>)
    requires Encodable(t, f) && AllEncodable(t, fs)
    ensures AllEncodable(t, [f] + fs) && Records(t, [f] + fs) == Record(t, f) + Records(t, fs)
  {
    assert ([f] + fs)[1..] == fs;
  }

  lemma {:induction false} DecodeWholeRecords(t: TypeTable, b: BitString)
    requires ValidTable(t) && WholeRecords(t, b)
    ensures DecodeRecords(t, b).Ok?
    ensures AllEncodable(t, DecodeRecords(t, b).value)
    ensures Records(t, DecodeRecords(t, b).value) == b
    decreases |b|
  {
    if b != [] {
      RecordOfDecoded(t, b);
      var (f, rest) := DecodeRecord(t, b).value;
      DecodeWholeRecords(t, rest);
      RecordsCons(t, f, DecodeRecords(t, rest).value);
    }
  }

  lemma WholeShort(t: TypeTable, b: BitString, id: BitString, start: BitString, rest: BitString)
    requires ValidTable(t) && id in t.names && t.ids[t.names[id]] == id && |start| == 15
    requires WholeRecords(t, rest) && b == id + ([false] + start) + rest
    ensures WholeRecords(t, b)
  {
    assert b[..8] == id && !b[8] && b[24..] == rest;
  }

  lemma WholeLong(t: TypeTable, b: BitString, id: BitString, start: BitString, diff: BitString, rest: BitString)
    requires ValidTable(t) && id in t.names && t.ids[t.names[id]] == id && |start| == 15
    requires |diff| == 8 && Value(diff) > 0
    requires WholeRecords(t, rest) && b == id + ([true] + start) + diff + rest
    ensures WholeRecords(t, b)
  {
    assert b[..8] == id && b[8] && b[24..32] == diff && b[32..] == rest;
  }

  lemma RecordIsWhole(t: TypeTable, f: Finding, rest: BitString)
    requires ValidTable(t) && Encodable(t, f) && WholeRecords(t, rest)
    ensures WholeRecords(t, Record(t, f) + rest)
  {
    var (start, diff) := FieldBits(f);
    RecordShape(t, f);
    FieldValues(t, f);
    if f.start == f.end {
      WholeShort(t, Record(t, f) + rest, t.ids[f.name], start, rest);
    } else {
      WholeLong(t, Record(t, f) + rest, t.ids[f.name], start, diff, rest);
    }
  }

  lemma {:induction false} RecordsAreWhole(t: TypeTable, fs: seq<Finding>)
    requires ValidTable(t) && AllEncodable(t, fs)
    ensures WholeRecords(t, Records(t, fs))
  {
    if fs != [] {
      RecordsAreWhole(t, fs[1..]);
      RecordIsWhole(t, fs[0], Records(t, fs[1..]));
    }
  }

  lemma FieldReencodes(b: BitString)
    ensures ToBitString(Value(b), |b|) == Ok(b)
  {
    BinaryOfValue(b);
  }

  function HeaderVersion(b: BitString): Version
    requires |b| == HEADER_SIZE
  {
    Version(Value(b[..4]), Value(b[4..8]), Value(b[8..14]))
  }

  function HeaderState(b: BitString): int
    requires |b| == HEADER_SIZE
  {
    if b[14] then AUDIT_STATE_SUCCESS else AUDIT_STATE_ERROR
  }

  function HeaderStatus(b: BitString): string
    requires |b| == HEADER_SIZE
  {
    if b[15] then STATUS_SUCCESS else STATUS_ERROR
  }

  lemma DecodedHeader(b: BitString)
    requires |b| == HEADER_SIZE
    ensures DecodeHeader(b) == Ok((VersionText(HeaderVersion(b)), HeaderState(b), HeaderStatus(b)))
  {
    assert Slice(b, 0, 4) == b[..4] && Slice(b, 4, 8) == b[4..8] && Slice(b, 8, 14) == b[8..14];
  }

  lemma HeaderBits(b: BitString)
    requires |b| == HEADER_SIZE
    ensures b == b[..4] + b[4..8] + b[8..14] + [HeaderState(b) == AUDIT_STATE_SUCCESS]
                 + [HeaderStatus(b) == STATUS_SUCCESS]
  {
  }

  lemma EncodedHeader(b: BitString, major: BitString, minor: BitString, patch: BitString)
    requires |b| == HEADER_SIZE && major == b[..4] && minor == b[4..8] && patch == b[8..14]
    ensures EncodeHeader(VersionText(HeaderVersion(b)), HeaderState(b), HeaderStatus(b)) == Ok(b)
  {
    ParseVersionText(HeaderVersion(b));
    FieldReencodes(major);
    FieldReencodes(minor);
    FieldReencodes(patch);
    HeaderBits(b);
  }

  /** Every 16-bit header is what encoding its decoded fields gives. */
  lemma HeaderReencodes(b: BitString)
    requires |b| == HEADER_SIZE
    ensures DecodeHeader(b).Ok?
    ensures var (version, state, status) := DecodeHeader(b).value;
            EncodeHeader(version, state, status) == Ok(b)
  {
    DecodedHeader(b);
    EncodedHeader(b, b[..4], b[4..8], b[8..14]);
  }

  /** The strings the encoder writes for grouped, duplicate-free findings. */
  predicate IsNormal(t: TypeTable, h: string)
    requires forall n :: n in t.names ==> t.names[n] in t.ids
  {
    && |h| >= 68 && IsHex(h) && Upper(h) == h
    && var records := Nibbles(h)[VULNERABILITIES_START..];
       && WholeRecords(t, records)
       && var fs := DecodeRecords(t, records);
          fs.Ok? && NoDuplicates(fs.value) && Contiguous(fs.value)
  }

  /** The part of the written bits that holds the records. */
  lemma RecordBits(t: TypeTable, r: Report)
    requires ValidTable(t) && Compressible(t, r)
    ensures var fs := KeepFirst(Findings(r.analyzersReports));
            && AllEncodable(t, fs) && |ReportBits(t, r)| >= VULNERABILITIES_START
            && ReportBits(t, r)[VULNERABILITIES_START..] == Records(t, fs)
  {
    HeaderRoundTrip(r);
    KeepFirstEncodable(t, Findings(r.analyzersReports));
  }

  lemma FindingsOfFixpoint(r: Report)
    requires HeaderFits(r) && r == Canonical(r)
    ensures var fs := KeepFirst(Findings(r.analyzersReports));
            NoDuplicates(fs) && Contiguous(fs)
  {
    var fs := KeepFirst(Findings(r.analyzersReports));
    FindingsOfCanonical(r);
    KeepFirstNoDuplicates(Findings(r.analyzersReports));
    ByTypeFixpoint(fs);
  }

  lemma NormalParts(t: TypeTable, h: string, fs: seq<Finding>)
    requires ValidTable(t) && |h| >= 68 && IsHex(h) && Upper(h) == h && AllEncodable(t, fs)
    requires Nibbles(h)[VULNERABILITIES_START..] == Records(t, fs)
    ensures IsNormal(t, h) <==> NoDuplicates(fs) && Contiguous(fs)
  {
    RecordsAreWhole(t, fs);
    DecodeOfRecords(t, fs);
  }

  lemma FixpointIsNormal(t: TypeTable, h: string)
    requires ValidTable(t) && Recompress(t, h) == Ok(h)
    ensures IsNormal(t, h)
  {
    var r := Decode(t, h).value;
    CompressBits(t, r);
    ToHexRoundTrip(ReportBits(t, r));
    CompressThenDecode(t, r);
    FindingsOfFixpoint(r);
    RecordBits(t, r);
    NormalParts(t, h, KeepFirst(Findings(r.analyzersReports)));
  }

  /** The report decoded from the three parts. */
  function ReportOf(header: BitString, hash: BitString, fs: seq<Finding>): Result<Report> {
    match (DecodeHeader(header), ToHex(hash))
    case (Ok((version, state, status)), Ok(text)) =>
      Ok(ProducedReport(version, state, status, text, fs))
    case _ => Raised
  }

  lemma DecodeParts(t: TypeTable, h: string, fs: seq<Finding>)
    requires |h| >= 68 && IsHex(h) && DecodeRecords(t, Nibbles(h)[272..]) == Ok(fs)
    ensures Decode(t, h) == ReportOf(Nibbles(h)[..16], Nibbles(h)[16..272], fs)
  {
  }

  lemma CompressOfDecoded(t: TypeTable, b: BitString, header: BitString, hash: BitString,
                          fs: seq<Finding>)
    requires ValidTable(t) && AllEncodable(t, fs) && NoDuplicates(fs) && Contiguous(fs)
    requires |header| == HEADER_SIZE && |hash| == CONTRACT_HASH_SIZE
    requires b == header + hash + Records(t, fs)
    ensures ReportOf(header, hash, fs).Ok?
    ensures Compress(t, ReportOf(header, hash, fs).value) == ToHex(b)
  {
    HeaderReencodes(header);
    ToHexRoundTrip(hash);
    var (version, state, status) := DecodeHeader(header).value;
    var text := ToHex(hash).value;
    assert HexToBitString(text, CONTRACT_HASH_SIZE) == Ok(hash);
    assert Proper(fs);
    FindingsOfProduced(version, state, status, text, fs);
    ByTypeFixpoint(fs);
    KeepFirstNoDuplicates(fs);
  }

  lemma UpperHexIsItsOwnText(h: string)
    requires h != [] && IsHex(h) && Upper(h) == h
    ensures ToHex(Nibbles(h)) == Ok(h)
  {
    ToHexOfNibbles(h);
  }

  lemma RecompressOfDecoded(t: TypeTable, h: string, r: Report)
    requires Decode(t, h) == Ok(r)
    ensures Recompress(t, h) == Compress(t, r)
  {
  }

  lemma NormalIsFixpoint(t: TypeTable, h: string)
    requires ValidTable(t) && IsNormal(t, h)
    ensures Recompress(t, h) == Ok(h)
  {
    var b := Nibbles(h);
    var header, hash, records := b[..16], b[16..272], b[272..];
    DecodeWholeRecords(t, records);
    var fs := DecodeRecords(t, records).value;
    assert b == header + hash + records;
    CompressOfDecoded(t, b, header, hash, fs);
    DecodeParts(t, h, fs);
    RecompressOfDecoded(t, h, ReportOf(header, hash, fs).value);
    UpperHexIsItsOwnText(h);
  }

  /** Compressing what was decoded gives back the same text for exactly the normal strings:
      upper-case, whole records, no duplicate, types in blocks. */
  lemma RecompressFixpoints(t: TypeTable, h: string)
    requires ValidTable(t)
    ensures Recompress(t, h) == Ok(h) <==> IsNormal(t, h)
  {
    if Recompress(t, h) == Ok(h) {
      FixpointIsNormal(t, h);
    }
    if IsNormal(t, h) {
      NormalIsFixpoint(t, h);
    }
  }

  /** For an encoder output the only thing that can differ is the order of the types. */
  lemma RecompressOfEncoded(t: TypeTable, r: Report, h: string)
    requires ValidTable(t) && Compress(t, r) == Ok(h)
    ensures Recompress(t, h) == Ok(h) <==> Contiguous(KeepFirst(Findings(r.analyzersReports)))
  {
    RecompressFixpoints(t, h);
    CompressBits(t, r);
    ToHexRoundTrip(ReportBits(t, r));
    RecordBits(t, r);
    KeepFirstNoDuplicates(Findings(r.analyzersReports));
    NormalParts(t, h, KeepFirst(Findings(r.analyzersReports)));
  }

  // ------------------------------------------------------------- any text

  /** A decoded record is a finding that can be encoded, whatever the bits were. */
  lemma DecodedFits(t: TypeTable, b: BitString)
    requires ValidTable(t) && b != [] && DecodeRecord(t, b).Ok?
    ensures Encodable(t, DecodeRecord(t, b).value.0)
  {
    Powers();
    var lines, diff := Slice(Slice(b, 8, 24), 1, 16), Slice(b, 24, 32);
    BinaryOfValue(lines);
    BinaryOfValue(diff);
    SmallerPower(|lines|, 15);
    SmallerPower(|diff|, 8);
  }

  lemma {:induction false} SmallerPower(a: nat, b: nat)
    requires a <= b
    ensures Pow2(a) <= Pow2(b)
  {
    if a < b {
      SmallerPower(a, b - 1);
    }
  }

  lemma {:induction false} DecodedAllFit(t: TypeTable, b: BitString)
    requires ValidTable(t) && DecodeRecords(t, b).Ok?
    ensures AllEncodable(t, DecodeRecords(t, b).value)
    decreases |b|
  {
    if b != [] {
      DecodedFits(t, b);
      DecodedAllFit(t, DecodeRecord(t, b).value.1);
    }
  }

  lemma GroupedFit(t: TypeTable, fs: seq<Finding>)
    requires AllEncodable(t, fs)
    ensures AllEncodable(t, ByType(fs)) && Proper(fs)
  {
    ByTypeKeepsEvery(fs);
    forall i | 0 <= i < |ByType(fs)| ensures Encodable(t, ByType(fs)[i]) {
      assert ByType(fs)[i] in fs;
    }
  }

  ghost predicate HasName(fs: seq<Finding>, name: string) {
    exists f :: f in fs && f.name == name
  }

  lemma LastNameInBlock(front: seq<Finding>, last: Finding)
    requires Contiguous(front + [last])
    ensures Contiguous(front)
    ensures HasName(front, last.name) ==> front[|front| - 1].name == last.name
  {
    var all := front + [last];
    assert forall i :: 0 <= i < |front| ==> all[i] == front[i];
    if f :| f in front && f.name == last.name {
      var i :| 0 <= i < |front| && front[i] == f;
      if i < |front| - 1 {
        assert all[i].name == all[|front|].name;
      }
    }
  }

  lemma KeptLast(front: seq<Finding>, last: Finding)
    requires Contiguous(KeepFirst(front))
    requires HasName(front, last.name) ==> front[|front| - 1].name == last.name
    requires front != [] ==>
      KeepFirst(front) != [] && KeepFirst(front)[|KeepFirst(front)| - 1].name == front[|front| - 1].name
    ensures var kept := KeepFirst(front + [last]);
            Contiguous(kept) && kept != [] && kept[|kept| - 1].name == last.name
  {
    KeepFirstSnoc(front, last);
    KeepFirstSubset(front);
    var kept := KeepFirst(front);
    if last in kept {
      assert HasName(front, last.name);
    } else {
      assert HasName(kept, last.name) ==> HasName(front, last.name);
      AppendContiguous(kept, last);
    }
  }

  /** Dropping duplicates leaves the types in blocks. */
  lemma {:induction false} KeepFirstContiguous(fs: seq<Finding>)
    requires Contiguous(fs)
    ensures Contiguous(KeepFirst(fs))
    ensures fs != [] ==>
      KeepFirst(fs) != [] && KeepFirst(fs)[|KeepFirst(fs)| - 1].name == fs[|fs| - 1].name
  {
    if fs != [] {
      var front, last := fs[..|fs| - 1], fs[|fs| - 1];
      assert fs == front + [last];
      LastNameInBlock(front, last);
      KeepFirstContiguous(front);
      KeptLast(front, last);
    }
  }

  lemma AppendContiguous(kept: seq<Finding>, last: Finding)
    requires Contiguous(kept)
    requires HasName(kept, last.name) ==> kept[|kept| - 1].name == last.name
    ensures Contiguous(kept + [last])
  {
    var all := kept + [last];
    forall i, j, k | 0 <= i < j < k < |all| && all[i].name == all[k].name
      ensures all[j].name == all[i].name
    {
      if k == |kept| {
        assert all[i] in kept;
        if j < |kept| - 1 {
          assert kept[i].name == kept[|kept| - 1].name;
        }
      }
    }
  }

  /** The parts of a text that decodes. */
  lemma DecodedParts(t: TypeTable, h: string)
    requires Decode(t, h).Ok?
    ensures IsHex(h) && |Nibbles(h)| >= 16
    ensures var b := Nibbles(h);
            && DecodeHeader(b[..16]).Ok? && ToHex(Slice(b, 16, 272)).Ok? && DecodeRecords(t, Drop(b, 272)).Ok?
            && var (version, state, status) := DecodeHeader(b[..16]).value;
               Decode(t, h) == Ok(ProducedReport(version, state, status, ToHex(Slice(b, 16, 272)).value,
                                                 DecodeRecords(t, Drop(b, 272)).value))
  {
    var b := Nibbles(h);
    assert |Slice(b, 0, HEADER_SIZE)| >= 16;
    assert Slice(b, 0, HEADER_SIZE) == b[..16];
  }

  lemma DecodedHash(t: TypeTable, h: string)
    requires Decode(t, h).Ok?
    ensures var hash := Decode(t, h).value.contractHash;
            IsHex(hash) && (|hash| == 64 <==> |h| >= 68)
  {
    DecodedParts(t, h);
    ToHexRoundTrip(Slice(Nibbles(h), 16, 272));
  }

  /** A decoded report fits the format as soon as its contract hash is complete. */
  lemma DecodedCompressible(t: TypeTable, h: string)
    requires ValidTable(t) && Decode(t, h).Ok?
    ensures var r := Decode(t, h).value;
            && (Compressible(t, r) <==> |h| >= 68)
            && Contiguous(Findings(r.analyzersReports))
  {
    DecodedParts(t, h);
    var b, r := Nibbles(h), Decode(t, h).value;
    var fs := DecodeRecords(t, Drop(b, 272)).value;
    HeaderReencodes(b[..16]);
    HeaderRoundTrip(r);
    DecodedHash(t, h);
    DecodedAllFit(t, Drop(b, 272));
    GroupedFit(t, fs);
    FindingsOfProduced(r.version, r.auditState, r.status, r.contractHash, fs);
    ByTypeContiguous(fs);
  }

  /** Any text, from whatever source, re-encodes exactly when it decodes and is long enough to hold
      header and hash, and the result is then in normal form: truncated last records, zero
      differences, duplicates and scattered types are gone, and re-encoding again changes nothing. */
  lemma RecompressNormalises(t: TypeTable, h: string)
    requires ValidTable(t)
    ensures Recompress(t, h).Ok? <==> Decode(t, h).Ok? && |h| >= 68
    ensures Recompress(t, h).Ok? ==>
      IsNormal(t, Recompress(t, h).value) && Recompress(t, Recompress(t, h).value) == Recompress(t, h)
  {
    if Decode(t, h).Ok? {
      var r := Decode(t, h).value;
      DecodedCompressible(t, h);
      CompressBits(t, r);
      RecompressOfDecoded(t, h, r);
      if |h| >= 68 {
        KeepFirstContiguous(Findings(r.analyzersReports));
        RecompressOfEncoded(t, r, Compress(t, r).value);
        RecompressFixpoints(t, Compress(t, r).value);
      }
    }
  }

  /** A report whose types alternate: its compressed form is not reproduced. */
  function Alternating(hash: string, a: string, b: string): Report {
    Report(VersionText(Version(0, 0, 0)), AUDIT_STATE_SUCCESS, STATUS_SUCCESS, hash,
           [AnalyzerReport(STATUS_SUCCESS, "", [
              Vulnerability(a, "", [Instance(0, 1, None)]),
              Vulnerability(b, "", [Instance(0, 1, None)]),
              Vulnerability(a, "", [Instance(0, 2, None)])])])
  }

  lemma FindingsOfOne(v: Vulnerability)
    requires |v.instances| == 1
    ensures VulnerabilityFindings([v]) == [FindingOf(v.typeName, v.instances[0])]
  {
  }

  lemma FindingsOfThree(u: Vulnerability, v: Vulnerability, w: Vulnerability)
    requires |u.instances| == |v.instances| == |w.instances| == 1
    ensures VulnerabilityFindings([u, v, w])
            == [FindingOf(u.typeName, u.instances[0]), FindingOf(v.typeName, v.instances[0]),
                FindingOf(w.typeName, w.instances[0])]
  {
    VulnerabilityFindingsConcat([u], [v]);
    VulnerabilityFindingsConcat([u, v], [w]);
    assert [u, v, w] == [u, v] + [w] && [u, v] == [u] + [v];
    FindingsOfOne(u);
    FindingsOfOne(v);
    FindingsOfOne(w);
  }

  lemma AlternatingFindings(hash: string, a: string, b: string)
    ensures Findings(Alternating(hash, a, b).analyzersReports)
            == [Finding(a, 1, 1), Finding(b, 1, 1), Finding(a, 2, 2)]
  {
    var reports := Alternating(hash, a, b).analyzersReports;
    var vs := reports[0].vulnerabilities;
    FindingsOfThree(vs[0], vs[1], vs[2]);
    assert reports[..0] == [];
  }

  lemma AlternatingHeader(hash: string, a: string, b: string)
    ensures HeaderFits(Alternating(hash, a, b))
  {
  }

  lemma AlternatingEncodable(t: TypeTable, hash: string, a: string, b: string)
    requires a in t.ids && b in t.ids
    ensures AllEncodable(t, Findings(Alternating(hash, a, b).analyzersReports))
  {
    AlternatingFindings(hash, a, b);
  }

  lemma AlternatingCompresses(t: TypeTable, hash: string, a: string, b: string)
    requires ValidTable(t) && a in t.ids && b in t.ids
    requires |hash| == 64 && IsHex(hash)
    ensures Compress(t, Alternating(hash, a, b)).Ok?
  {
    AlternatingEncodable(t, hash, a, b);
    AlternatingHeader(hash, a, b);
    CompressBits(t, Alternating(hash, a, b));
  }

  lemma AlternatingOrder(a: string, b: string)
    requires a != b
    ensures var fs := [Finding(a, 1, 1), Finding(b, 1, 1), Finding(a, 2, 2)];
            KeepFirst(fs) == fs && !Contiguous(fs)
  {
    var fs := [Finding(a, 1, 1), Finding(b, 1, 1), Finding(a, 2, 2)];
    KeepFirstNoDuplicates(fs);
    assert fs[0].name == fs[2].name && fs[1].name != fs[0].name;
  }

  lemma RecompressCanReorder(t: TypeTable, hash: string, a: string, b: string)
    requires ValidTable(t) && a in t.ids && b in t.ids && a != b
    requires |hash| == 64 && IsHex(hash)
    ensures var h := Compress(t, Alternating(hash, a, b));
            h.Ok? && Recompress(t, h.value) != h
  {
    AlternatingCompresses(t, hash, a, b);
    AlternatingFindings(hash, a, b);
    AlternatingOrder(a, b);
    RecompressOfEncoded(t, Alternating(hash, a, b), Compress(t, Alternating(hash, a, b)).value);
  }
}
