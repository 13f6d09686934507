/** What the report format looks like bit by bit, and what counts as a finding of a report. */
module ReportLayout {
  import opened Wrappers
  import opened Decimal
  import opened Bits
  import opened Versions
  import opened ReportFormat
  import opened RoundTrip
  import opened NormalForm
  import opened Fixpoints
  import E = ReportEncoder

  // -------------------------------------------------------------------- text

  lemma HexDigits(v: nat)
    requires v < 16
    ensures HexDigit(v) == "0123456789ABCDEF"[v]
    ensures HexValue("0123456789ABCDEF"[v]) == Some(v) && HexValue("0123456789abcdef"[v]) == Some(v)
  {
  }

  lemma DecimalDigits(v: nat)
    requires v < 10
    ensures NatText(v) == ["0123456789"[v]] && ParseNat(["0123456789"[v]]) == Some(v)
  {
  }

  lemma NibblesSnoc(s: string, c: char)
    requires IsHex(s) && HexValue(c).Some?
    ensures IsHex(s + [c]) && Nibbles(s + [c]) == Nibbles(s) + Binary(HexValue(c).value, 4)
  {
    assert (s + [c])[..|s|] == s;
  }

  lemma BitsAssociative(a: BitString, b: BitString, c: BitString)
    ensures a + (b + c) == a + b + c
  {
  }

  lemma TextAssociative(a: string, b: string, c: string)
    ensures a + (b + c) == a + b + c
  {
  }

  lemma NibblesSnocs(a: string, front: string, last: char)
    requires IsHex(a) && IsHex(front) && HexValue(last).Some?
    requires IsHex(a + front) && Nibbles(a + front) == Nibbles(a) + Nibbles(front)
    ensures IsHex(a + (front + [last])) && IsHex(front + [last])
    ensures Nibbles(a + (front + [last])) == Nibbles(a) + Nibbles(front + [last])
  {
    TextAssociative(a, front, [last]);
    NibblesSnoc(a + front, last);
    NibblesSnoc(front, last);
    BitsAssociative(Nibbles(a), Nibbles(front), Binary(HexValue(last).value, 4));
  }

  /** Hex text stands for its digits one after the other, four bits each, highest bit first. */
  lemma {:induction false} NibblesConcat(a: string, b: string)
    requires IsHex(a) && IsHex(b)
    ensures IsHex(a + b) && Nibbles(a + b) == Nibbles(a) + Nibbles(b)
  {
    if b == [] {
      assert a + b == a;
    } else {
      var front, last := b[..|b| - 1], b[|b| - 1];
      assert IsHex(front) && HexValue(last).Some?;
      NibblesConcat(a, front);
      NibblesSnocs(a, front, last);
      assert b == front + [last];
    }
  }

  lemma NibbleValue(c: char)
    requires HexValue(c).Some?
    ensures IsHex([c]) && Value(Nibbles([c])) == HexValue(c).value
  {
    assert [c][..0] == [];
    assert Nibbles([c]) == Binary(HexValue(c).value, 4);
    Powers();
    ValueOfBinary(HexValue(c).value, 4);
  }

  // ------------------------------------------------------------------ layout

  lemma HeaderSlices(major: BitString, minor: BitString, patch: BitString, state: bool, status: bool)
    requires |major| == 4 && |minor| == 4 && |patch| == 6
    ensures var b := major + minor + patch + [state] + [status];
            && |b| == 16 && b[..4] == major && b[4..8] == minor && b[8..14] == patch
            && b[14] == state && b[15] == status
  {
  }

  /** The header: four bits each for major and minor, six for patch, one for the audit state, set for
      4 and clear for 5, one for the status, set for success and clear for error. */
  lemma HeaderLayout(version: string, auditState: int, status: string)
    requires EncodeHeader(version, auditState, status).Ok?
    ensures ParseVersion(version).Ok? && auditState in {4, 5} && status in {"success", "error"}
    ensures var v, b := ParseVersion(version).value, EncodeHeader(version, auditState, status).value;
            && |b| == 16
            && Value(b[..4]) == v.major && Value(b[4..8]) == v.minor && Value(b[8..14]) == v.patch
            && b[14] == (auditState == 4) && b[15] == (status == "success")
  {
    var v := ParseVersion(version).value;
    Powers();
    ValueOfBinary(v.major, 4);
    ValueOfBinary(v.minor, 4);
    ValueOfBinary(v.patch, 6);
    HeaderSlices(Binary(v.major, 4), Binary(v.minor, 4), Binary(v.patch, 6),
                 auditState == 4, status == "success");
  }

  /** A record: the type's code, a bit that is set when the lines differ, 15 bits for the start line,
      and then only if the lines differ 8 bits for the difference. */
  lemma RecordLayout(t: TypeTable, f: Finding)
    requires ValidTable(t) && Encodable(t, f)
    ensures var b := Record(t, f);
            && |b| == (if f.start == f.end then 24 else 32)
            && b[..8] == t.ids[f.name] && b[8] == (f.start != f.end) && Value(b[9..24]) == f.start
            && (f.start != f.end ==> Value(b[24..32]) == f.end - f.start)
  {
    var (start, diff) := FieldBits(f);
    RecordShape(t, f);
    FieldValues(t, f);
    var b := Record(t, f);
    assert b[9..24] == start;
    if f.start != f.end {
      assert b[24..32] == diff;
    }
  }

  /** A compressed report: header, contract hash, then the records of the distinct findings. */
  lemma CompressLayout(t: TypeTable, r: Report)
    requires ValidTable(t) && Compress(t, r).Ok?
    ensures IsHex(Compress(t, r).value) && IsHex(r.contractHash)
    ensures AllEncodable(t, KeepFirst(Findings(r.analyzersReports)))
    ensures EncodeHeader(r.version, r.auditState, r.status).Ok?
    ensures Nibbles(Compress(t, r).value)
            == EncodeHeader(r.version, r.auditState, r.status).value + Nibbles(r.contractHash)
               + Records(t, KeepFirst(Findings(r.analyzersReports)))
  {
    CompressBits(t, r);
    HeaderRoundTrip(r);
    KeepFirstEncodable(t, Findings(r.analyzersReports));
    ToHexRoundTrip(ReportBits(t, r));
  }

  // ---------------------------------------------------------------- findings

  /** A line range as the report's own fields give it: a missing or zero end line is the start line. */
  predicate Describes(v: Vulnerability, i: Instance, f: Finding) {
    && v.typeName == f.name && i.startLine == f.start
    && f.end == match i.endLine
                case None => i.startLine
                case Some(end) => if end == 0 then i.startLine else end
  }

  lemma FindingDescribed(v: Vulnerability, i: Instance, f: Finding)
    ensures Describes(v, i, f) <==> f == FindingOf(v.typeName, i)
  {
  }

  lemma FindingsSnoc(reports: seq<AnalyzerReport>, last: AnalyzerReport)
    ensures Findings(reports + [last]) == Findings(reports) + VulnerabilityFindings(last.vulnerabilities)
  {
    assert (reports + [last])[..|reports|] == reports;
  }

  /** The findings of a report come analyzer by analyzer, vulnerability by vulnerability, instance by
      instance. */
  lemma {:induction false} FindingsConcat(a: seq<AnalyzerReport>, b: seq<AnalyzerReport>)
    ensures Findings(a + b) == Findings(a) + Findings(b)
  {
    if b == [] {
      assert a + b == a;
    } else {
      var front, last := b[..|b| - 1], b[|b| - 1];
      assert a + b == (a + front) + [last] && b == front + [last];
      FindingsConcat(a, front);
      FindingsSnoc(a + front, last);
      FindingsSnoc(front, last);
    }
  }

  lemma FindingsOfOneAnalyzer(a: AnalyzerReport, v: Vulnerability)
    requires a.vulnerabilities == [v]
    ensures |Findings([a])| == |v.instances|
    ensures forall i :: 0 <= i < |v.instances| ==> Describes(v, v.instances[i], Findings([a])[i])
  {
    assert Findings([a][..0]) == [] && [a][..0] == [];
    assert [v][..0] == [] && VulnerabilityFindings([v][..0]) == [];
    assert Findings([a]) == InstanceFindings(v.typeName, v.instances);
  }

  /** Some instance in the report describes the finding. */
  ghost predicate HasInstance(reports: seq<AnalyzerReport>, f: Finding) {
    exists i, j, k :: 0 <= i < |reports| && 0 <= j < |reports[i].vulnerabilities|
      && 0 <= k < |reports[i].vulnerabilities[j].instances|
      && Describes(reports[i].vulnerabilities[j], reports[i].vulnerabilities[j].instances[k], f)
  }

  ghost predicate VulnerabilitiesList(vs: seq<Vulnerability>, f: Finding) {
    exists j, k :: 0 <= j < |vs| && 0 <= k < |vs[j].instances| && Describes(vs[j], vs[j].instances[k], f)
  }

  lemma {:induction false} VulnerabilityFindingsIff(vs: seq<Vulnerability>, f: Finding)
    ensures f in VulnerabilityFindings(vs) <==> VulnerabilitiesList(vs, f)
  {
    if vs != [] {
      var m, front, last := |vs| - 1, vs[..|vs| - 1], vs[|vs| - 1];
      VulnerabilityFindingsIff(front, f);
      if VulnerabilitiesList(front, f) {
        var j, k :| 0 <= j < |front| && 0 <= k < |front[j].instances| && Describes(front[j], front[j].instances[k], f);
        assert Describes(vs[j], vs[j].instances[k], f);
      }
      if f in InstanceFindings(last.typeName, last.instances) {
        var k :| 0 <= k < |last.instances| && f == FindingOf(last.typeName, last.instances[k]);
        assert Describes(vs[m], vs[m].instances[k], f);
      }
      if VulnerabilitiesList(vs, f) {
        var j, k :| 0 <= j < |vs| && 0 <= k < |vs[j].instances| && Describes(vs[j], vs[j].instances[k], f);
        FindingDescribed(vs[j], vs[j].instances[k], f);
        if j == m {
          assert InstanceFindings(last.typeName, last.instances)[k] == f;
        } else {
          assert Describes(front[j], front[j].instances[k], f);
        }
      }
    }
  }

  /** A finding belongs to a report exactly when one of its instances describes it. */
  lemma {:induction false} FindingsIff(reports: seq<AnalyzerReport>, f: Finding)
    ensures f in Findings(reports) <==> HasInstance(reports, f)
  {
    if reports != [] {
      var m, front, last := |reports| - 1, reports[..|reports| - 1], reports[|reports| - 1];
      FindingsIff(front, f);
      VulnerabilityFindingsIff(last.vulnerabilities, f);
      HasInstanceSnoc(front, last, f);
      assert reports == front + [last];
    }
  }

  lemma HasInstanceSnoc(front: seq<AnalyzerReport>, last: AnalyzerReport, f: Finding)
    ensures HasInstance(front + [last], f) <==> HasInstance(front, f) || VulnerabilitiesList(last.vulnerabilities, f)
  {
    var all := front + [last];
    if HasInstance(front, f) {
      var i, j, k :| 0 <= i < |front| && 0 <= j < |front[i].vulnerabilities|
        && 0 <= k < |front[i].vulnerabilities[j].instances|
        && Describes(front[i].vulnerabilities[j], front[i].vulnerabilities[j].instances[k], f);
      assert Describes(all[i].vulnerabilities[j], all[i].vulnerabilities[j].instances[k], f);
    }
    if VulnerabilitiesList(last.vulnerabilities, f) {
      var vs := last.vulnerabilities;
      var j, k :| 0 <= j < |vs| && 0 <= k < |vs[j].instances| && Describes(vs[j], vs[j].instances[k], f);
      assert Describes(all[|front|].vulnerabilities[j], all[|front|].vulnerabilities[j].instances[k], f);
    }
    if HasInstance(all, f) {
      var i, j, k :| 0 <= i < |all| && 0 <= j < |all[i].vulnerabilities|
        && 0 <= k < |all[i].vulnerabilities[j].instances|
        && Describes(all[i].vulnerabilities[j], all[i].vulnerabilities[j].instances[k], f);
      if i < |front| {
        assert Describes(front[i].vulnerabilities[j], front[i].vulnerabilities[j].instances[k], f);
      } else {
        assert Describes(last.vulnerabilities[j], last.vulnerabilities[j].instances[k], f);
      }
    }
  }

  /** Of equal findings the first is kept: what is kept of a beginning stays the beginning. */
  lemma {:induction false} KeepFirstPrefix(a: seq<Finding>, b: seq<Finding>)
    ensures KeepFirst(a) <= KeepFirst(a + b)
  {
    if b == [] {
      assert a + b == a;
    } else {
      var front, last := b[..|b| - 1], b[|b| - 1];
      KeepFirstPrefix(a, front);
      KeepFirstSnoc(a + front, last);
      assert a + b == a + front + [last];
    }
  }

  // ------------------------------------------------------------------ groups

  function TypeNames(fs: seq<Finding>): seq<string> {
    if fs == [] then [] else TypeNames(fs[..|fs| - 1]) + [fs[|fs| - 1].name]
  }

  function GroupNames(groups: seq<Vulnerability>): (names: seq<string>)
    ensures |names| == |groups|
  {
    seq(|groups|, i requires 0 <= i < |groups| => groups[i].typeName)
  }

  lemma {:induction false} AddToGroupsNames(groups: seq<Vulnerability>, f: Finding)
    ensures GroupNames(E.AddToGroups(groups, f))
            == if f.name in GroupNames(groups) then GroupNames(groups) else GroupNames(groups) + [f.name]
  {
    if groups == [] {
    } else if groups[0].typeName == f.name {
      assert GroupNames(groups)[0] == f.name;
    } else {
      AddToGroupsNames(groups[1..], f);
      assert GroupNames(groups) == [groups[0].typeName] + GroupNames(groups[1..]);
      assert GroupNames(E.AddToGroups(groups, f))
          == [groups[0].typeName] + GroupNames(E.AddToGroups(groups[1..], f));
    }
  }

  /** There is one group for each type, in order of first appearance. */
  lemma {:induction false} GroupsInOrder(fs: seq<Finding>)
    ensures GroupNames(Grouped(fs)) == KeepFirst(TypeNames(fs))
  {
    if fs != [] {
      var front, last := fs[..|fs| - 1], fs[|fs| - 1];
      assert fs == front + [last];
      GroupsInOrder(front);
      E.GroupedAppend(front, last);
      AddToGroupsNames(Grouped(front), last);
      KeepFirstSnoc(TypeNames(front), last.name);
    }
  }

  /** A group holds exactly the findings of its type, in order, numbered from zero. */
  lemma {:induction false} GroupHolds(fs: seq<Finding>, g: Vulnerability)
    requires g in Grouped(fs)
    ensures g.file == "Unknown File" && |g.instances| == |OfType(fs, g.typeName)|
    ensures forall i :: 0 <= i < |g.instances| ==>
              var f := OfType(fs, g.typeName)[i];
              g.instances[i] == Instance(i, f.start, Some(f.end))
    decreases |fs|
  {
    var name, rest := fs[0].name, NotOfType(fs[1..], fs[0].name);
    if g in Grouped(rest) {
      GroupHolds(rest, g);
      GroupedNames(rest, g);
      OfTypeKeepsEvery(fs[1..], name);
      OfTypeKeepsEvery(fs, name);
      assert g.typeName != name;
      OfTypeOfRest(fs, g.typeName, name);
      FirstBlock(fs);
    }
  }

  // ------------------------------------------------------------- whole reports

  /** Decoding what was compressed gives, field by field, the same report: plain version, same states,
      upper-cased hash, one analyzer with the report's own status, and exactly the same findings. */
  lemma DecodedFields(t: TypeTable, r: Report)
    requires ValidTable(t) && Compress(t, r).Ok?
    ensures Decode(t, Compress(t, r).value).Ok? && ParseVersion(r.version).Ok?
    ensures var d := Decode(t, Compress(t, r).value).value;
            && d.version == VersionText(ParseVersion(r.version).value)
            && d.auditState == r.auditState && d.status == r.status && d.contractHash == Upper(r.contractHash)
            && |d.analyzersReports| == 1 && d.analyzersReports[0].status == r.status
            && d.analyzersReports[0].analyzer == "Unknown Analyzer"
            && forall f :: HasInstance(d.analyzersReports, f) <==> HasInstance(r.analyzersReports, f)
  {
    CompressThenDecode(t, r);
    FindingsOfCanonical(r);
    var fs, d := Findings(r.analyzersReports), Canonical(r);
    KeepFirstSubset(fs);
    ByTypeKeepsEvery(KeepFirst(fs));
    forall f ensures HasInstance(d.analyzersReports, f) <==> HasInstance(r.analyzersReports, f) {
      FindingsIff(d.analyzersReports, f);
      FindingsIff(r.analyzersReports, f);
    }
  }

  // ------------------------------------------------- what the decoder accepts

  /** Record after record; of a last record that is cut off, one bit of the start line is enough, or
      one bit of the difference if the lines differ. */
  predicate Readable(t: TypeTable, b: BitString)
    decreases |b|
  {
    b == [] ||
    (&& |b| >= 10 && b[..8] in t.names && (b[8] ==> |b| >= 25)
     && Readable(t, Drop(b, if b[8] then 32 else 24)))
  }

  lemma ReadRecord(t: TypeTable, b: BitString)
    requires ValidTable(t) && b != []
    ensures DecodeRecord(t, b).Ok? <==> |b| >= 10 && b[..8] in t.names && (b[8] ==> |b| >= 25)
    ensures DecodeRecord(t, b).Ok? ==>
      var (f, rest) := DecodeRecord(t, b).value;
      && f.name == t.names[b[..8]] && f.start == Value(Slice(b, 9, 24))
      && f.end == f.start + (if b[8] then Value(Slice(b, 24, 32)) else 0)
      && rest == Drop(b, if b[8] then 32 else 24)
  {
    if |b| < 8 {
      assert |Slice(b, 0, 8)| < 8;
    } else {
      assert Slice(b, 0, 8) == b[..8];
      if |b| > 8 {
        assert Slice(b, 8, 24)[0] == b[8];
        assert Slice(Slice(b, 8, 24), 1, 16) == Slice(b, 9, 24);
      }
    }
  }

  lemma {:induction false} ReadableIff(t: TypeTable, b: BitString)
    requires ValidTable(t)
    ensures DecodeRecords(t, b).Ok? <==> Readable(t, b)
    decreases |b|
  {
    if b != [] {
      ReadRecord(t, b);
      if DecodeRecord(t, b).Ok? {
        ReadableIff(t, DecodeRecord(t, b).value.1);
      }
    }
  }

  lemma HeaderDecodesIff(b: BitString)
    ensures DecodeHeader(b).Ok? <==> |b| >= 16
  {
    if |b| >= 16 {
      assert Slice(b, 0, 4) != [] && Slice(b, 4, 8) != [] && Slice(b, 8, 14) != [];
    }
  }

  lemma HeadDecodesIff(b: BitString, digits: nat)
    requires |b| == 4 * digits
    ensures DecodeHeader(Slice(b, 0, 16)).Ok? && ToHex(Slice(b, 16, 272)).Ok? <==> digits >= 5
  {
    HeaderDecodesIff(Slice(b, 0, 16));
    assert |Slice(b, 16, 272)| == if |b| < 16 then 0 else if |b| < 272 then |b| - 16 else 256;
  }

  lemma DecodesInParts(t: TypeTable, h: string, b: BitString)
    requires h != [] && IsHex(h) && b == Nibbles(h)
    ensures Decode(t, h).Ok? <==>
            && DecodeHeader(Slice(b, 0, 16)).Ok? && ToHex(Slice(b, 16, 272)).Ok?
            && DecodeRecords(t, Drop(b, 272)).Ok?
  {
  }

  lemma OnlyHexDecodes(t: TypeTable, h: string)
    requires h == [] || !IsHex(h)
    ensures Decode(t, h).Raised?
  {
  }

  lemma PartsDecodeIff(t: TypeTable, b: BitString, digits: nat)
    requires ValidTable(t) && |b| == 4 * digits
    ensures DecodeHeader(Slice(b, 0, 16)).Ok? && ToHex(Slice(b, 16, 272)).Ok? && DecodeRecords(t, Drop(b, 272)).Ok?
            <==> digits >= 5 && Readable(t, Drop(b, 272))
  {
    ReadableIff(t, Drop(b, 272));
    HeadDecodesIff(b, digits);
  }

  /** A text decodes exactly when it is hex, holds the header and at least one digit of the hash, and
      what follows the hash is readable. */
  lemma DecodesIff(t: TypeTable, h: string)
    requires ValidTable(t)
    ensures Decode(t, h).Ok? <==> IsHex(h) && |h| >= 5 && Readable(t, Drop(Nibbles(h), 272))
  {
    if h == [] || !IsHex(h) {
      OnlyHexDecodes(t, h);
    } else {
      var b := Nibbles(h);
      DecodesInParts(t, h, b);
      PartsDecodeIff(t, b, |h|);
    }
  }
}
