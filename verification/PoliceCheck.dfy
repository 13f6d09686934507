/** The police comparison of an auditor's report with the police node's own
    (submit_report_thread.py:127-195, vulnerabilities_set.py). */
module PoliceCheck {
  import opened Wrappers
  import opened Bits
  import opened Versions
  import opened ReportFormat
  import opened RoundTrip
  import opened NormalForm
  import opened Fixpoints
  import opened ReportLayout

  type LineSet = set<(string, int)>

  /** The (type, start line) pairs of a list of findings. */
  function Lines(fs: seq<Finding>): LineSet {
    set f | f in fs :: (f.name, f.start)
  }

  function ReportLines(r: Report): LineSet {
    Lines(Findings(r.analyzersReports))
  }

  // ------------------------------------------------- VulnerabilitiesSet

  lemma LinesIff(fs: seq<Finding>, name: string, line: int)
    ensures (name, line) in Lines(fs) <==> exists f :: f in fs && f.name == name && f.start == line
  {
  }

  /** Instance k of vulnerability j of analyzer i has this type and start line. */
  predicate LineAt(report: Report, i: int, j: int, k: int, name: string, line: int) {
    && 0 <= i < |report.analyzersReports|
    && 0 <= j < |report.analyzersReports[i].vulnerabilities|
    && 0 <= k < |report.analyzersReports[i].vulnerabilities[j].instances|
    && report.analyzersReports[i].vulnerabilities[j].typeName == name
    && report.analyzersReports[i].vulnerabilities[j].instances[k].startLine == line
  }

  /** The compared pairs of a report are exactly the type and start line of its instances. */
  lemma ReportLinesIff(report: Report, name: string, line: int)
    ensures (name, line) in ReportLines(report) <==> exists i, j, k :: LineAt(report, i, j, k, name, line)
  {
    var reports := report.analyzersReports;
    var fs := Findings(reports);
    LinesIff(fs, name, line);
    if f :| f in fs && f.name == name && f.start == line {
      FindingsIff(reports, f);
      var i, j, k :| 0 <= i < |reports| && 0 <= j < |reports[i].vulnerabilities|
        && 0 <= k < |reports[i].vulnerabilities[j].instances|
        && Describes(reports[i].vulnerabilities[j], reports[i].vulnerabilities[j].instances[k], f);
      assert LineAt(report, i, j, k, name, line);
    }
    if i, j, k :| LineAt(report, i, j, k, name, line) {
      var v, instance := reports[i].vulnerabilities[j], reports[i].vulnerabilities[j].instances[k];
      var f := FindingOf(v.typeName, instance);
      FindingDescribed(v, instance, f);
      assert Describes(reports[i].vulnerabilities[j], reports[i].vulnerabilities[j].instances[k], f);
      FindingsIff(reports, f);
    }
  }

  method AddInstances(lines: LineSet, name: string, instances: seq<Instance>)
    returns (r: LineSet)
    ensures r == lines + Lines(InstanceFindings(name, instances))
  {
    r := lines;
    ghost var fs := InstanceFindings(name, instances);
    for k := 0 to |instances|
      invariant r == lines + Lines(fs[..k])
    {
      assert fs[..k + 1] == fs[..k] + [fs[k]];
      r := r + {(name, instances[k].startLine)};
    }
    assert fs[..|fs|] == fs;
  }

  method AddVulnerabilities(lines: LineSet, vs: seq<Vulnerability>) returns (r: LineSet)
    ensures r == lines + Lines(VulnerabilityFindings(vs))
  {
    r := lines;
    for j := 0 to |vs|
      invariant r == lines + Lines(VulnerabilityFindings(vs[..j]))
    {
      assert vs[..j + 1][..j] == vs[..j];
      r := AddInstances(r, vs[j].typeName, vs[j].instances);
    }
    assert vs[..|vs|] == vs;
  }

  /** `VulnerabilitiesSet.from_uncompressed_report` */
  method FromUncompressedReport(report: Report) returns (r: LineSet)
    ensures r == ReportLines(report)
    ensures forall name, line :: (name, line) in r <==> exists i, j, k :: LineAt(report, i, j, k, name, line)
  {
    r := {};
    var reports := report.analyzersReports;
    for i := 0 to |reports|
      invariant r == Lines(Findings(reports[..i]))
    {
      assert reports[..i + 1][..i] == reports[..i];
      r := AddVulnerabilities(r, reports[i].vulnerabilities);
    }
    assert reports[..|reports|] == reports;
    forall name, line
      ensures (name, line) in r <==> exists i, j, k :: LineAt(report, i, j, k, name, line)
    {
      ReportLinesIff(report, name, line);
    }
  }

  // --------------------------------------------------------- the decision

  const SIMILARITY_THRESHOLD := 0.6

  /** What the report schema asks of a decoded report beyond what decoding guarantees. */
  predicate SchemaValid(r: Report) {
    && |r.contractHash| == 64 && IsHex(r.contractHash)
    && forall a, v :: a in r.analyzersReports && v in a.vulnerabilities ==> |v.typeName| <= 1000
  }

  /** The threshold test: no police findings, or enough of them found. */
  function Similar(auditor: LineSet, police: LineSet): bool {
    |police| == 0 || |auditor * police| as real / |police| as real >= SIMILARITY_THRESHOLD
  }

  /** `__is_report_deemed_correct`; `None` stands for an empty report on the chain. */
  function DeemedCorrect(t: TypeTable, onChain: Option<string>, police: Report): Result<bool> {
    match onChain
    case None => Raised
    case Some(h) =>
      match Decode(t, h)
      case Raised => Ok(false)
      case Ok(audit) =>
        if !SchemaValid(audit) then Ok(false)
        else
          var a, p := Lower(audit.contractHash), Lower(police.contractHash);
          if a == [] || p == [] || a != p then Ok(false)
          else Ok(Similar(ReportLines(audit), ReportLines(police)))
  }

  // -------------------------------------------------------------- lemmas

  lemma LinesOfSame(a: seq<Finding>, b: seq<Finding>)
    requires forall f :: f in a <==> f in b
    ensures Lines(a) == Lines(b)
  {
  }

  /** Compressing and decoding keeps the pairs the comparison looks at. */
  lemma CompressionKeepsLines(t: TypeTable, r: Report)
    requires ValidTable(t) && Compress(t, r).Ok?
    ensures Decode(t, Compress(t, r).value).Ok?
    ensures ReportLines(Decode(t, Compress(t, r).value).value) == ReportLines(r)
  {
    CompressThenDecode(t, r);
    FindingsOfCanonical(r);
    var fs := Findings(r.analyzersReports);
    KeepFirstSubset(fs);
    ByTypeKeepsEvery(KeepFirst(fs));
    LinesOfSame(ByType(KeepFirst(fs)), fs);
  }

  /** The real-valued quotient test is an integer comparison. */
  lemma SimilarIff(auditor: LineSet, police: LineSet)
    ensures Similar(auditor, police) <==>
            police == {} || 5 * |auditor * police| >= 3 * |police|
  {
  }

  /** Finding more of what the police found never turns an accepted report down. */
  lemma AcceptanceIsMonotone(auditor: LineSet, more: LineSet, police: LineSet)
    requires auditor * police <= more && Similar(auditor, police)
    ensures Similar(more, police)
  {
    SimilarIff(auditor, police);
    SimilarIff(more, police);
    Cardinality(auditor * police, more * police);
  }

  lemma {:induction false} Cardinality(a: LineSet, b: LineSet)
    requires a <= b
    ensures |a| <= |b|
  {
    if a != {} {
      var x :| x in a;
      Cardinality(a - {x}, b - {x});
    }
  }

  predicate ShortNames(t: TypeTable) {
    forall n :: n in t.ids ==> |n| <= 1000
  }

  /** A decoded text passes the schema exactly when it holds a complete contract hash. */
  lemma DecodedIsSchemaValid(t: TypeTable, h: string)
    requires ValidTable(t) && ShortNames(t) && Decode(t, h).Ok?
    ensures SchemaValid(Decode(t, h).value) <==> |h| >= 68
  {
    DecodedParts(t, h);
    DecodedHash(t, h);
    var r, fs := Decode(t, h).value, DecodeRecords(t, Drop(Nibbles(h), 272)).value;
    DecodedAllFit(t, Drop(Nibbles(h), 272));
    forall a, v | a in r.analyzersReports && v in a.vulnerabilities ensures |v.typeName| <= 1000 {
      GroupedNames(fs, v);
      var f :| f in fs && f.name == v.typeName;
      assert Encodable(t, f);
    }
  }

  lemma DecodeIgnoresCase(t: TypeTable, h: string)
    ensures Decode(t, Lower(h)) == Decode(t, h)
  {
    NibblesIgnoreCase(h);
  }

  /** The form in which the chain hands a submitted report back: lower-case hex of its bytes. */
  function OnChain(t: TypeTable, r: Report): Option<string>
    requires Compress(t, r).Ok?
  {
    Some(Lower(Compress(t, r).value))
  }

  /** Contract hashes agree up to case exactly when they stand for the same 256 bits. */
  lemma SameHashIff(a: string, b: string)
    requires IsHex(a) && IsHex(b)
    ensures Lower(a) == Lower(b) <==> Nibbles(a) == Nibbles(b)
  {
    NibblesIgnoreCase(a);
    NibblesIgnoreCase(b);
    ToHexOfNibbles(a);
    ToHexOfNibbles(b);
    LowerOfUpper(a);
    LowerOfUpper(b);
  }

  /** Whatever text an auditor put on the chain, a police node accepts it exactly when it decodes,
      holds a complete contract hash that agrees with the police report up to case, and lists at least
      3/5 of the police findings. It raises exactly when the chain holds no report. */
  lemma TextAcceptedIff(t: TypeTable, h: string, police: Report)
    requires ValidTable(t) && forall name :: name in t.ids ==> |name| <= 1000
    ensures DeemedCorrect(t, Some(h), police) ==
            Ok(&& Decode(t, h).Ok? && |h| >= 68
               && Lower(Decode(t, h).value.contractHash) == Lower(police.contractHash)
               && var a, p := ReportLines(Decode(t, h).value), ReportLines(police);
                  p == {} || 5 * |a * p| >= 3 * |p|)
    ensures DeemedCorrect(t, None, police).Raised?
  {
    if Decode(t, h).Ok? {
      DecodedIsSchemaValid(t, h);
      SimilarIff(ReportLines(Decode(t, h).value), ReportLines(police));
    }
  }

  /** An auditor's compressed report is accepted by a police node exactly when the contract
      hashes agree up to case and it found at least 3/5 of the police findings. */
  lemma AcceptedIff(t: TypeTable, auditor: Report, police: Report)
    requires ValidTable(t) && ShortNames(t) && Compress(t, auditor).Ok?
    ensures var a, p := ReportLines(auditor), ReportLines(police);
            DeemedCorrect(t, OnChain(t, auditor), police) ==
            Ok(&& Lower(auditor.contractHash) == Lower(police.contractHash)
               && (p == {} || 5 * |a * p| >= 3 * |p|))
  {
    TextAcceptedIff(t, OnChain(t, auditor).value, police);
    CompressThenDecode(t, auditor);
    DecodeIgnoresCase(t, Compress(t, auditor).value);
    CompressSucceedsIff(t, auditor);
    CompressionKeepsLines(t, auditor);
    LowerOfUpper(auditor.contractHash);
  }

  /** A police node that produced the same report accepts the auditor. */
  lemma SameReportIsAccepted(t: TypeTable, r: Report)
    requires ValidTable(t) && ShortNames(t) && Compress(t, r).Ok?
    ensures DeemedCorrect(t, OnChain(t, r), r) == Ok(true)
  {
    AcceptedIff(t, r, r);
    assert ReportLines(r) * ReportLines(r) == ReportLines(r);
  }
}
