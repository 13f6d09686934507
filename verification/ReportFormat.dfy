/** The on-chain report format: what ReportEncoder computes, as functions on values. */
module ReportFormat {
  import opened Wrappers
  import opened Bits
  import opened Versions

  // ------------------------------------------------------------------ reports

  datatype Instance = Instance(refId: int, startLine: int, endLine: Option<int>)

  datatype Vulnerability = Vulnerability(typeName: string, file: string, instances: seq<Instance>)

  datatype AnalyzerReport =
    AnalyzerReport(status: string, analyzer: string, vulnerabilities: seq<Vulnerability>)

  /** A report after schema validation. A missing list reads as the empty list. */
  datatype Report = Report(version: string, auditState: int, status: string,
                           contractHash: string, analyzersReports: seq<AnalyzerReport>)

  /** What one vulnerability instance means: its type and line range. */
  datatype Finding = Finding(name: string, start: int, end: int)

  const AUDIT_STATE_SUCCESS := 4
  const AUDIT_STATE_ERROR := 5
  const STATUS_SUCCESS := "success"
  const STATUS_ERROR := "error"

  const HEADER_SIZE := 16
  const CONTRACT_HASH_SIZE := 256
  const VULNERABILITIES_START := 272

  /** Both directions of the vulnerability type list. */
  datatype TypeTable = TypeTable(ids: map<string, BitString>, names: map<BitString, string>)

  ghost predicate ValidTable(t: TypeTable) {
    && (forall n :: n in t.ids ==> |t.ids[n]| == 8 && t.ids[n] in t.names && t.names[t.ids[n]] == n)
    && (forall b :: b in t.names ==> |b| == 8 && t.names[b] in t.ids)
  }

  // --------------------------------------------------- findings of a report

  /** `int(instance.get("end_line", 0))` */
  function EndLine(i: Instance): int {
    if i.endLine.Some? then i.endLine.value else 0
  }

  /** A missing or zero end line means "same as the start line". */
  function FindingOf(name: string, i: Instance): Finding {
    Finding(name, i.startLine, if EndLine(i) == 0 then i.startLine else EndLine(i))
  }

  function InstanceFindings(name: string, instances: seq<Instance>): (fs: seq<Finding>)
    ensures |fs| == |instances|
    ensures forall i :: 0 <= i < |fs| ==> fs[i] == FindingOf(name, instances[i])
  {
    if instances == [] then []
    else InstanceFindings(name, instances[..|instances| - 1])
         + [FindingOf(name, instances[|instances| - 1])]
  }

  function VulnerabilityFindings(vs: seq<Vulnerability>): seq<Finding> {
    if vs == [] then []
    else
      var last := vs[|vs| - 1];
      VulnerabilityFindings(vs[..|vs| - 1]) + InstanceFindings(last.typeName, last.instances)
  }

  /** All instances of all analyzers, in the order the encoder visits them. */
  function Findings(reports: seq<AnalyzerReport>): seq<Finding> {
    if reports == [] then []
    else Findings(reports[..|reports| - 1])
         + VulnerabilityFindings(reports[|reports| - 1].vulnerabilities)
  }

  // ------------------------------------------------------------------- header

  /** `__encode_header_bytes` */
  function EncodeHeader(version: string, auditState: int, status: string): Result<BitString> {
    match ParseVersion(version)
    case Raised => Raised
    case Ok(v) =>
      match (ToBitString(v.major, 4), ToBitString(v.minor, 4), ToBitString(v.patch, 6))
      case (Ok(major), Ok(minor), Ok(patch)) =>
        if auditState != AUDIT_STATE_SUCCESS && auditState != AUDIT_STATE_ERROR then Raised
        else if status != STATUS_SUCCESS && status != STATUS_ERROR then Raised
        else Ok(major + minor + patch
                + [auditState == AUDIT_STATE_SUCCESS] + [status == STATUS_SUCCESS])
      case _ => Raised
  }

  /** `__decode_header_bytes`; the two flag bits are read by index, so a short header raises. */
  function DecodeHeader(b: BitString): Result<(string, int, string)> {
    match (FromBitString(Slice(b, 0, 4)), FromBitString(Slice(b, 4, 8)),
           FromBitString(Slice(b, 8, 14)))
    case (Ok(major), Ok(minor), Ok(patch)) =>
      if |b| < HEADER_SIZE then Raised
      else Ok((VersionText(Version(major, minor, patch)),
               if b[14] then AUDIT_STATE_SUCCESS else AUDIT_STATE_ERROR,
               if b[15] then STATUS_SUCCESS else STATUS_ERROR))
    case _ => Raised
  }

  // ------------------------------------------------------------------ records

  /** One pass of the innermost loop of `__encode_vulnerabilities`. */
  function EncodeInstance(t: TypeTable, name: string, i: Instance): Result<BitString> {
    var end := EndLine(i);
    if name !in t.ids then Raised
    else
      var same := end == 0 || i.startLine == end;
      var diff := if same then 0 else end - i.startLine;
      match ToBitString(i.startLine, 15)
      case Raised => Raised
      case Ok(startBits) =>
        var record := t.ids[name] + [!same] + startBits;
        if diff == 0 then Ok(record)
        else match ToBitString(diff, 8)
          case Raised => Raised
          case Ok(diffBits) => Ok(record + diffBits)
  }

  predicate Encodable(t: TypeTable, f: Finding) {
    f.name in t.ids && 0 <= f.start <= 32767 && f.start <= f.end <= f.start + 255
  }

  /** The record of a finding that can be encoded: 24 bits, or 32 when the lines differ. */
  function Record(t: TypeTable, f: Finding): BitString
    requires Encodable(t, f)
  {
    var record := t.ids[f.name] + [f.start != f.end] + Binary(f.start, 15);
    if f.start == f.end then record else record + Binary(f.end - f.start, 8)
  }

  predicate AllEncodable(t: TypeTable, fs: seq<Finding>) {
    forall i :: 0 <= i < |fs| ==> Encodable(t, fs[i])
  }

  /** The records of a list of findings, one after the other. */
  function Records(t: TypeTable, fs: seq<Finding>): BitString
    requires AllEncodable(t, fs)
  {
    if fs == [] then [] else Record(t, fs[0]) + Records(t, fs[1..])
  }

  /** Keeps the first of equal elements: `list(OrderedDict.fromkeys(xs))`. */
  function KeepFirst<T(==)>(xs: seq<T>): seq<T> {
    if xs == [] then []
    else
      var front, last := KeepFirst(xs[..|xs| - 1]), xs[|xs| - 1];
      if last in front then front else front + [last]
  }

  /** `__encode_vulnerabilities`: every instance must encode; duplicates are dropped. */
  function EncodeFindings(t: TypeTable, fs: seq<Finding>): (r: Result<BitString>)
  {
    if AllEncodable(t, fs) then
      KeepFirstEncodable(t, fs);
      Ok(Records(t, KeepFirst(fs)))
    else Raised
  }

  lemma {:induction false} KeepFirstSubset<T>(xs: seq<T>)
    ensures forall x :: x in KeepFirst(xs) <==> x in xs
  {
    if xs != [] {
      KeepFirstSubset(xs[..|xs| - 1]);
      assert xs == xs[..|xs| - 1] + [xs[|xs| - 1]];
    }
  }

  lemma KeepFirstSnoc<T>(xs: seq<T>, x: T)
    ensures KeepFirst(xs + [x]) == if x in KeepFirst(xs) then KeepFirst(xs) else KeepFirst(xs) + [x]
  {
    assert (xs + [x])[..|xs|] == xs;
  }

  lemma KeepFirstEncodable(t: TypeTable, fs: seq<Finding>)
    requires AllEncodable(t, fs)
    ensures AllEncodable(t, KeepFirst(fs))
  {
  }

  function Drop(b: BitString, n: nat): BitString {
    if n <= |b| then b[n..] else []
  }

  /** One pass of the loop of `__decode_vulnerabilities`: the finding and the remaining bits. */
  function DecodeRecord(t: TypeTable, b: BitString): (r: Result<(Finding, BitString)>)
    requires b != []
    ensures r.Ok? ==> |r.value.1| < |b|
  {
    var typeBits, lineBits := Slice(b, 0, 8), Slice(b, 8, 24);
    if typeBits !in t.names || lineBits == [] then Raised
    else match FromBitString(Slice(lineBits, 1, 16))
      case Raised => Raised
      case Ok(start) =>
        if lineBits[0] then
          match FromBitString(Slice(b, 24, 32))
          case Raised => Raised
          case Ok(diff) => Ok((Finding(t.names[typeBits], start, start + diff), Drop(b, 32)))
        else Ok((Finding(t.names[typeBits], start, start), Drop(b, 24)))
  }

  /** `__decode_vulnerabilities` */
  function DecodeRecords(t: TypeTable, b: BitString): Result<seq<Finding>>
    decreases |b|
  {
    if b == [] then Ok([])
    else match DecodeRecord(t, b)
      case Raised => Raised
      case Ok((f, rest)) =>
        match DecodeRecords(t, rest)
        case Raised => Raised
        case Ok(fs) => Ok([f] + fs)
  }

  // ----------------------------------------------------------------- grouping

  function OfType(fs: seq<Finding>, name: string): (r: seq<Finding>)
    ensures |r| <= |fs|
  {
    if fs == [] then []
    else if fs[0].name == name then [fs[0]] + OfType(fs[1..], name)
    else OfType(fs[1..], name)
  }

  function NotOfType(fs: seq<Finding>, name: string): (r: seq<Finding>)
    ensures |r| <= |fs|
  {
    if fs == [] then []
    else if fs[0].name != name then [fs[0]] + NotOfType(fs[1..], name)
    else NotOfType(fs[1..], name)
  }

  /** The findings of the first type, then those of the next type, ...: stable within a type. */
  function ByType(fs: seq<Finding>): seq<Finding>
    decreases |fs|
  {
    if fs == [] then []
    else OfType(fs, fs[0].name) + ByType(NotOfType(fs[1..], fs[0].name))
  }

  function ToInstances(fs: seq<Finding>): (r: seq<Instance>)
    ensures |r| == |fs|
  {
    seq(|fs|, i requires 0 <= i < |fs| => Instance(i, fs[i].start, Some(fs[i].end)))
  }

  const UNKNOWN_FILE := "Unknown File"
  const UNKNOWN_ANALYZER := "Unknown Analyzer"

  /** One vulnerability entry per type, types in order of first appearance. */
  function Grouped(fs: seq<Finding>): seq<Vulnerability>
    decreases |fs|
  {
    if fs == [] then []
    else
      var name := fs[0].name;
      [Vulnerability(name, UNKNOWN_FILE, ToInstances(OfType(fs, name)))]
      + Grouped(NotOfType(fs[1..], name))
  }

  /** `__produce_json` */
  function ProducedReport(version: string, auditState: int, status: string, contractHash: string,
                          fs: seq<Finding>): Report
  {
    Report(version, auditState, status, contractHash,
           [AnalyzerReport(status, UNKNOWN_ANALYZER, Grouped(fs))])
  }

  // ------------------------------------------------------------ whole reports

  /** `compress_report` */
  function Compress(t: TypeTable, r: Report): Result<string> {
    match (EncodeHeader(r.version, r.auditState, r.status),
           HexToBitString(r.contractHash, CONTRACT_HASH_SIZE),
           EncodeFindings(t, Findings(r.analyzersReports)))
    case (Ok(header), Ok(hash), Ok(records)) => ToHex(header + hash + records)
    case _ => Raised
  }

  /** `decode_report` */
  function Decode(t: TypeTable, h: string): Result<Report> {
    match HexToBitString(h, 0)
    case Raised => Raised
    case Ok(b) =>
      match (DecodeHeader(Slice(b, 0, HEADER_SIZE)),
             ToHex(Slice(b, HEADER_SIZE, VULNERABILITIES_START)),
             DecodeRecords(t, Drop(b, VULNERABILITIES_START)))
      case (Ok((version, auditState, status)), Ok(hash), Ok(fs)) =>
        Ok(ProducedReport(version, auditState, status, hash, fs))
      case _ => Raised
  }
}
