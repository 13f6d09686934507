/** The loops of ReportEncoder, proved against the format's functions. */
module ReportEncoder {
  import opened Wrappers
  import opened Bits
  import opened Versions
  import opened ReportFormat
  import opened RoundTrip
  import opened NormalForm

  // ---------------------------------------------------------- type list

  /** Exactly the first `i` names have a code. */
  ghost predicate NamesFor(types: seq<string>, i: nat, ids: map<string, BitString>)
    requires i <= |types|
  {
    forall n :: n in ids <==> n in types[..i]
  }

  /** A byte is a code exactly when it is below `i`, and stands for the name at that place. */
  ghost predicate CodesFor(types: seq<string>, i: nat, names: map<BitString, string>)
    requires i <= |types|
  {
    && (forall b :: b in names <==> |b| == 8 && Value(b) < i)
    && (forall b :: b in names ==> names[b] == types[Value(b)])
  }

  /** A name keeps its last code. */
  ghost predicate LastCodes(types: seq<string>, i: nat, ids: map<string, BitString>)
    requires i <= |types|
  {
    forall n, j :: n in ids && Value(ids[n]) < j < i ==> types[j] != n
  }

  /** The table after reading the first `i` names. */
  ghost predicate TableFor(types: seq<string>, i: nat, t: TypeTable)
    requires i <= |types|
  {
    ValidTable(t) && NamesFor(types, i, t.ids) && CodesFor(types, i, t.names) && LastCodes(types, i, t.ids)
  }

  lemma AddTypeValid(t: TypeTable, name: string, b: BitString)
    requires ValidTable(t) && |b| == 8 && b !in t.names
    ensures ValidTable(TypeTable(t.ids[name := b], t.names[b := name]))
  {
  }

  lemma AddTypeName(types: seq<string>, i: nat, ids: map<string, BitString>, b: BitString)
    requires i < |types| && NamesFor(types, i, ids)
    ensures NamesFor(types, i + 1, ids[types[i] := b])
  {
    assert types[..i + 1] == types[..i] + [types[i]];
  }

  lemma AddTypeLast(types: seq<string>, i: nat, ids: map<string, BitString>, b: BitString)
    requires i < |types| && Value(b) == i && NamesFor(types, i, ids) && LastCodes(types, i, ids)
    ensures LastCodes(types, i + 1, ids[types[i] := b])
  {
  }

  lemma AddTypeCode(types: seq<string>, i: nat, names: map<BitString, string>, b: BitString)
    requires i < |types| && |b| == 8 && Value(b) == i && CodesFor(types, i, names)
    ensures CodesFor(types, i + 1, names[b := types[i]])
  {
    forall c: BitString | |c| == 8 && Value(c) == i ensures c == b {
      BinaryOfValue(b);
      BinaryOfValue(c);
    }
  }

  lemma AddType(types: seq<string>, i: nat, t: TypeTable, b: BitString)
    requires i < |types| && TableFor(types, i, t) && |b| == 8 && Value(b) == i
    ensures TableFor(types, i + 1, TypeTable(t.ids[types[i] := b], t.names[b := types[i]]))
  {
    AddTypeValid(t, types[i], b);
    AddTypeName(types, i, t.ids, b);
    AddTypeLast(types, i, t.ids, b);
    AddTypeCode(types, i, t.names, b);
  }

  /** `__initialize_vulnerability_types`: a repeated name keeps its last code. */
  method InitializeVulnerabilityTypes(types: seq<string>) returns (r: Result<TypeTable>)
    ensures r.Ok? <==> |types| <= 256
    ensures r.Ok? ==> TableFor(types, |types|, r.value)
  {
    var ids: map<string, BitString>, names: map<BitString, string> := map[], map[];
    for i := 0 to |types|
      invariant i <= 256 && TableFor(types, i, TypeTable(ids, names))
    {
      Powers();
      match ToBitString(i, 8)
      case Raised =>
        return Raised;
      case Ok(b) =>
        ValueOfBinary(i, 8);
        AddType(types, i, TypeTable(ids, names), b);
        ids, names := ids[types[i] := b], names[b := types[i]];
    }
    return Ok(TypeTable(ids, names));
  }

  // ---------------------------------------------------------------- hex

  /** The hex branch of `__to_bitstring`. */
  method ToBitStringFromHex(number: string, length: nat) returns (r: Result<BitString>)
    ensures r == HexToBitString(number, length)
  {
    if (length != 0 && |number| * 4 != length) || number == [] || !IsHex(number) {
      return Raised;
    }
    var b: BitString := [];
    for i := 0 to |number|
      invariant b == Nibbles(number[..i])
    {
      assert number[..i + 1][..i] == number[..i];
      b := b + Binary(HexValue(number[i]).value, 4);
    }
    assert number[..|number|] == number;
    return Ok(b);
  }

  // ----------------------------------------------------- encoding findings

  function RecordList(t: TypeTable, fs: seq<Finding>): (r: seq<BitString>)
    requires AllEncodable(t, fs)
    ensures |r| == |fs|
    ensures forall i :: 0 <= i < |fs| ==> r[i] == Record(t, fs[i])
  {
    seq(|fs|, i requires 0 <= i < |fs| => Record(t, fs[i]))
  }

  lemma RecordIsInjective(t: TypeTable, f: Finding, g: Finding)
    requires ValidTable(t) && Encodable(t, f) && Encodable(t, g)
    ensures Record(t, f) == Record(t, g) <==> f == g
  {
    DecodeOfRecord(t, f, []);
    DecodeOfRecord(t, g, []);
    assert Record(t, f) + [] == Record(t, f) && Record(t, g) + [] == Record(t, g);
  }

  /** Dropping equal bit strings drops exactly the equal findings. */
  lemma RecordInList(t: TypeTable, fs: seq<Finding>, f: Finding)
    requires ValidTable(t) && AllEncodable(t, fs) && Encodable(t, f)
    ensures Record(t, f) in RecordList(t, fs) <==> f in fs
  {
    if f in fs {
      var i :| 0 <= i < |fs| && fs[i] == f;
      assert RecordList(t, fs)[i] == Record(t, f);
    }
    forall i | 0 <= i < |fs| && RecordList(t, fs)[i] == Record(t, f) ensures fs[i] == f {
      RecordIsInjective(t, fs[i], f);
    }
  }

  lemma RecordListSnoc(t: TypeTable, fs: seq<Finding>, f: Finding)
    requires AllEncodable(t, fs) && Encodable(t, f)
    ensures AllEncodable(t, fs + [f])
    ensures RecordList(t, fs + [f]) == RecordList(t, fs) + [Record(t, f)]
  {
  }

  lemma {:induction false} KeepFirstRecords(t: TypeTable, fs: seq<Finding>)
    requires ValidTable(t) && AllEncodable(t, fs)
    ensures AllEncodable(t, KeepFirst(fs))
    ensures KeepFirst(RecordList(t, fs)) == RecordList(t, KeepFirst(fs))
  {
    if fs != [] {
      var front, last := fs[..|fs| - 1], fs[|fs| - 1];
      assert fs == front + [last];
      KeepFirstRecords(t, front);
      KeepFirstRecordsSnoc(t, front, last);
    }
  }

  lemma KeepFirstRecordsSnoc(t: TypeTable, front: seq<Finding>, last: Finding)
    requires ValidTable(t) && AllEncodable(t, front) && Encodable(t, last)
    requires AllEncodable(t, KeepFirst(front))
    requires KeepFirst(RecordList(t, front)) == RecordList(t, KeepFirst(front))
    ensures AllEncodable(t, front + [last]) && AllEncodable(t, KeepFirst(front + [last]))
    ensures KeepFirst(RecordList(t, front + [last])) == RecordList(t, KeepFirst(front + [last]))
  {
    RecordListSnoc(t, front, last);
    KeepFirstSnoc(front, last);
    KeepFirstSnoc(RecordList(t, front), Record(t, last));
    RecordInList(t, KeepFirst(front), last);
    if last !in KeepFirst(front) {
      RecordListSnoc(t, KeepFirst(front), last);
    }
  }

  lemma {:induction false} RecordsAppend(t: TypeTable, fs: seq<Finding>, f: Finding)
    requires AllEncodable(t, fs) && Encodable(t, f)
    ensures AllEncodable(t, fs + [f])
    ensures Records(t, fs + [f]) == Records(t, fs) + Record(t, f)
  {
    if fs == [] {
      assert fs + [f] == [f];
      assert Records(t, [f][1..]) == [];
    } else {
      RecordsAppend(t, fs[1..], f);
      assert (fs + [f])[1..] == fs[1..] + [f];
      var rest := Records(t, fs[1..]);
      assert Record(t, fs[0]) + (rest + Record(t, f)) == Record(t, fs[0]) + rest + Record(t, f);
    }
  }

  lemma RecordsAppendAs(t: TypeTable, fs: seq<Finding>, f: Finding, all: seq<Finding>)
    requires AllEncodable(t, fs) && Encodable(t, f) && all == fs + [f]
    ensures AllEncodable(t, all) && Records(t, all) == Records(t, fs) + Record(t, f)
  {
    RecordsAppend(t, fs, f);
  }

  lemma RecordsUpTo(t: TypeTable, fs: seq<Finding>, i: nat)
    requires AllEncodable(t, fs) && i < |fs|
    ensures AllEncodable(t, fs[..i]) && AllEncodable(t, fs[..i + 1])
    ensures Records(t, fs[..i + 1]) == Records(t, fs[..i]) + Record(t, fs[i])
  {
    assert fs[..i + 1] == fs[..i] + [fs[i]];
    RecordsAppendAs(t, fs[..i], fs[i], fs[..i + 1]);
  }

  /** `"".join(encoded_vulnerabilities)` */
  method Join(t: TypeTable, encoded: seq<BitString>, ghost fs: seq<Finding>) returns (b: BitString)
    requires AllEncodable(t, fs) && encoded == RecordList(t, fs)
    ensures b == Records(t, fs)
  {
    b := [];
    for i := 0 to |encoded|
      invariant AllEncodable(t, fs[..i]) && b == Records(t, fs[..i])
    {
      RecordsUpTo(t, fs, i);
      b := b + encoded[i];
    }
    assert fs[..|fs|] == fs;
  }

  lemma {:induction false} VulnerabilityFindingsUpTo(vs: seq<Vulnerability>, j: nat)
    requires j < |vs|
    ensures VulnerabilityFindings(vs[..j + 1])
            == VulnerabilityFindings(vs[..j]) + InstanceFindings(vs[j].typeName, vs[j].instances)
    ensures forall f :: f in InstanceFindings(vs[j].typeName, vs[j].instances) ==>
              f in VulnerabilityFindings(vs)
    decreases |vs| - j
  {
    assert vs[..j + 1][..j] == vs[..j];
    if j + 1 == |vs| {
      assert vs[..j + 1] == vs;
    } else {
      var front := vs[..|vs| - 1];
      assert front[..j] == vs[..j] && front[..j + 1] == vs[..j + 1];
      assert VulnerabilityFindings(vs) == VulnerabilityFindings(front)
        + InstanceFindings(vs[|vs| - 1].typeName, vs[|vs| - 1].instances);
      VulnerabilityFindingsUpTo(front, j);
    }
  }

  lemma {:induction false} FindingsUpTo(reports: seq<AnalyzerReport>, i: nat)
    requires i < |reports|
    ensures Findings(reports[..i + 1])
            == Findings(reports[..i]) + VulnerabilityFindings(reports[i].vulnerabilities)
    ensures forall f :: f in VulnerabilityFindings(reports[i].vulnerabilities) ==> f in Findings(reports)
    decreases |reports| - i
  {
    assert reports[..i + 1][..i] == reports[..i];
    if i + 1 == |reports| {
      assert reports[..i + 1] == reports;
    } else {
      var front := reports[..|reports| - 1];
      assert front[..i] == reports[..i] && front[..i + 1] == reports[..i + 1];
      assert Findings(reports)
        == Findings(front) + VulnerabilityFindings(reports[|reports| - 1].vulnerabilities);
      FindingsUpTo(front, i);
    }
  }

  /** The records of all findings, or an exception if one of them cannot be encoded. */
  function EncodedList(t: TypeTable, fs: seq<Finding>): Result<seq<BitString>> {
    if AllEncodable(t, fs) then Ok(RecordList(t, fs)) else Raised
  }

  lemma AllEncodableConcat(t: TypeTable, a: seq<Finding>, b: seq<Finding>)
    ensures AllEncodable(t, a + b) <==> AllEncodable(t, a) && AllEncodable(t, b)
  {
    assert forall i :: 0 <= i < |a| ==> (a + b)[i] == a[i];
    assert forall i :: 0 <= i < |b| ==> (a + b)[|a| + i] == b[i];
  }

  lemma EncodedListConcat(t: TypeTable, a: seq<Finding>, b: seq<Finding>)
    ensures EncodedList(t, a + b).Ok? <==> EncodedList(t, a).Ok? && EncodedList(t, b).Ok?
    ensures EncodedList(t, a + b).Ok? ==>
      EncodedList(t, a + b).value == EncodedList(t, a).value + EncodedList(t, b).value
  {
    AllEncodableConcat(t, a, b);
    if AllEncodable(t, a + b) {
      assert RecordList(t, a + b) == RecordList(t, a) + RecordList(t, b);
    }
  }

  lemma EncodedListMissing(t: TypeTable, fs: seq<Finding>, part: seq<Finding>)
    requires EncodedList(t, part).Raised? && forall f :: f in part ==> f in fs
    ensures EncodedList(t, fs).Raised?
  {
    var i :| 0 <= i < |part| && !Encodable(t, part[i]);
    assert part[i] in fs;
  }

  /** The innermost loop of `__encode_vulnerabilities`. */
  method EncodeInstances(t: TypeTable, name: string, instances: seq<Instance>)
    returns (r: Result<seq<BitString>>)
    ensures r == EncodedList(t, InstanceFindings(name, instances))
  {
    var encoded: seq<BitString> := [];
    ghost var fs := InstanceFindings(name, instances);
    for k := 0 to |instances|
      invariant EncodedList(t, fs[..k]) == Ok(encoded)
    {
      EncodeInstanceMeaning(t, name, instances[k]);
      match EncodeInstance(t, name, instances[k])
      case Raised =>
        return Raised;
      case Ok(record) =>
        assert Encodable(t, fs[k]) && RecordList(t, [fs[k]]) == [record];
        EncodedListConcat(t, fs[..k], [fs[k]]);
        assert fs[..k + 1] == fs[..k] + [fs[k]];
        encoded := encoded + [record];
    }
    assert fs[..|fs|] == fs;
    return Ok(encoded);
  }

  /** The middle loop. */
  method EncodeAnalyzer(t: TypeTable, vs: seq<Vulnerability>) returns (r: Result<seq<BitString>>)
    ensures r == EncodedList(t, VulnerabilityFindings(vs))
  {
    var encoded: seq<BitString> := [];
    for j := 0 to |vs|
      invariant EncodedList(t, VulnerabilityFindings(vs[..j])) == Ok(encoded)
    {
      ghost var here := InstanceFindings(vs[j].typeName, vs[j].instances);
      VulnerabilityFindingsUpTo(vs, j);
      EncodedListConcat(t, VulnerabilityFindings(vs[..j]), here);
      var records := EncodeInstances(t, vs[j].typeName, vs[j].instances);
      if records.Raised? {
        EncodedListMissing(t, VulnerabilityFindings(vs), here);
        return Raised;
      }
      encoded := encoded + records.value;
    }
    assert vs[..|vs|] == vs;
    return Ok(encoded);
  }

  /** `__encode_vulnerabilities`: collect all records, drop equal ones, join. */
  method EncodeVulnerabilities(t: TypeTable, reports: seq<AnalyzerReport>)
    returns (r: Result<BitString>)
    requires ValidTable(t)
    ensures r == EncodeFindings(t, Findings(reports))
  {
    var encoded: seq<BitString> := [];
    for i := 0 to |reports|
      invariant EncodedList(t, Findings(reports[..i])) == Ok(encoded)
    {
      ghost var here := VulnerabilityFindings(reports[i].vulnerabilities);
      FindingsUpTo(reports, i);
      EncodedListConcat(t, Findings(reports[..i]), here);
      var records := EncodeAnalyzer(t, reports[i].vulnerabilities);
      if records.Raised? {
        EncodedListMissing(t, Findings(reports), here);
        return Raised;
      }
      encoded := encoded + records.value;
    }
    assert reports[..|reports|] == reports;
    KeepFirstRecords(t, Findings(reports));
    var b := Join(t, KeepFirst(encoded), KeepFirst(Findings(reports)));
    return Ok(b);
  }

  // ----------------------------------------------------- decoding findings

  function Prepend(fs: seq<Finding>, r: Result<seq<Finding>>): Result<seq<Finding>> {
    if r.Ok? then Ok(fs + r.value) else Raised
  }

  /** `__decode_vulnerabilities`: consumes the bit string record by record. */
  method DecodeVulnerabilities(t: TypeTable, b: BitString) returns (r: Result<seq<Finding>>)
    ensures r == DecodeRecords(t, b)
  {
    var rest, fs: seq<Finding> := b, [];
    assert DecodeRecords(t, b).Ok? ==> [] + DecodeRecords(t, b).value == DecodeRecords(t, b).value;
    while rest != []
      invariant DecodeRecords(t, b) == Prepend(fs, DecodeRecords(t, rest))
      decreases |rest|
    {
      match DecodeRecord(t, rest)
      case Raised =>
        return Raised;
      case Ok((f, rest')) =>
        ghost var after := DecodeRecords(t, rest');
        assert after.Ok? ==> fs + ([f] + after.value) == fs + [f] + after.value;
        fs, rest := fs + [f], rest';
    }
    assert fs + [] == fs;
    return Ok(fs);
  }

  // -------------------------------------------------------- produced report

  /** Appends one finding to its type's group, or opens a new group at the end. */
  function AddToGroups(groups: seq<Vulnerability>, f: Finding): seq<Vulnerability> {
    if groups == [] then
      [Vulnerability(f.name, UNKNOWN_FILE, [Instance(0, f.start, Some(f.end))])]
    else if groups[0].typeName == f.name then
      [groups[0].(instances := groups[0].instances
                    + [Instance(|groups[0].instances|, f.start, Some(f.end))])] + groups[1..]
    else [groups[0]] + AddToGroups(groups[1..], f)
  }

  lemma FirstGroupAppend(fs: seq<Finding>, f: Finding)
    requires fs != []
    ensures var name := fs[0].name;
            && OfType(fs + [f], name) == OfType(fs, name) + (if f.name == name then [f] else [])
            && NotOfType((fs + [f])[1..], name)
               == NotOfType(fs[1..], name) + (if f.name == name then [] else [f])
  {
    var name := fs[0].name;
    assert (fs + [f])[1..] == fs[1..] + [f];
    OfTypeConcat(fs, [f], name);
    OfTypeConcat(fs[1..], [f], name);
    OfTypeUniform([f], name);
  }

  lemma {:induction false} GroupedAppend(fs: seq<Finding>, f: Finding)
    ensures Grouped(fs + [f]) == AddToGroups(Grouped(fs), f)
    decreases |fs|
  {
    if fs == [] {
      assert fs + [f] == [f];
      OfTypeUniform([f], f.name);
      assert NotOfType([f][1..], f.name) == [];
      assert ToInstances([f]) == [Instance(0, f.start, Some(f.end))];
      assert Grouped([f]) == [Vulnerability(f.name, UNKNOWN_FILE, ToInstances([f]))];
    } else {
      var name, rest := fs[0].name, NotOfType(fs[1..], fs[0].name);
      var block := OfType(fs, name);
      assert (fs + [f])[0] == fs[0];
      FirstGroupAppend(fs, f);
      if f.name == name {
        assert ToInstances(block + [f]) == ToInstances(block) + [Instance(|block|, f.start, Some(f.end))];
        assert rest + [] == rest;
      } else {
        assert block + [] == block;
        GroupedAppend(rest, f);
      }
    }
  }

  function GroupsOf(names: seq<string>, instances: map<string, seq<Instance>>): seq<Vulnerability>
    requires forall n :: n in names ==> n in instances
  {
    if names == [] then []
    else [Vulnerability(names[0], UNKNOWN_FILE, instances[names[0]])] + GroupsOf(names[1..], instances)
  }

  predicate Distinct(names: seq<string>) {
    forall i, j :: 0 <= i < j < |names| ==> names[i] != names[j]
  }

  lemma {:induction false} GroupsOfIrrelevant(names: seq<string>, m: map<string, seq<Instance>>,
                                              name: string, xs: seq<Instance>)
    requires (forall n :: n in names ==> n in m) && name !in names
    ensures GroupsOf(names, m[name := xs]) == GroupsOf(names, m)
  {
    if names != [] {
      GroupsOfIrrelevant(names[1..], m, name, xs);
    }
  }

  lemma {:induction false} AddToKnown(names: seq<string>, m: map<string, seq<Instance>>, f: Finding)
    requires Distinct(names) && (forall n :: n in names ==> n in m) && f.name in names
    ensures var xs := m[f.name] + [Instance(|m[f.name]|, f.start, Some(f.end))];
            GroupsOf(names, m[f.name := xs]) == AddToGroups(GroupsOf(names, m), f)
  {
    var xs := m[f.name] + [Instance(|m[f.name]|, f.start, Some(f.end))];
    if names[0] == f.name {
      GroupsOfIrrelevant(names[1..], m, f.name, xs);
    } else {
      AddToKnown(names[1..], m, f);
    }
  }

  lemma {:induction false} AddNew(names: seq<string>, m: map<string, seq<Instance>>, f: Finding)
    requires (forall n :: n in names ==> n in m) && f.name !in names
    ensures GroupsOf(names + [f.name], m[f.name := [Instance(0, f.start, Some(f.end))]])
            == AddToGroups(GroupsOf(names, m), f)
  {
    if names == [] {
      assert names + [f.name] == [f.name];
    } else {
      AddNew(names[1..], m, f);
      assert (names + [f.name])[0] == names[0] && (names + [f.name])[1..] == names[1..] + [f.name];
    }
  }

  /** The loop state of `__produce_json` after some findings. */
  ghost predicate GroupState(names: seq<string>, instances: map<string, seq<Instance>>, fs: seq<Finding>) {
    && Distinct(names)
    && (forall n :: n in names <==> n in instances)
    && (forall n :: n in instances ==> instances[n] != [])
    && GroupsOf(names, instances) == Grouped(fs)
  }

  lemma GroupStep(names: seq<string>, m: map<string, seq<Instance>>, fs: seq<Finding>, f: Finding)
    requires GroupState(names, m, fs)
    ensures var known := if f.name in m then m[f.name] else [];
            GroupState(if known == [] then names + [f.name] else names,
                       m[f.name := known + [Instance(|known|, f.start, Some(f.end))]], fs + [f])
  {
    GroupedAppend(fs, f);
    if f.name in names {
      AddToKnown(names, m, f);
    } else {
      AddNew(names, m, f);
      assert [] + [Instance(0, f.start, Some(f.end))] == [Instance(0, f.start, Some(f.end))];
    }
  }

  lemma GroupStepAt(names: seq<string>, m: map<string, seq<Instance>>, fs: seq<Finding>, i: nat)
    requires i < |fs| && GroupState(names, m, fs[..i])
    ensures var f := fs[i];
            var known := if f.name in m then m[f.name] else [];
            GroupState(if known == [] then names + [f.name] else names,
                       m[f.name := known + [Instance(|known|, f.start, Some(f.end))]], fs[..i + 1])
  {
    assert fs[..i + 1] == fs[..i] + [fs[i]];
    GroupStep(names, m, fs[..i], fs[i]);
  }

  /** First loop of `__produce_json`: instances per type, and the types in order of appearance. */
  method CollectGroups(fs: seq<Finding>)
    returns (names: seq<string>, instances: map<string, seq<Instance>>)
    ensures forall n :: n in names ==> n in instances
    ensures GroupsOf(names, instances) == Grouped(fs)
  {
    instances, names := map[], [];
    for i := 0 to |fs|
      invariant GroupState(names, instances, fs[..i])
    {
      var f := fs[i];
      GroupStepAt(names, instances, fs, i);
      var ofName := if f.name in instances then instances[f.name] else [];
      if ofName == [] {
        names := names + [f.name];
      }
      instances := instances[f.name := ofName + [Instance(|ofName|, f.start, Some(f.end))]];
    }
    assert fs[..|fs|] == fs;
  }

  /** `__produce_json` */
  method ProduceReport(version: string, auditState: int, status: string, contractHash: string,
                       fs: seq<Finding>)
    returns (r: Report)
    ensures r == ProducedReport(version, auditState, status, contractHash, fs)
    ensures r.version == version && r.auditState == auditState && r.status == status
    ensures r.contractHash == contractHash
    ensures r.analyzersReports == [AnalyzerReport(status, "Unknown Analyzer", Grouped(fs))]
  {
    var names, instances := CollectGroups(fs);
    var vulnerabilities: seq<Vulnerability> := [];
    for i := 0 to |names|
      invariant vulnerabilities + GroupsOf(names[i..], instances) == Grouped(fs)
    {
      assert names[i..][1..] == names[i + 1..];
      vulnerabilities := vulnerabilities + [Vulnerability(names[i], UNKNOWN_FILE, instances[names[i]])];
    }
    assert vulnerabilities + [] == vulnerabilities;
    return Report(version, auditState, status, contractHash,
                  [AnalyzerReport(status, UNKNOWN_ANALYZER, vulnerabilities)]);
  }

  // ------------------------------------------------------------ whole reports

  method CompressReport(t: TypeTable, report: Report) returns (r: Result<string>)
    requires ValidTable(t)
    ensures r == Compress(t, report)
  {
    var header := EncodeHeader(report.version, report.auditState, report.status);
    if header.Raised? { return Raised; }
    var hash := ToBitStringFromHex(report.contractHash, CONTRACT_HASH_SIZE);
    if hash.Raised? { return Raised; }
    var records := EncodeVulnerabilities(t, report.analyzersReports);
    if records.Raised? { return Raised; }
    return ToHex(header.value + hash.value + records.value);
  }

  method DecodeReport(t: TypeTable, h: string) returns (r: Result<Report>)
    ensures r == Decode(t, h)
  {
    var bits := ToBitStringFromHex(h, 0);
    if bits.Raised? { return Raised; }
    var b := bits.value;
    var header := DecodeHeader(Slice(b, 0, HEADER_SIZE));
    if header.Raised? { return Raised; }
    var hash := ToHex(Slice(b, HEADER_SIZE, VULNERABILITIES_START));
    if hash.Raised? { return Raised; }
    var fs := DecodeVulnerabilities(t, Drop(b, VULNERABILITIES_START));
    if fs.Raised? { return Raised; }
    var (version, auditState, status) := header.value;
    var report := ProduceReport(version, auditState, status, hash.value, fs.value);
    return Ok(report);
  }
}
