/** Re-encoding: what decoding and compressing again does to an already compressed report. */
module NormalForm {
  import opened Wrappers
  import opened Bits
  import opened Versions
  import opened ReportFormat
  import opened RoundTrip

  // ------------------------------------------------ duplicates and grouping

  predicate NoDuplicates(fs: seq<Finding>) {
    forall i, j :: 0 <= i < j < |fs| ==> fs[i] != fs[j]
  }

  /** All findings of one type stand next to each other. */
  predicate Contiguous(fs: seq<Finding>) {
    forall i, j, k :: 0 <= i < j < k < |fs| && fs[i].name == fs[k].name ==> fs[j].name == fs[i].name
  }

  predicate Only(fs: seq<Finding>, name: string) {
    forall f :: f in fs ==> f.name == name
  }

  predicate Without(fs: seq<Finding>, name: string) {
    forall f :: f in fs ==> f.name != name
  }

  /** An end line of 0 only occurs on line 0. True of everything the encoder reads. */
  predicate Proper(fs: seq<Finding>) {
    forall f :: f in fs && f.end == 0 ==> f.start == 0
  }

  lemma {:induction false} KeepFirstNoDuplicates(fs: seq<Finding>)
    ensures NoDuplicates(KeepFirst(fs))
    ensures NoDuplicates(fs) ==> KeepFirst(fs) == fs
  {
    if fs != [] {
      var front, last := fs[..|fs| - 1], fs[|fs| - 1];
      KeepFirstNoDuplicates(front);
      KeepFirstSubset(front);
      assert fs == front + [last];
      if NoDuplicates(fs) {
        assert forall i, j :: 0 <= i < j < |front| ==> front[i] == fs[i] && front[j] == fs[j];
        assert last !in front;
      }
    }
  }

  lemma {:induction false} OfTypeKeepsEvery(fs: seq<Finding>, name: string)
    ensures forall f :: f in OfType(fs, name) <==> f in fs && f.name == name
    ensures forall f :: f in NotOfType(fs, name) <==> f in fs && f.name != name
    ensures |OfType(fs, name)| + |NotOfType(fs, name)| == |fs|
  {
    if fs != [] {
      OfTypeKeepsEvery(fs[1..], name);
      assert fs == [fs[0]] + fs[1..];
    }
  }

  lemma {:induction false} SplitNoDuplicates(fs: seq<Finding>, name: string)
    requires NoDuplicates(fs)
    ensures NoDuplicates(OfType(fs, name)) && NoDuplicates(NotOfType(fs, name))
  {
    if fs != [] {
      SplitNoDuplicates(fs[1..], name);
      OfTypeKeepsEvery(fs[1..], name);
      assert fs[0] !in fs[1..];
    }
  }

  lemma {:induction false} ByTypeKeepsEvery(fs: seq<Finding>)
    ensures forall f :: f in ByType(fs) <==> f in fs
    ensures |ByType(fs)| == |fs|
    decreases |fs|
  {
    if fs != [] {
      var name, rest := fs[0].name, NotOfType(fs[1..], fs[0].name);
      ByTypeKeepsEvery(rest);
      OfTypeKeepsEvery(fs, name);
      OfTypeKeepsEvery(fs[1..], name);
      assert fs == [fs[0]] + fs[1..];
    }
  }

  /** The first block of a grouped list and what follows it. */
  lemma FirstBlock(fs: seq<Finding>)
    requires fs != []
    ensures var name := fs[0].name;
            var block, tail := OfType(fs, name), ByType(NotOfType(fs[1..], name));
            && block != [] && block[0] == fs[0] && ByType(fs) == block + tail
            && NotOfType(fs, name) == NotOfType(fs[1..], name)
            && Only(block, name) && Without(tail, name)
  {
    var name, rest := fs[0].name, NotOfType(fs[1..], fs[0].name);
    OfTypeKeepsEvery(fs, name);
    OfTypeKeepsEvery(fs[1..], name);
    ByTypeKeepsEvery(rest);
  }

  lemma ConcatNoDuplicates(a: seq<Finding>, b: seq<Finding>, name: string)
    requires NoDuplicates(a) && NoDuplicates(b) && Only(a, name) && Without(b, name)
    ensures NoDuplicates(a + b)
  {
  }

  lemma {:induction false} ByTypeNoDuplicates(fs: seq<Finding>)
    requires NoDuplicates(fs)
    ensures NoDuplicates(ByType(fs))
    decreases |fs|
  {
    if fs != [] {
      var name, rest := fs[0].name, NotOfType(fs[1..], fs[0].name);
      SplitNoDuplicates(fs, name);
      SplitNoDuplicates(fs[1..], name);
      ByTypeNoDuplicates(rest);
      FirstBlock(fs);
      ConcatNoDuplicates(OfType(fs, name), ByType(rest), name);
    }
  }

  function When(keep: bool, f: Finding): seq<Finding> {
    if keep then [f] else []
  }

  lemma OfTypeCons(f: Finding, fs: seq<Finding>, name: string)
    ensures OfType([f] + fs, name) == When(f.name == name, f) + OfType(fs, name)
    ensures NotOfType([f] + fs, name) == When(f.name != name, f) + NotOfType(fs, name)
  {
  }

  lemma Associative(a: seq<Finding>, b: seq<Finding>, c: seq<Finding>)
    ensures a + (b + c) == (a + b) + c
  {
  }

  lemma {:induction false} OfTypeConcat(a: seq<Finding>, b: seq<Finding>, name: string)
    ensures OfType(a + b, name) == OfType(a, name) + OfType(b, name)
    ensures NotOfType(a + b, name) == NotOfType(a, name) + NotOfType(b, name)
  {
    if a == [] {
      assert a + b == b;
    } else {
      OfTypeConcat(a[1..], b, name);
      OfTypeConcatCons(a[0], a[1..], b, name);
      assert a == [a[0]] + a[1..];
    }
  }

  lemma OfTypeConcatCons(first: Finding, rest: seq<Finding>, b: seq<Finding>, name: string)
    requires OfType(rest + b, name) == OfType(rest, name) + OfType(b, name)
    requires NotOfType(rest + b, name) == NotOfType(rest, name) + NotOfType(b, name)
    ensures OfType([first] + rest + b, name) == OfType([first] + rest, name) + OfType(b, name)
    ensures NotOfType([first] + rest + b, name) == NotOfType([first] + rest, name) + NotOfType(b, name)
  {
    Associative([first], rest, b);
    OfTypeCons(first, rest, name);
    OfTypeCons(first, rest + b, name);
    Associative(When(first.name == name, first), OfType(rest, name), OfType(b, name));
    Associative(When(first.name != name, first), NotOfType(rest, name), NotOfType(b, name));
  }

  lemma {:induction false} OfTypeUniform(fs: seq<Finding>, name: string)
    ensures Only(fs, name) ==> OfType(fs, name) == fs && NotOfType(fs, name) == []
    ensures Without(fs, name) ==> OfType(fs, name) == [] && NotOfType(fs, name) == fs
  {
    if fs != [] {
      OfTypeUniform(fs[1..], name);
      assert fs == [fs[0]] + fs[1..];
    }
  }

  lemma {:induction false} OfTypeOfRest(fs: seq<Finding>, name: string, other: string)
    requires name != other
    ensures OfType(NotOfType(fs, other), name) == OfType(fs, name)
  {
    if fs != [] {
      OfTypeOfRest(fs[1..], name, other);
    }
  }

  /** Grouping is stable: within each type nothing is lost, added or reordered. */
  lemma {:induction false} ByTypeIsStable(fs: seq<Finding>, name: string)
    ensures OfType(ByType(fs), name) == OfType(fs, name)
    decreases |fs|
  {
    if fs != [] {
      var first, rest := fs[0].name, NotOfType(fs[1..], fs[0].name);
      var block, tail := OfType(fs, first), ByType(rest);
      FirstBlock(fs);
      OfTypeConcat(block, tail, name);
      if name == first {
        OfTypeUniform(block, name);
        OfTypeUniform(tail, name);
      } else {
        assert Without(block, name);
        OfTypeUniform(block, name);
        ByTypeIsStable(rest, name);
        OfTypeOfRest(fs, name, first);
      }
    }
  }

  lemma BlockThenRestContiguous(block: seq<Finding>, tail: seq<Finding>, name: string)
    requires Only(block, name) && Without(tail, name) && Contiguous(tail)
    ensures Contiguous(block + tail)
  {
  }

  /** After grouping, each type is one block. */
  lemma {:induction false} ByTypeContiguous(fs: seq<Finding>)
    ensures Contiguous(ByType(fs))
    decreases |fs|
  {
    if fs != [] {
      var name, rest := fs[0].name, NotOfType(fs[1..], fs[0].name);
      ByTypeContiguous(rest);
      FirstBlock(fs);
      BlockThenRestContiguous(OfType(fs, name), ByType(rest), name);
    }
  }

  lemma OtherTypeEndsBlock(fs: seq<Finding>)
    requires |fs| > 1 && Contiguous(fs) && fs[1].name != fs[0].name
    ensures Without(fs[1..], fs[0].name)
  {
  }

  lemma ContiguousTail(fs: seq<Finding>)
    requires fs != [] && Contiguous(fs)
    ensures Contiguous(fs[1..])
  {
  }

  lemma SplitCons(first: Finding, tail: seq<Finding>, name: string)
    requires first.name == name && OfType(tail, name) + NotOfType(tail, name) == tail
    ensures OfType([first] + tail, name) + NotOfType([first] + tail, name) == [first] + tail
    ensures NotOfType([first] + tail, name) == NotOfType(tail, name)
  {
  }

  lemma {:induction false} ContiguousSplit(fs: seq<Finding>, name: string)
    requires fs != [] && fs[0].name == name && Contiguous(fs)
    ensures OfType(fs, name) + NotOfType(fs, name) == fs
    ensures Contiguous(NotOfType(fs, name))
  {
    var first, tail := fs[0], fs[1..];
    assert fs == [first] + tail;
    ContiguousTail(fs);
    if tail == [] {
    } else if tail[0].name == name {
      ContiguousSplit(tail, name);
    } else {
      OtherTypeEndsBlock(fs);
      OfTypeUniform(tail, name);
    }
    SplitCons(first, tail, name);
  }

  lemma {:induction false} ByTypeOfContiguous(fs: seq<Finding>)
    requires Contiguous(fs)
    ensures ByType(fs) == fs
    decreases |fs|
  {
    if fs != [] {
      var name := fs[0].name;
      ContiguousSplit(fs, name);
      assert NotOfType(fs, name) == NotOfType(fs[1..], name);
      ByTypeOfContiguous(NotOfType(fs, name));
    }
  }

  /** Grouping changes nothing exactly when the types already stand in blocks. */
  lemma ByTypeFixpoint(fs: seq<Finding>)
    ensures ByType(fs) == fs <==> Contiguous(fs)
  {
    ByTypeContiguous(fs);
    if Contiguous(fs) {
      ByTypeOfContiguous(fs);
    }
  }

  lemma WithoutFirstBlock(block: seq<Finding>, tail: seq<Finding>, name: string)
    requires block != [] && Only(block, name) && Without(tail, name)
    ensures NotOfType((block + tail)[1..], name) == tail
  {
    assert (block + tail)[1..] == block[1..] + tail;
    OfTypeConcat(block[1..], tail, name);
    OfTypeUniform(block[1..], name);
    OfTypeUniform(tail, name);
  }

  /** Removing the first block of a grouped list leaves the grouped rest. */
  lemma RestOfByType(fs: seq<Finding>)
    requires fs != []
    ensures var name := fs[0].name;
            && ByType(fs) != [] && ByType(fs)[0] == fs[0]
            && NotOfType(ByType(fs)[1..], name) == ByType(NotOfType(fs[1..], name))
  {
    FirstBlock(fs);
    var name := fs[0].name;
    WithoutFirstBlock(OfType(fs, name), ByType(NotOfType(fs[1..], name)), name);
  }

  lemma {:induction false} GroupedNames(fs: seq<Finding>, v: Vulnerability)
    requires v in Grouped(fs)
    ensures exists f :: f in fs && f.name == v.typeName
    decreases |fs|
  {
    if fs != [] {
      var name, rest := fs[0].name, NotOfType(fs[1..], fs[0].name);
      if v.typeName == name {
        assert fs[0] in fs;
      } else {
        GroupedNames(rest, v);
        OfTypeKeepsEvery(fs[1..], name);
        var f :| f in rest && f.name == v.typeName;
        assert f in fs;
      }
    }
  }

  lemma {:induction false} GroupedOfByType(fs: seq<Finding>)
    ensures Grouped(ByType(fs)) == Grouped(fs)
    decreases |fs|
  {
    if fs != [] {
      ByTypeIsStable(fs, fs[0].name);
      RestOfByType(fs);
      GroupedOfByType(NotOfType(fs[1..], fs[0].name));
    }
  }

  // -------------------------------------------- findings of a decoded report

  lemma {:induction false} VulnerabilityFindingsConcat(a: seq<Vulnerability>, b: seq<Vulnerability>)
    ensures VulnerabilityFindings(a + b) == VulnerabilityFindings(a) + VulnerabilityFindings(b)
  {
    if b == [] {
      assert a + b == a;
    } else {
      var front, last := b[..|b| - 1], b[|b| - 1];
      VulnerabilityFindingsConcat(a, front);
      assert (a + b)[..|a + b| - 1] == a + front && (a + b)[|a + b| - 1] == last;
      var tail := InstanceFindings(last.typeName, last.instances);
      assert VulnerabilityFindings(a + b) == VulnerabilityFindings(a + front) + tail;
      assert VulnerabilityFindings(b) == VulnerabilityFindings(front) + tail;
    }
  }

  lemma FindingsOfBlock(fs: seq<Finding>, name: string)
    requires Proper(fs) && Only(fs, name)
    ensures VulnerabilityFindings([Vulnerability(name, UNKNOWN_FILE, ToInstances(fs))]) == fs
  {
  }

  /** The groups of a decoded report list its findings type by type. */
  lemma {:induction false} FindingsOfGrouped(fs: seq<Finding>)
    requires Proper(fs)
    ensures VulnerabilityFindings(Grouped(fs)) == ByType(fs)
    decreases |fs|
  {
    if fs != [] {
      var name, rest := fs[0].name, NotOfType(fs[1..], fs[0].name);
      FirstBlock(fs);
      OfTypeKeepsEvery(fs, name);
      FindingsOfGrouped(rest);
      FindingsOfBlock(OfType(fs, name), name);
      VulnerabilityFindingsConcat(
        [Vulnerability(name, UNKNOWN_FILE, ToInstances(OfType(fs, name)))], Grouped(rest));
    }
  }

  lemma {:induction false} VulnerabilityFindingsProper(vs: seq<Vulnerability>)
    ensures Proper(VulnerabilityFindings(vs))
  {
    if vs != [] {
      VulnerabilityFindingsProper(vs[..|vs| - 1]);
    }
  }

  lemma {:induction false} FindingsProper(reports: seq<AnalyzerReport>)
    ensures Proper(Findings(reports))
    ensures Proper(KeepFirst(Findings(reports)))
  {
    if reports != [] {
      FindingsProper(reports[..|reports| - 1]);
      VulnerabilityFindingsProper(reports[|reports| - 1].vulnerabilities);
    }
    KeepFirstSubset(Findings(reports));
  }

  lemma FindingsOfProduced(version: string, state: int, status: string, hash: string,
                           fs: seq<Finding>)
    requires Proper(fs)
    ensures Findings(ProducedReport(version, state, status, hash, fs).analyzersReports) == ByType(fs)
  {
    var reports := ProducedReport(version, state, status, hash, fs).analyzersReports;
    assert Findings(reports[..0]) == [];
    FindingsOfGrouped(fs);
  }

  lemma FindingsOfCanonical(r: Report)
    requires HeaderFits(r)
    ensures var fs := KeepFirst(Findings(r.analyzersReports));
            && Findings(Canonical(r).analyzersReports) == ByType(fs)
            && KeepFirst(ByType(fs)) == ByType(fs)
  {
    var fs := KeepFirst(Findings(r.analyzersReports));
    FindingsProper(r.analyzersReports);
    FindingsOfProduced(VersionText(ParseVersion(r.version).value), r.auditState, r.status,
                       Upper(r.contractHash), fs);
    KeepFirstNoDuplicates(Findings(r.analyzersReports));
    ByTypeNoDuplicates(fs);
    KeepFirstNoDuplicates(ByType(fs));
  }

  lemma UpperTwice(s: string)
    ensures Upper(Upper(s)) == Upper(s)
  {
  }

  lemma GroupsOfCanonical(r: Report)
    requires HeaderFits(r)
    ensures Grouped(KeepFirst(Findings(Canonical(r).analyzersReports)))
            == Grouped(KeepFirst(Findings(r.analyzersReports)))
  {
    FindingsOfCanonical(r);
    GroupedOfByType(KeepFirst(Findings(r.analyzersReports)));
  }

  /** Canonicalising twice is canonicalising once. */
  lemma CanonicalIsIdempotent(r: Report)
    requires HeaderFits(r)
    ensures HeaderFits(Canonical(r))
    ensures Canonical(Canonical(r)) == Canonical(r)
  {
    ParseVersionText(ParseVersion(r.version).value);
    GroupsOfCanonical(r);
    UpperTwice(r.contractHash);
  }

  // -------------------------------------------------------------- re-encoding

  /** Decode, then compress again. */
  function Recompress(t: TypeTable, h: string): Result<string> {
    match Decode(t, h)
    case Raised => Raised
    case Ok(r) => Compress(t, r)
  }

  lemma {:induction false} CountSplit(long: bool, fs: seq<Finding>, name: string)
    ensures Count(long, OfType(fs, name)) + Count(long, NotOfType(fs, name)) == Count(long, fs)
  {
    if fs != [] {
      CountSplit(long, fs[1..], name);
    }
  }

  lemma {:induction false} CountConcat(long: bool, a: seq<Finding>, b: seq<Finding>)
    ensures Count(long, a + b) == Count(long, a) + Count(long, b)
  {
    if a == [] {
      assert a + b == b;
    } else {
      CountConcat(long, a[1..], b);
      assert (a + b)[1..] == a[1..] + b;
    }
  }

  lemma {:induction false} CountByType(long: bool, fs: seq<Finding>)
    ensures Count(long, ByType(fs)) == Count(long, fs)
    decreases |fs|
  {
    if fs != [] {
      var name, rest := fs[0].name, NotOfType(fs[1..], fs[0].name);
      CountByType(long, rest);
      CountConcat(long, OfType(fs, name), ByType(rest));
      CountSplit(long, fs, name);
      assert NotOfType(fs, name) == rest;
    }
  }

  lemma UpperHexHash(s: string)
    requires IsHex(s)
    ensures IsHex(Upper(s))
  {
  }

  /** The canonical form of a report that compresses also compresses, to a text of equal length. */
  lemma CanonicalEncodable(t: TypeTable, r: Report)
    requires HeaderFits(r) && AllEncodable(t, Findings(r.analyzersReports))
    ensures var fs := KeepFirst(Findings(r.analyzersReports));
            && Findings(Canonical(r).analyzersReports) == ByType(fs)
            && KeepFirst(ByType(fs)) == ByType(fs)
            && AllEncodable(t, ByType(fs))
  {
    var fs := KeepFirst(Findings(r.analyzersReports));
    FindingsOfCanonical(r);
    KeepFirstEncodable(t, Findings(r.analyzersReports));
    ByTypeKeepsEvery(fs);
    forall i | 0 <= i < |ByType(fs)| ensures Encodable(t, ByType(fs)[i]) {
      assert ByType(fs)[i] in fs;
    }
  }

  lemma CanonicalCompresses(t: TypeTable, r: Report)
    requires ValidTable(t) && Compress(t, r).Ok?
    ensures HeaderFits(r)
    ensures Compress(t, Canonical(r)).Ok?
    ensures |Compress(t, Canonical(r)).value| == |Compress(t, r).value|
  {
    CompressBits(t, r);
    CanonicalIsIdempotent(r);
    CanonicalEncodable(t, r);
    UpperHexHash(r.contractHash);
    assert Compressible(t, Canonical(r));
    CompressBits(t, Canonical(r));
    CompressSucceedsIff(t, r);
    CompressSucceedsIff(t, Canonical(r));
    var fs := KeepFirst(Findings(r.analyzersReports));
    CountByType(false, fs);
    CountByType(true, fs);
  }

  /** On anything the encoder produced, re-encoding succeeds, keeps the length and the set of
      findings, and doing it twice is doing it once. */
  lemma RecompressIsIdempotent(t: TypeTable, r: Report, h: string)
    requires ValidTable(t) && Compress(t, r) == Ok(h)
    ensures Recompress(t, h).Ok?
    ensures var n := Recompress(t, h).value;
            && |n| == |h|
            && Recompress(t, n) == Ok(n)
            && Decode(t, n) == Decode(t, h)
  {
    CompressThenDecode(t, r);
    CanonicalCompresses(t, r);
    CompressThenDecode(t, Canonical(r));
    CanonicalIsIdempotent(r);
  }
}
