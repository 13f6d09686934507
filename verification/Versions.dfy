/** Version strings "major.minor.patch" (report_processing.py:159, 204). */
module Versions {
  import opened Wrappers
  import opened Decimal

  datatype Version = Version(major: int, minor: int, patch: int)

  /** Python's `s.split(".")` */
  function Split(s: string): (parts: seq<string>)
    ensures |parts| >= 1
  {
    if s == [] then [""]
    else
      var rest := Split(s[1..]);
      if s[0] == '.' then [""] + rest
      else [[s[0]] + rest[0]] + rest[1..]
  }

  function ParseVersion(s: string): Result<Version> {
    var parts := Split(s);
    if |parts| != 3 then Raised
    else match (ParseInt(parts[0]), ParseInt(parts[1]), ParseInt(parts[2]))
      case (Some(a), Some(b), Some(c)) => Ok(Version(a, b, c))
      case _ => Raised
  }

  function VersionText(v: Version): string {
    IntText(v.major) + "." + IntText(v.minor) + "." + IntText(v.patch)
  }

  function Joined(parts: seq<string>): string
    requires parts != []
  {
    if |parts| == 1 then parts[0] else parts[0] + "." + Joined(parts[1..])
  }

  /** Splitting is undone by joining with dots, and no part holds a dot. */
  lemma {:induction false} SplitThenJoin(s: string)
    ensures Joined(Split(s)) == s
    ensures forall i :: 0 <= i < |Split(s)| ==> '.' !in Split(s)[i]
  {
    if s != [] {
      var rest := Split(s[1..]);
      SplitThenJoin(s[1..]);
      assert s == [s[0]] + s[1..];
      if s[0] == '.' {
        assert ([""] + rest)[1..] == rest;
      } else {
        assert ([[s[0]] + rest[0]] + rest[1..])[1..] == rest[1..];
        if |rest| > 1 {
          assert [s[0]] + rest[0] + "." + Joined(rest[1..]) == [s[0]] + (rest[0] + "." + Joined(rest[1..]));
        }
      }
    }
  }

  lemma {:induction false} SplitAtDot(a: string, b: string)
    requires '.' !in a
    ensures Split(a + "." + b) == [a] + Split(b)
    ensures Split(a) == [a]
  {
    if a == [] {
      assert a + "." + b == "." + b;
    } else {
      SplitAtDot(a[1..], b);
      assert a + "." + b == [a[0]] + (a[1..] + "." + b);
      assert a == [a[0]] + a[1..];
    }
  }

  /** A decoded version string parses to the numbers it was built from. */
  lemma ParseVersionText(v: Version)
    ensures ParseVersion(VersionText(v)) == Ok(v)
  {
    var a, b, c := IntText(v.major), IntText(v.minor), IntText(v.patch);
    assert !IsDigit('.');
    SplitAtDot(a, b + "." + c);
    SplitAtDot(b, c);
    SplitAtDot(c, "");
    assert VersionText(v) == a + "." + (b + "." + c);
    ParseIntText(v.major);
    ParseIntText(v.minor);
    ParseIntText(v.patch);
  }
}
