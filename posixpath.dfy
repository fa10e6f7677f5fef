/** `os.path.join` as Python's `posixpath` defines it. */
module PosixPath {

  /** One step of `os.path.join`: an absolute component replaces the path built so far;
      otherwise a `/` is inserted unless the path is empty or already ends with one. */
  function Join2(a: string, b: string): (r: string)
    ensures |b| <= |r| && r[|r| - |b|..] == b
    ensures |b| > 0 && b[0] == '/' ==> r == b
    ensures b == [] || b[0] != '/' ==>
      && |a| <= |r| - |b| <= |a| + 1 && r[..|a|] == a
      && (|r| - |b| == |a| + 1 ==> r[|a|] == '/')
  {
    if |b| > 0 && b[0] == '/' then b
    else if a == [] || a[|a| - 1] == '/' then a + b
    else a + "/" + b
  }

  /** `os.path.join(a, *parts)` */
  function Join(a: string, parts: seq<string>): (r: string)
    ensures parts == [] ==> r == a
    ensures parts != [] ==> |parts[|parts| - 1]| <= |r| && r[|r| - |parts[|parts| - 1]|..] == parts[|parts| - 1]
    ensures (forall i :: 0 <= i < |parts| ==> parts[i] == [] || parts[i][0] != '/') ==> |a| <= |r| && r[..|a|] == a
    decreases |parts|
  {
    if parts == [] then a
    else
      var r := Join(Join2(a, parts[0]), parts[1..]);
      assert parts[1..] != [] ==> parts[1..][|parts[1..]| - 1] == parts[|parts| - 1];
      assert (forall i :: 0 <= i < |parts| ==> parts[i] == [] || parts[i][0] != '/') ==>
        (forall i :: 0 <= i < |parts[1..]| ==> parts[1..][i] == [] || parts[1..][i][0] != '/');
      r
  }

  /** Joining is a left fold: joining two lists of components in a row is joining their
      concatenation. */
  lemma {:induction false} JoinConcat(a: string, ps: seq<string>, qs: seq<string>)
    ensures Join(a, ps + qs) == Join(Join(a, ps), qs)
    decreases |ps|
  {
    if ps == [] {
      assert ps + qs == qs;
    } else {
      assert (ps + qs)[0] == ps[0] && (ps + qs)[1..] == ps[1..] + qs;
      JoinConcat(Join2(a, ps[0]), ps[1..], qs);
    }
  }

  /** An absolute component discards everything joined before it. */
  lemma JoinAbsolute(a: string, ps: seq<string>, b: string, qs: seq<string>)
    requires |b| > 0 && b[0] == '/'
    ensures Join(a, ps + [b] + qs) == Join(b, qs)
  {
    JoinConcat(a, ps + [b], qs);
    JoinConcat(a, ps, [b]);
  }

  /** A relative component is appended after one separator. */
  lemma JoinRelative(a: string, b: string)
    requires a != [] && a[|a| - 1] != '/'
    requires b == [] || b[0] != '/'
    ensures Join2(a, b) == a + "/" + b
  {
  }

  lemma JoinFour(a: string, p: string, q: string, r: string, s: string)
    ensures Join(a, [p, q, r, s]) == Join2(Join2(Join2(Join2(a, p), q), r), s)
  {
    var parts := [p, q, r, s];
    assert parts[1..] == [q, r, s] && [q, r, s][1..] == [r, s] && [r, s][1..] == [s] && [s][1..] == [];
    assert Join(a, parts) == Join(Join2(a, p), [q, r, s]);
    assert Join(Join2(a, p), [q, r, s]) == Join(Join2(Join2(a, p), q), [r, s]);
    assert Join(Join2(Join2(a, p), q), [r, s]) == Join(Join2(Join2(Join2(a, p), q), r), [s]);
  }
}
