/** Windows paths as the ingestion reads them: `os.path.normpath(p).split(os.sep)`
    with `os.sep` the back slash and `/` accepted as an alternative separator,
    and the inverse direction, a path written out from its components. */
module Paths {
  import opened Text

  const Sep: char := '\\'
  const AltSep: char := '/'

  /** `path.replace(altsep, sep)`. */
  function ToSep(path: string): (r: string)
    ensures |r| == |path|
    ensures AltSep !in r
  {
    seq(|path|, i requires 0 <= i < |path| => if path[i] == AltSep then Sep else path[i])
  }

  /** The component loop of `normpath`: empty (doubled separator) and `.`
      components are dropped, and `..` removes the component before it unless
      there is none or it is itself `..`. `kept` holds the components so far. */
  function Resolve(comps: seq<string>, kept: seq<string>): (r: seq<string>)
    decreases |comps|
  {
    if comps == [] then kept
    else
      var c := comps[0];
      if c == "" || c == "." then Resolve(comps[1..], kept)
      else if c == ".." && |kept| > 0 && kept[|kept| - 1] != ".." then Resolve(comps[1..], kept[..|kept| - 1])
      else Resolve(comps[1..], kept + [c])
  }

  /** `os.path.normpath(path).split(os.sep)`; `normpath` of an empty result is `.`. */
  function NormParts(path: string): (parts: seq<string>)
    ensures |parts| >= 1
  {
    var r := Resolve(SplitOn(ToSep(path), Sep), []);
    if r == [] then ["."] else r
  }

  /** A component that `normpath` keeps as it is. */
  predicate Plain(c: string)
  {
    c != "" && c != "." && c != ".." && Sep !in c && AltSep !in c
  }

  predicate AllPlain(comps: seq<string>)
  {
    forall i :: 0 <= i < |comps| ==> Plain(comps[i])
  }

  /** `str(Path(c0) / c1 / ... )` on Windows for components that need no
      normalising: the components joined by the separator. */
  function PathString(comps: seq<string>): string
  {
    JoinWith(Sep, comps)
  }

  /** The pieces a relative component adds when `pathlib` joins it: its
      pieces between separators, without empty and `.` pieces. */
  function Segments(c: string): (r: seq<string>)
    ensures forall i :: 0 <= i < |r| ==> r[i] != "" && r[i] != "."
  {
    Kept(SplitOn(ToSep(c), Sep))
  }

  function Kept(pieces: seq<string>): (r: seq<string>)
    ensures forall i :: 0 <= i < |r| ==> r[i] != "" && r[i] != "."
    ensures |r| <= |pieces|
  {
    if pieces == [] then []
    else if pieces[0] == "" || pieces[0] == "." then Kept(pieces[1..])
    else [pieces[0]] + Kept(pieces[1..])
  }

  function AllSegments(comps: seq<string>): seq<string>
  {
    if comps == [] then [] else Segments(comps[0]) + AllSegments(comps[1..])
  }

  /** `str(Path(c0) / c1 / ...)` on Windows for components without a drive or
      a leading separator: the kept pieces of all components joined by the
      separator. */
  function PathJoin(comps: seq<string>): string
  {
    JoinWith(Sep, AllSegments(comps))
  }

  /** A plain component is one piece. */
  lemma SegmentsPlain(c: string)
    requires Plain(c)
    ensures Segments(c) == [c]
  {
    ToSepIdentity(c);
    SplitWithoutSep(c, Sep);
  }

  /** Joining plain components is writing them out with separators between. */
  lemma {:induction false} PathJoinPlain(comps: seq<string>)
    requires AllPlain(comps)
    ensures PathJoin(comps) == PathString(comps)
  {
    AllSegmentsPlain(comps);
  }

  lemma {:induction false} AllSegmentsPlain(comps: seq<string>)
    requires AllPlain(comps)
    ensures AllSegments(comps) == comps
    decreases |comps|
  {
    if comps != [] {
      assert Plain(comps[0]);
      SegmentsPlain(comps[0]);
      AllSegmentsPlain(comps[1..]);
      assert [comps[0]] + comps[1..] == comps;
    }
  }

  /** Plain components pass through the loop unchanged. */
  lemma {:induction false} ResolvePlain(comps: seq<string>, kept: seq<string>)
    requires AllPlain(comps)
    ensures Resolve(comps, kept) == kept + comps
    decreases |comps|
  {
    if comps != [] {
      assert Plain(comps[0]);
      ResolvePlain(comps[1..], kept + [comps[0]]);
      assert kept + [comps[0]] + comps[1..] == kept + comps;
    }
  }

  lemma ToSepIdentity(s: string)
    requires AltSep !in s
    ensures ToSep(s) == s
  {
  }

  /** Reading back a written path gives its components again. */
  lemma NormPartsOfPathString(comps: seq<string>)
    requires |comps| >= 1 && AllPlain(comps)
    ensures NormParts(PathString(comps)) == comps
  {
    JoinWithout(Sep, comps, AltSep);
    ToSepIdentity(PathString(comps));
    SplitJoin(comps, Sep);
    ResolvePlain(comps, []);
  }
}
