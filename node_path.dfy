/**
 * Node's POSIX `path.join` as youtube.service.ts uses it: the parts joined
 * by '/', then normalised. Only absolute paths are modelled: the path is
 * read as the texts between its '/' characters, empty and '.' segments are
 * dropped, '..' drops the segment before it and stops at the root, and a
 * trailing '/' is kept.
 */
module NodePath {
  import opened Text

  /** A segment that normalisation keeps as it is. */
  predicate PlainSegment(x: string) {
    x != "" && x != "." && x != ".." && forall k :: 0 <= k < |x| ==> x[k] != '/'
  }

  /** The segments kept after reading `segments` on top of `kept`. */
  function Resolve(segments: seq<string>, kept: seq<string>): seq<string>
    decreases |segments|
  {
    if segments == [] then kept
    else if segments[0] == "" || segments[0] == "." then Resolve(segments[1..], kept)
    else if segments[0] == ".." then Resolve(segments[1..], if kept == [] then [] else kept[..|kept| - 1])
    else Resolve(segments[1..], kept + [segments[0]])
  }

  /** The segments of a path: the texts between its '/' characters, read one character at a time. */
  function Segments(path: string): (r: seq<string>)
    ensures |r| >= 1
    decreases |path|
  {
    if path == [] then [""]
    else
      var rest := Segments(path[1..]);
      if path[0] == '/' then [""] + rest else [[path[0]] + rest[0]] + rest[1..]
  }

  /** `path.normalize` of an absolute path. */
  function NormalizeAbsolute(path: string): string {
    var body := Join(Resolve(Segments(path), []), "/");
    "/" + body + (if body != "" && path != [] && path[|path| - 1] == '/' then "/" else "")
  }

  /** `path.join(dir, name)` for an absolute `dir`; an empty name is skipped. */
  function JoinAbsolute(dir: string, name: string): string {
    if name == "" then NormalizeAbsolute(dir) else NormalizeAbsolute(dir + "/" + name)
  }

  /** One step of normalisation, on the first segment. */
  lemma ResolveStep(segments: seq<string>, kept: seq<string>)
    requires segments != []
    ensures segments[0] == "" || segments[0] == "." ==> Resolve(segments, kept) == Resolve(segments[1..], kept)
    ensures segments[0] == ".." ==>
      Resolve(segments, kept) == Resolve(segments[1..], if kept == [] then [] else kept[..|kept| - 1])
    ensures segments[0] != "" && segments[0] != "." && segments[0] != ".." ==>
      Resolve(segments, kept) == Resolve(segments[1..], kept + [segments[0]])
  {
  }

  /** An empty segment is dropped. */
  lemma ResolveSkip(rest: seq<string>, kept: seq<string>)
    ensures Resolve([""] + rest, kept) == Resolve(rest, kept)
  {
    assert ([""] + rest)[1..] == rest;
  }

  /** A plain segment is kept. */
  lemma ResolveKeep(x: string, rest: seq<string>, kept: seq<string>)
    requires PlainSegment(x)
    ensures Resolve([x] + rest, kept) == Resolve(rest, kept + [x])
  {
    assert ([x] + rest)[0] == x && ([x] + rest)[1..] == rest;
  }

  /** A '..' segment drops the last kept segment, if any. */
  lemma ResolveUp(rest: seq<string>, kept: seq<string>)
    ensures Resolve([".."] + rest, kept) == Resolve(rest, if kept == [] then [] else kept[..|kept| - 1])
  {
    assert ([".."] + rest)[0] == ".." && ([".."] + rest)[1..] == rest;
  }

  /** Normalisation keeps only plain segments. */
  lemma {:induction false} ResolveKeepsPlain(segments: seq<string>, kept: seq<string>)
    requires forall k :: 0 <= k < |kept| ==> PlainSegment(kept[k])
    requires forall k :: 0 <= k < |segments| ==> forall q :: 0 <= q < |segments[k]| ==> segments[k][q] != '/'
    ensures forall k :: 0 <= k < |Resolve(segments, kept)| ==> PlainSegment(Resolve(segments, kept)[k])
    decreases |segments|
  {
    if segments != [] {
      var next := if segments[0] == "" || segments[0] == "." then kept
        else if segments[0] == ".." then (if kept == [] then [] else kept[..|kept| - 1])
        else kept + [segments[0]];
      ResolveStep(segments, kept);
      ResolveKeepsPlain(segments[1..], next);
    }
  }

  /** No segment holds a '/'. */
  lemma {:induction false} SegmentsHaveNoSlash(path: string)
    ensures forall k :: 0 <= k < |Segments(path)| ==> forall q :: 0 <= q < |Segments(path)[k]| ==> Segments(path)[k][q] != '/'
    decreases |path|
  {
    if path != [] {
      SegmentsHaveNoSlash(path[1..]);
      var rest := Segments(path[1..]);
      if path[0] != '/' {
        var first := [path[0]] + rest[0];
        forall q | 0 <= q < |first|
          ensures first[q] != '/'
        {
          if q > 0 { assert first[q] == rest[0][q - 1]; }
        }
      }
    }
  }

  /** Text without '/' is a single segment. */
  lemma {:induction false} SlashFreeSegment(s: string)
    requires forall k :: 0 <= k < |s| ==> s[k] != '/'
    ensures Segments(s) == [s]
    decreases |s|
  {
    if s != [] {
      SlashFreeSegment(s[1..]);
      assert [s[0]] + s[1..] == s;
    }
  }

  /** Reading a '/'-free piece and then a '/' yields that piece as the first segment. */
  lemma {:induction false} SegmentsAfter(a: string, b: string)
    requires forall k :: 0 <= k < |a| ==> a[k] != '/'
    ensures Segments(a + "/" + b) == [a] + Segments(b)
    decreases |a|
  {
    var s := a + "/" + b;
    if a == [] {
      assert s[1..] == b;
    } else {
      assert s[1..] == a[1..] + "/" + b;
      SegmentsAfter(a[1..], b);
      assert [a[0]] + a[1..] == a;
    }
  }

  /** A path that does not end in '/' normalises to the root followed by plain segments only. */
  lemma NormalizedIsPlain(path: string)
    requires path != [] && path[|path| - 1] != '/'
    ensures exists segments: seq<string> ::
      NormalizeAbsolute(path) == "/" + Join(segments, "/")
      && forall k :: 0 <= k < |segments| ==> PlainSegment(segments[k])
  {
    SegmentsHaveNoSlash(path);
    ResolveKeepsPlain(Segments(path), []);
    assert NormalizeAbsolute(path) == "/" + Join(Resolve(Segments(path), []), "/");
  }

  /** The segments of `/dir/name`: a root segment, `dir`, then the name's own. */
  lemma DirSegments(dir: string, name: string)
    requires PlainSegment(dir)
    ensures Segments("/" + dir + "/" + name) == ["", dir] + Segments(name)
  {
    SegmentsAfter(dir, name);
    SegmentsAfter("", dir + "/" + name);
    assert "" + "/" + (dir + "/" + name) == "/" + dir + "/" + name;
  }

  /** Normalising a path that does not end in '/' is the root followed by the kept segments. */
  lemma NormalizeTo(path: string, kept: seq<string>)
    requires path != [] && path[|path| - 1] != '/'
    requires Resolve(Segments(path), []) == kept
    ensures NormalizeAbsolute(path) == "/" + Join(kept, "/")
  {
  }

  /** A plain name is joined under a plain directory as it is. */
  lemma JoinPlain(dir: string, name: string)
    requires PlainSegment(dir) && PlainSegment(name)
    ensures JoinAbsolute("/" + dir, name) == "/" + dir + "/" + name
  {
    var p := "/" + dir + "/" + name;
    var segs := ["", dir, name];
    assert Segments(p) == segs by {
      SlashFreeSegment(name);
      DirSegments(dir, name);
    }
    assert Resolve(segs, []) == [dir, name] by {
      assert segs == [""] + ([dir] + ([name] + []));
      ResolveSkip([dir] + ([name] + []), []);
      ResolveKeep(dir, [name] + [], []);
      assert [] + [dir] == [dir];
      ResolveKeep(name, [], [dir]);
    }
    assert p[|p| - 1] != '/' by {
      assert p[|p| - 1] == name[|name| - 1];
    }
    NormalizeTo(p, [dir, name]);
    assert Join([dir, name], "/") == dir + "/" + name;
  }

  /** The segments of `/dir/d/../name`. */
  lemma ClimbSegments(dir: string, d: string, name: string)
    requires PlainSegment(dir) && PlainSegment(d)
    ensures Segments("/" + dir + "/" + (d + "/../" + name)) == ["", dir, d, ".."] + Segments(name)
  {
    SegmentsAfter("..", name);
    assert ".." + "/" + name == "../" + name;
    SegmentsAfter(d, "../" + name);
    assert d + "/" + ("../" + name) == d + "/../" + name;
    DirSegments(dir, d + "/../" + name);
    assert ["", dir] + ([d] + ([".."] + Segments(name))) == ["", dir, d, ".."] + Segments(name);
  }

  /** Reading `/dir/d/..` and more is reading `/dir` and the same more. */
  lemma ResolveClimb(dir: string, d: string, tail: seq<string>)
    requires PlainSegment(dir) && PlainSegment(d)
    ensures Resolve(["", dir, d, ".."] + tail, []) == Resolve(["", dir] + tail, [])
  {
    assert Resolve(["", dir, d, ".."] + tail, []) == Resolve(tail, [dir]) by {
      assert ["", dir, d, ".."] + tail == [""] + ([dir] + ([d] + ([".."] + tail)));
      ResolveSkip([dir] + ([d] + ([".."] + tail)), []);
      ResolveKeep(dir, [d] + ([".."] + tail), []);
      assert [] + [dir] == [dir];
      ResolveKeep(d, [".."] + tail, [dir]);
      ResolveUp(tail, [dir] + [d]);
      assert ([dir] + [d])[..1] == [dir];
    }
    assert Resolve(["", dir] + tail, []) == Resolve(tail, [dir]) by {
      assert ["", dir] + tail == [""] + ([dir] + tail);
      ResolveSkip([dir] + tail, []);
      ResolveKeep(dir, tail, []);
      assert [] + [dir] == [dir];
    }
  }

  /** A plain segment followed by '..' cancels out of a joined name. */
  lemma JoinClimb(dir: string, d: string, name: string)
    requires PlainSegment(dir) && PlainSegment(d) && name != []
    ensures JoinAbsolute("/" + dir, d + "/../" + name) == JoinAbsolute("/" + dir, name)
  {
    ClimbSegments(dir, d, name);
    DirSegments(dir, name);
    ResolveClimb(dir, d, Segments(name));
    var j1 := "/" + dir + "/" + (d + "/../" + name);
    var j2 := "/" + dir + "/" + name;
    assert j1[|j1| - 1] == name[|name| - 1] == j2[|j2| - 1];
  }

  /** A leading '..' climbs out of the directory: a plain name lands at the root. */
  lemma JoinLeadingClimb(dir: string, name: string)
    requires PlainSegment(dir) && PlainSegment(name)
    ensures JoinAbsolute("/" + dir, "../" + name) == "/" + name
  {
    var p := "/" + dir + "/" + ("../" + name);
    var segs := ["", dir, "..", name];
    assert Segments(p) == segs by {
      SlashFreeSegment(name);
      SegmentsAfter("..", name);
      assert ".." + "/" + name == "../" + name;
      DirSegments(dir, "../" + name);
    }
    assert Resolve(segs, []) == [name] by {
      assert segs == [""] + ([dir] + ([".."] + ([name] + [])));
      ResolveSkip([dir] + ([".."] + ([name] + [])), []);
      ResolveKeep(dir, [".."] + ([name] + []), []);
      assert [] + [dir] == [dir];
      ResolveUp([name] + [], [dir]);
      ResolveKeep(name, [], []);
    }
    assert p[|p| - 1] != '/' by {
      assert p[|p| - 1] == name[|name| - 1];
    }
    NormalizeTo(p, [name]);
  }
}
