/** File-system paths as the build script builds them with `Path.resolve`
    and `File.resolve`, and renders them with `toString()` (Unix form). */
module Paths {
  import opened Text

  /** A path: whether it starts at the root, and its name segments. */
  datatype Path = Path(absolute: bool, segments: seq<string>)

  /** A single file or directory name. */
  predicate IsName(s: string) {
    s != "" && '/' !in s
  }

  /** A name that denotes a directory entry of its own (not `.` or `..`). */
  predicate IsPlainName(s: string) {
    IsName(s) && s != "." && s != ".."
  }

  predicate AllNames(segs: seq<string>) {
    forall k :: 0 <= k < |segs| ==> IsName(segs[k])
  }

  /** The non-empty pieces, in order. */
  function NonEmpty(parts: seq<string>): (r: seq<string>)
    ensures forall k :: 0 <= k < |r| ==> r[k] != "" && r[k] in parts
    ensures |r| <= |parts|
  {
    if parts == [] then []
    else if parts[0] == "" then NonEmpty(parts[1..])
    else [parts[0]] + NonEmpty(parts[1..])
  }

  /** The name segments of a path string: separators collapse and a
      trailing separator is dropped, as `Path.of` normalises them. */
  function Segments(s: string): (segs: seq<string>)
    ensures AllNames(segs)
  {
    var r := NonEmpty(Split(s, '/'));
    assert forall k :: 0 <= k < |r| ==> '/' !in r[k] by {
      forall k | 0 <= k < |r| ensures '/' !in r[k] {
        var j :| 0 <= j < |Split(s, '/')| && Split(s, '/')[j] == r[k];
      }
    }
    r
  }

  predicate IsAbsoluteString(s: string) {
    |s| > 0 && s[0] == '/'
  }

  /** `p.resolve(s)`: an absolute `s` replaces `p`, a relative one extends it. */
  function Resolve(p: Path, s: string): (r: Path)
    ensures !IsAbsoluteString(s) ==> IsUnder(p, r)
    ensures IsAbsoluteString(s) ==> r.absolute
  {
    if IsAbsoluteString(s) then Path(true, Segments(s))
    else Path(p.absolute, p.segments + Segments(s))
  }

  /** `p.resolve(name)` for a single name (see ResolveName). */
  function Child(p: Path, name: string): (r: Path)
    requires IsName(name)
    ensures IsUnder(p, r) && r != p
  {
    Path(p.absolute, p.segments + [name])
  }

  /** `q` lies at or below directory `p`. */
  predicate IsUnder(p: Path, q: Path) {
    p.absolute == q.absolute && p.segments <= q.segments
  }

  /** `p.toString()`. */
  function Render(p: Path): (s: string)
    ensures p.absolute ==> IsAbsoluteString(s)
  {
    (if p.absolute then "/" else "") + (if p.segments == [] then "" else Join(p.segments, '/'))
  }

  /** Reading a path string back: what `Path.of(s)` denotes. */
  function Parse(s: string): Path {
    Path(IsAbsoluteString(s), Segments(s))
  }

  lemma {:induction false} NonEmptyKeeps(parts: seq<string>)
    requires forall k :: 0 <= k < |parts| ==> parts[k] != ""
    ensures NonEmpty(parts) == parts
    decreases |parts|
  {
    if parts != [] {
      NonEmptyKeeps(parts[1..]);
      assert [parts[0]] + parts[1..] == parts;
    }
  }

  /** A single name resolves to one more segment. */
  lemma NameSegments(s: string)
    requires IsName(s)
    ensures Segments(s) == [s]
  {
    SplitNoDelimiter(s, '/');
    NonEmptyKeeps([s]);
  }

  lemma ResolveName(p: Path, s: string)
    requires IsName(s)
    ensures Resolve(p, s) == Child(p, s)
  {
    NameSegments(s);
  }

  /** Rendering a path of proper names and reading it back gives the path. */
  lemma ParseRender(p: Path)
    requires AllNames(p.segments)
    ensures Parse(Render(p)) == p
  {
    var body := if p.segments == [] then "" else Join(p.segments, '/');
    var s := Render(p);
    if p.segments != [] {
      assert forall k :: 0 <= k < |p.segments| ==> '/' !in p.segments[k];
      SplitJoin(p.segments, '/');
      NonEmptyKeeps(p.segments);
      assert p.segments[0] != "" && body[0] == p.segments[0][0];
    }
    if p.absolute {
      assert s == [] + ['/'] + body;
      SplitHead([], body, '/');
      if p.segments == [] {
        assert Split(body, '/') == [""];
      }
      assert Segments(s) == NonEmpty(Split(body, '/'));
    } else {
      assert s == body;
      if p.segments == [] {
        assert Split(body, '/') == [""];
      }
    }
  }
}
