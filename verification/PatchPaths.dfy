/** The path of a proposed patch: relative, inside the project, and in its cleaned form. */
module PatchPaths {
  import opened Wrappers
  import Text

  datatype PathError = PathRequired | UnsafePath

  function Segments(p: string): (r: seq<string>)
    ensures r != []
  {
    if p == "" then [""]
    else
      var rest := Segments(p[1..]);
      if p[0] == '/' then [""] + rest else [[p[0]] + rest[0]] + rest[1..]
  }

  function Joined(segments: seq<string>): string {
    if segments == [] then "" else if |segments| == 1 then segments[0] else segments[0] + "/" + Joined(segments[1..])
  }

  /** Cleaning a relative path without parent segments drops the empty segments and the dots. */
  function Kept(segments: seq<string>): seq<string> {
    if segments == [] then []
    else (if segments[0] == "" || segments[0] == "." then [] else [segments[0]]) + Kept(segments[1..])
  }

  predicate DrivePrefix(p: string) {
    |p| >= 2 && p[1] == ':' && ('A' <= p[0] <= 'Z' || 'a' <= p[0] <= 'z')
  }

  function Normalize(raw: string): Result<string, PathError> {
    var p := Text.TrimSpace(raw);
    if p == "" then Err(PathRequired)
    else if '\\' in p || DrivePrefix(p) || p[0] == '/' then Err(UnsafePath)
    else if ".." in Segments(p) then Err(UnsafePath)
    else if Kept(Segments(p)) == [] then Err(UnsafePath)
    else Ok(Joined(Kept(Segments(p))))
  }

  lemma {:induction false} SegmentsHaveNoSlash(p: string)
    ensures forall s :: s in Segments(p) ==> '/' !in s
  {
    if p != "" {
      var rest := Segments(p[1..]);
      SegmentsHaveNoSlash(p[1..]);
      assert rest[0] in rest && forall s :: s in rest[1..] ==> s in rest;
    }
  }

  lemma {:induction false} KeptAre(segments: seq<string>)
    ensures forall s :: s in Kept(segments) <==> s in segments && s != "" && s != "."
  {
    if segments != [] {
      KeptAre(segments[1..]);
      assert segments == [segments[0]] + segments[1..];
    }
  }

  lemma {:induction false} SegmentsOfOne(s: string, tail: string)
    requires '/' !in s
    ensures Segments(s + "/" + tail) == [s] + Segments(tail)
    ensures Segments(s) == [s]
  {
    if s == "" {
      assert s + "/" + tail == "/" + tail;
      assert ("/" + tail)[1..] == tail;
    } else {
      assert s == [s[0]] + s[1..];
      assert (s + "/" + tail)[1..] == s[1..] + "/" + tail;
      assert (s + "/" + tail)[0] == s[0];
      SegmentsOfOne(s[1..], tail);
    }
  }

  lemma {:induction false} SegmentsOfJoined(segments: seq<string>)
    requires segments != [] && forall s :: s in segments ==> '/' !in s
    ensures Segments(Joined(segments)) == segments
  {
    assert segments[0] in segments;
    if |segments| > 1 {
      assert forall s :: s in segments[1..] ==> s in segments;
      SegmentsOfJoined(segments[1..]);
      SegmentsOfOne(segments[0], Joined(segments[1..]));
      assert segments == [segments[0]] + segments[1..];
    } else {
      SegmentsOfOne(segments[0], "");
      assert segments == [segments[0]];
    }
  }

  /** `segment` stands in `p` from position i, between slashes or the ends. */
  predicate SegmentAt(p: string, segment: string, i: nat) {
    && i + |segment| <= |p| && p[i..i + |segment|] == segment && '/' !in segment
    && (i == 0 || p[i - 1] == '/') && (i + |segment| == |p| || p[i + |segment|] == '/')
  }

  ghost predicate HasSegment(p: string, segment: string) {
    exists i: nat :: SegmentAt(p, segment, i)
  }

  lemma SegmentAtTail(p: string, segment: string, i: nat)
    requires p != "" && i > 0 && (i > 1 || p[0] == '/')
    ensures SegmentAt(p, segment, i) <==> SegmentAt(p[1..], segment, i - 1)
  {
    if i + |segment| <= |p| { assert p[i..i + |segment|] == p[1..][i - 1..i - 1 + |segment|]; }
  }

  /** The first segment ends at the first slash. */
  lemma {:induction false} FirstSegment(p: string, segment: string)
    ensures SegmentAt(p, segment, 0) <==> segment == Segments(p)[0]
  {
    if p != "" && p[0] != '/' {
      var first := Segments(p[1..])[0];
      FirstSegment(p[1..], first);
      assert p == [p[0]] + p[1..];
      assert SegmentAt(p, [p[0]] + first, 0) by {
        assert p[..1 + |first|] == [p[0]] + p[1..][..|first|];
      }
      if SegmentAt(p, segment, 0) { OneSegmentAtStart(p, segment, [p[0]] + first); }
    }
  }

  lemma OneSegmentAtStart(p: string, a: string, b: string)
    requires SegmentAt(p, a, 0) && SegmentAt(p, b, 0)
    ensures a == b
  {
    assert a == p[..|a|] && b == p[..|b|];
    NoSlashBefore(p, a, |b|);
    NoSlashBefore(p, b, |a|);
  }

  lemma NoSlashBefore(p: string, a: string, n: nat)
    requires SegmentAt(p, a, 0) && n <= |p| && (n == |p| || p[n] == '/')
    ensures |a| <= n
  {
    assert a == p[..|a|];
    assert forall i :: 0 <= i < |a| ==> p[i] == a[i];
  }

  ghost predicate HasLaterSegment(p: string, segment: string) {
    exists i: nat :: i > 0 && SegmentAt(p, segment, i)
  }

  lemma {:induction false} LaterSegments(p: string, segment: string)
    ensures segment in Segments(p)[1..] <==> HasLaterSegment(p, segment)
  {
    if p != "" {
      LaterSegments(p[1..], segment);
      FirstSegment(p[1..], segment);
      forall i: nat | i > 0 && (i > 1 || p[0] == '/')
        ensures SegmentAt(p, segment, i) <==> SegmentAt(p[1..], segment, i - 1)
      {
        SegmentAtTail(p, segment, i);
      }
      if i: nat :| i > 0 && SegmentAt(p[1..], segment, i) { assert SegmentAt(p, segment, i + 1); }
      if p[0] == '/' {
        assert Segments(p)[1..] == [Segments(p[1..])[0]] + Segments(p[1..])[1..];
        if SegmentAt(p[1..], segment, 0) { assert SegmentAt(p, segment, 1); }
      } else {
        assert Segments(p)[1..] == Segments(p[1..])[1..];
      }
    }
  }

  /** The segments are what stands between the slashes. */
  lemma SegmentsAreBetweenSlashes(p: string, segment: string)
    ensures segment in Segments(p) <==> HasSegment(p, segment)
  {
    FirstSegment(p, segment);
    LaterSegments(p, segment);
    assert Segments(p) == [Segments(p)[0]] + Segments(p)[1..];
  }

  /** A path that may be patched, said on the text itself. */
  ghost predicate Safe(p: string)
    requires p != ""
  {
    && '\\' !in p && !DrivePrefix(p) && p[0] != '/'
    && !HasSegment(p, "..")
    && exists segment :: HasSegment(p, segment) && segment != "" && segment != "."
  }

  /** A path is required, and accepted exactly when its trimmed form is safe. */
  lemma AcceptedExactlyWhenSafe(raw: string)
    ensures var p := Text.TrimSpace(raw);
            && (Normalize(raw) == Err(PathRequired) <==> p == "")
            && (p != "" ==> (Normalize(raw).Ok? <==> Safe(p)))
  {
    var p := Text.TrimSpace(raw);
    var segments := Segments(p);
    KeptAre(segments);
    SegmentsAreBetweenSlashes(p, "..");
    if segment :| HasSegment(p, segment) && segment != "" && segment != "." {
      SegmentsAreBetweenSlashes(p, segment);
      assert segment in Kept(segments);
    }
    if Kept(segments) != [] {
      var segment := Kept(segments)[0];
      assert segment in segments;
      SegmentsAreBetweenSlashes(p, segment);
    }
  }

  /**
   A path that is accepted is relative and stays inside: its segments are exactly those of the trimmed input that are
   neither empty nor a dot, in order, and none of them is the parent directory.
   */
  lemma AcceptedPathsStayInside(raw: string)
    requires Normalize(raw).Ok?
    ensures Segments(Normalize(raw).value) == Kept(Segments(Text.TrimSpace(raw)))
    ensures forall s :: s in Segments(Normalize(raw).value) ==> s != "" && s != "." && s != ".."
    ensures Normalize(raw).value != "" && Normalize(raw).value[0] != '/'
  {
    var kept := Kept(Segments(Text.TrimSpace(raw)));
    SegmentsHaveNoSlash(Text.TrimSpace(raw));
    KeptAre(Segments(Text.TrimSpace(raw)));
    SegmentsOfJoined(kept);
    assert kept[0] in kept;
  }
}
