/** Webhook paths: stripping slashes, dynamic segments, and the recorded path length. */
module WebhookPath {

  /** `path.split('/')`. */
  function Split(path: string): (segments: seq<string>)
    ensures segments != []
  {
    if path == "" then [""]
    else
      var rest := Split(path[1..]);
      if path[0] == '/' then [""] + rest else [[path[0]] + rest[0]] + rest[1..]
  }

  /** Segments with a slash between any two of them. */
  function Joined(segments: seq<string>): string {
    if segments == [] then ""
    else if |segments| == 1 then segments[0]
    else segments[0] + "/" + Joined(segments[1..])
  }

  predicate NoSlashes(segments: seq<string>) {
    forall i :: 0 <= i < |segments| ==> '/' !in segments[i]
  }

  lemma JoinedAfterSlash(segments: seq<string>)
    requires segments != []
    ensures Joined([""] + segments) == "/" + Joined(segments)
  {
    assert ([""] + segments)[1..] == segments;
  }

  lemma JoinedLonger(c: char, first: string, rest: seq<string>)
    ensures Joined([[c] + first] + rest) == [c] + Joined([first] + rest)
  {
    assert ([[c] + first] + rest)[1..] == rest && ([first] + rest)[1..] == rest;
    PrefixedConcat(c, first, "/" + Joined(rest));
    PrefixedConcat(c, first, "/");
    if rest != [] {
      assert Joined([first] + rest) == first + "/" + Joined(rest);
      assert Joined([[c] + first] + rest) == ([c] + first) + "/" + Joined(rest);
    }
  }

  lemma PrefixedConcat(c: char, a: string, b: string)
    ensures ([c] + a) + b == [c] + (a + b)
  {
  }

  /** Splitting takes a path apart at its slashes, and nowhere else. */
  lemma {:induction false} SplitJoins(path: string)
    ensures Joined(Split(path)) == path && NoSlashes(Split(path))
  {
    if path != "" {
      var rest := Split(path[1..]);
      SplitJoins(path[1..]);
      JoinedAfterSlash(rest);
      JoinedLonger(path[0], rest[0], rest[1..]);
      assert rest == [rest[0]] + rest[1..];
      assert path == [path[0]] + path[1..];
    }
  }

  /** `path.startsWith(':') || path.includes('/:')`. */
  predicate IsDynamic(path: string) {
    SegmentStartsWithColon(path) || ColonInside(path)
  }

  predicate SegmentStartsWithColon(segment: string) {
    segment != "" && segment[0] == ':'
  }

  predicate ColonInside(path: string) {
    exists i :: 0 <= i < |path| - 1 && path[i] == '/' && path[i + 1] == ':'
  }

  predicate LeadingSlash(path: string) {
    path != "" && path[0] == '/'
  }

  predicate TrailingSlash(path: string) {
    path != "" && path[|path| - 1] == '/'
  }

  /** At most one leading slash is dropped, then at most one trailing slash. */
  function Stripped(path: string): string {
    var tail := if LeadingSlash(path) then path[1..] else path;
    if TrailingSlash(tail) then tail[..|tail| - 1] else tail
  }

  /** What stripping drops is a slash in front, if there is one, and then one at the end, if there is one left. */
  lemma StrippedExactly(path: string, stripped: string)
    ensures stripped == Stripped(path)
       <==> || (path == "/" + stripped + "/")
            || (path == "/" + stripped && !TrailingSlash(stripped))
            || (path == stripped + "/" && !LeadingSlash(path))
            || (path == stripped && !LeadingSlash(path) && !TrailingSlash(path))
  {
    if LeadingSlash(path) {
      assert path == "/" + path[1..];
      if TrailingSlash(path[1..]) { assert path[1..] == path[1..][..|path| - 2] + "/"; }
    } else if TrailingSlash(path) {
      assert path == path[..|path| - 1] + "/";
    }
    if path == "/" + stripped + "/" { assert path[1..] == stripped + "/"; }
    if path == "/" + stripped { assert path[1..] == stripped; }
  }

  /** How many slashes stripping drops: the path "/" loses one, not two. */
  function SlashesStripped(path: string): nat {
    (if LeadingSlash(path) then 1 else 0)
    + (if TrailingSlash(if LeadingSlash(path) then path[1..] else path) then 1 else 0)
  }

  function Slashes(path: string): nat {
    if path == "" then 0 else Slashes(path[1..]) + if path[0] == '/' then 1 else 0
  }

  lemma {:induction false} SegmentCount(path: string)
    ensures |Split(path)| == Slashes(path) + 1
  {
    if path != "" {
      SegmentCount(path[1..]);
    }
  }

  lemma {:induction false} SlashesAppend(path: string, c: char)
    ensures Slashes(path + [c]) == Slashes(path) + if c == '/' then 1 else 0
  {
    if path == "" {
      assert path + [c] == [c] && [c][1..] == "";
    } else {
      assert (path + [c])[1..] == path[1..] + [c];
      SlashesAppend(path[1..], c);
    }
  }

  /** The recorded length of a stripped path is the raw segment count less the slashes stripped. */
  lemma LengthOfStripped(path: string)
    ensures |Split(Stripped(path))| == |Split(path)| - SlashesStripped(path)
  {
    var tail := if LeadingSlash(path) then path[1..] else path;
    SegmentCount(path);
    SegmentCount(Stripped(path));
    if TrailingSlash(tail) {
      assert tail == tail[..|tail| - 1] + ['/'];
      SlashesAppend(tail[..|tail| - 1], '/');
    }
  }

  predicate SomeColon(segments: seq<string>) {
    exists i :: 0 <= i < |segments| && SegmentStartsWithColon(segments[i])
  }

  lemma ColonAfter(first: string, rest: seq<string>)
    ensures SomeColon([first] + rest) <==> SegmentStartsWithColon(first) || SomeColon(rest)
  {
    if SomeColon(rest) {
      var i :| 0 <= i < |rest| && SegmentStartsWithColon(rest[i]);
      assert ([first] + rest)[i + 1] == rest[i];
    }
    if SegmentStartsWithColon(first) {
      assert ([first] + rest)[0] == first;
    }
  }

  lemma ColonInsideCons(path: string)
    requires path != ""
    ensures ColonInside(path) <==> ColonInside(path[1..]) || (path[0] == '/' && SegmentStartsWithColon(path[1..]))
  {
    var tail := path[1..];
    if ColonInside(path) {
      var i :| 0 <= i < |path| - 1 && path[i] == '/' && path[i + 1] == ':';
      if i > 0 {
        assert tail[i - 1] == '/' && tail[i] == ':';
      }
    }
    if ColonInside(tail) {
      var i :| 0 <= i < |tail| - 1 && tail[i] == '/' && tail[i + 1] == ':';
      assert path[i + 1] == '/' && path[i + 2] == ':';
    }
  }

  lemma {:induction false} ColonBySegment(path: string)
    ensures SegmentStartsWithColon(Split(path)[0]) <==> SegmentStartsWithColon(path)
    ensures SomeColon(Split(path)[1..]) <==> ColonInside(path)
  {
    if path != "" {
      var rest := Split(path[1..]);
      ColonBySegment(path[1..]);
      ColonInsideCons(path);
      ColonAfter(rest[0], rest[1..]);
      assert rest == [rest[0]] + rest[1..];
      assert Split(path)[1..] == if path[0] == '/' then rest else rest[1..];
    }
  }

  /** The textual test finds exactly the paths with a segment that starts with a colon. */
  lemma DynamicMeansColonSegment(path: string)
    ensures IsDynamic(path) <==> SomeColon(Split(path))
  {
    ColonBySegment(path);
    ColonAfter(Split(path)[0], Split(path)[1..]);
    assert Split(path) == [Split(path)[0]] + Split(path)[1..];
  }

  lemma ColonInsideFront(path: string)
    requires TrailingSlash(path)
    ensures ColonInside(path) <==> ColonInside(path[..|path| - 1])
  {
    if ColonInside(path) {
      var i :| 0 <= i < |path| - 1 && path[i] == '/' && path[i + 1] == ':';
      assert path[..|path| - 1][i + 1] == ':';
    }
    if ColonInside(path[..|path| - 1]) {
      var i :| 0 <= i < |path| - 2 && path[..|path| - 1][i] == '/' && path[..|path| - 1][i + 1] == ':';
      assert path[i] == '/' && path[i + 1] == ':';
    }
  }

  /** Stripping keeps whether the path has a dynamic segment, so testing the raw path is testing the stored one. */
  lemma StrippingKeepsDynamic(path: string)
    ensures IsDynamic(Stripped(path)) <==> IsDynamic(path)
  {
    var tail := if LeadingSlash(path) then path[1..] else path;
    if path != "" {
      ColonInsideCons(path);
    }
    if TrailingSlash(tail) {
      ColonInsideFront(tail);
    }
  }

  lemma {:induction false} SplitAfterSegment(segment: string, path: string)
    requires '/' !in segment
    ensures Split(segment + "/" + path) == [segment] + Split(path)
  {
    if segment == "" {
      assert segment + "/" + path == "/" + path && ("/" + path)[1..] == path;
    } else {
      assert (segment + "/" + path)[1..] == segment[1..] + "/" + path;
      assert segment[0] in segment;
      SplitAfterSegment(segment[1..], path);
      assert [segment[0]] + segment[1..] == segment;
    }
  }

  /**
   * A request for a dynamic webhook is looked up by the number of segments after the first one. It is
   * looked up under the recorded length of a row exactly when it has as many segments as the row's path.
   */
  lemma LookupLength(raw: string, webhookId: string, request: string)
    requires '/' !in webhookId
    ensures Split(webhookId + "/" + request)[0] == webhookId
    ensures |Split(webhookId + "/" + request)[1..]| == |Split(Stripped(raw))|
       <==> |Split(request)| == |Split(raw)| - SlashesStripped(raw)
  {
    SplitAfterSegment(webhookId, request);
    LengthOfStripped(raw);
  }
}
