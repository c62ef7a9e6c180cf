/**
 * Splitting a URL path at '/' and joining segments with '/': the two
 * directions used to show that each route's upstream path determines the
 * route.
 */
module PathSegments {

  /** A path parameter as the router hands it over: it contains no '/'. */
  predicate IsSegment(s: string) {
    forall i :: 0 <= i < |s| ==> s[i] != '/'
  }

  /** The pieces of `path` between the '/' characters (`path.split("/")`). */
  function Split(path: string): (segs: seq<string>)
    ensures |segs| >= 1
    decreases |path|
  {
    if path == [] then [""]
    else if path[0] == '/' then [""] + Split(path[1..])
    else
      var rest := Split(path[1..]);
      [[path[0]] + rest[0]] + rest[1..]
  }

  /** `"/".join(segs)`. */
  function Join(segs: seq<string>): string
    requires |segs| >= 1
    decreases |segs|
  {
    if |segs| == 1 then segs[0] else segs[0] + "/" + Join(segs[1..])
  }

  /** A leading segment without '/' is glued to the first piece of what follows it. */
  lemma {:induction false} SplitPrefix(a: string, rest: string)
    requires IsSegment(a)
    ensures Split(a + rest) == [a + Split(rest)[0]] + Split(rest)[1..]
    decreases |a|
  {
    if a != [] {
      var tail := Split(rest);
      assert (a + rest)[0] == a[0] && (a + rest)[1..] == a[1..] + rest;
      SplitPrefix(a[1..], rest);
      var r := Split(a[1..] + rest);
      assert r == [a[1..] + tail[0]] + tail[1..];
      assert Split(a + rest) == [[a[0]] + r[0]] + r[1..];
      assert [a[0]] + (a[1..] + tail[0]) == a + tail[0];
    } else {
      var tail := Split(rest);
      assert a + rest == rest && a + tail[0] == tail[0];
      assert tail == [tail[0]] + tail[1..];
    }
  }

  /** Splitting undoes joining, provided no segment contains '/'. */
  lemma {:induction false} SplitJoin(segs: seq<string>)
    requires |segs| >= 1
    requires forall i :: 0 <= i < |segs| ==> IsSegment(segs[i])
    ensures Split(Join(segs)) == segs
    decreases |segs|
  {
    if |segs| == 1 {
      SplitPrefix(segs[0], "");
      assert segs[0] + "" == segs[0];
    } else {
      var tail := Join(segs[1..]);
      SplitJoin(segs[1..]);
      assert Join(segs) == segs[0] + ("/" + tail);
      SplitPrefix(segs[0], "/" + tail);
      assert ("/" + tail)[0] == '/' && ("/" + tail)[1..] == tail;
      assert Split("/" + tail) == [""] + segs[1..];
      assert segs[0] + "" == segs[0];
      assert segs == [segs[0]] + segs[1..];
    }
  }
}
