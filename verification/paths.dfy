/** Resource paths of the remote API. Every collection and item path has
    the shape `/seg1/seg2/.../segN/`: a leading slash and one trailing
    slash per segment. Handlers build them by straight interpolation of
    identifiers and slugs, with no escaping. */
module Paths {
  import opened Wrappers
  import opened Json
  import opened Strings

  /** The path `/s1/s2/.../sN/` of the given segments. */
  function Route(segments: seq<string>): (path: string)
    ensures |path| >= 1 && path[0] == '/' && path[|path| - 1] == '/'
  {
    "/" + Terminated(segments)
  }

  /** Each segment followed by a slash. */
  function Terminated(segments: seq<string>): (t: string)
    ensures segments != [] ==> |t| > 0 && t[|t| - 1] == '/'
  {
    if segments == [] then "" else segments[0] + "/" + Terminated(segments[1..])
  }

  /** Splits a string in which every segment is followed by a slash. */
  function SplitTerminated(s: string): Option<seq<string>>
    decreases |s|
  {
    if s == [] then Some([])
    else match FirstIndex(s, '/')
      case None => None
      case Some(i) =>
        match SplitTerminated(s[i + 1..])
        case None => None
        case Some(rest) => Some([s[..i]] + rest)
  }

  /** The segments of a path of the shape `/s1/.../sN/`, or `None` when
      the path does not have that shape. */
  function ParseRoute(path: string): Option<seq<string>> {
    if path != [] && path[0] == '/' then SplitTerminated(path[1..]) else None
  }

  /** No segment contains a slash of its own. */
  predicate SlashFree(segments: seq<string>) {
    forall i :: 0 <= i < |segments| ==> '/' !in segments[i]
  }

  lemma {:induction false} TerminatedRoundTrip(segments: seq<string>)
    requires SlashFree(segments)
    ensures SplitTerminated(Terminated(segments)) == Some(segments)
  {
    if segments != [] {
      var head, rest := segments[0], Terminated(segments[1..]);
      var s := head + "/" + rest;
      assert Terminated(segments) == s;
      FirstIndexAfter(head, '/', rest);
      assert s == head + ['/'] + rest;
      assert s[..|head|] == head;
      assert s[|head| + 1..] == rest;
      assert SlashFree(segments[1..]) by {
        forall i | 0 <= i < |segments[1..]|
          ensures '/' !in segments[1..][i]
        {
          assert segments[1..][i] == segments[i + 1];
        }
      }
      TerminatedRoundTrip(segments[1..]);
      assert [head] + segments[1..] == segments;
    }
  }

  /** A path built from slash-free segments parses back to those segments. */
  lemma RouteRoundTrip(segments: seq<string>)
    requires SlashFree(segments)
    ensures ParseRoute(Route(segments)) == Some(segments)
  {
    assert Route(segments)[1..] == Terminated(segments);
    TerminatedRoundTrip(segments);
  }

  /** Distinct slash-free segment lists give distinct paths. */
  lemma RouteInjective(a: seq<string>, b: seq<string>)
    requires SlashFree(a) && SlashFree(b)
    ensures Route(a) == Route(b) ==> a == b
  {
    RouteRoundTrip(a);
    RouteRoundTrip(b);
  }

  lemma {:induction false} SplitTerminatedSlashFree(s: string)
    requires SplitTerminated(s).Some?
    ensures SlashFree(SplitTerminated(s).value)
    decreases |s|
  {
    if s != [] {
      var i := FirstIndex(s, '/').value;
      SplitTerminatedSlashFree(s[i + 1..]);
      var rest := SplitTerminated(s[i + 1..]).value;
      assert SplitTerminated(s).value == [s[..i]] + rest;
    }
  }

  /** Every segment a path parses to is slash-free, so a segment holding a
      slash is never addressed by the path built from it. */
  lemma ParsedSegmentsSlashFree(path: string)
    ensures ParseRoute(path).Some? ==> SlashFree(ParseRoute(path).value)
  {
    if ParseRoute(path).Some? {
      SplitTerminatedSlashFree(path[1..]);
    }
  }

  /** A rendered integer never contains a slash, so it is a segment of its own. */
  lemma DecimalSlashFree(n: int)
    ensures '/' !in Decimal(n)
  {
  }

  /** Two paths that differ only in the integer of their last segment are
      the same path only for the same integer. */
  lemma ItemRouteIdentifiesId(prefix: seq<string>, a: int, b: int)
    requires SlashFree(prefix)
    ensures Route(prefix + [Decimal(a)]) == Route(prefix + [Decimal(b)]) ==> a == b
  {
    DecimalSlashFree(a);
    DecimalSlashFree(b);
    var sa, sb := prefix + [Decimal(a)], prefix + [Decimal(b)];
    assert SlashFree(sa) && SlashFree(sb);
    RouteInjective(sa, sb);
    if sa == sb {
      assert sa[|prefix|] == sb[|prefix|];
      DecimalInjective(a, b);
    }
  }
}
