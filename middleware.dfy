/**
 * The request middleware (`src/middleware.ts`): a request whose path matches
 * `^/whiteboard/[^/]+$` gets authentication protection, every other request
 * passes through.
 */
module Middleware {

  const BoardPrefix: string := "/whiteboard/"

  /** The reading of the pattern in words: the prefix, then a non-empty segment without `/`. */
  predicate IsBoardPagePath(path: string) {
    |path| > |BoardPrefix| && path[..|BoardPrefix|] == BoardPrefix
    && forall i :: |BoardPrefix| <= i < |path| ==> path[i] != '/'
  }

  /**
   * The states of an automaton for `^<pre>[^/]+$`: reading the literal prefix
   * (`matched` characters of it so far), reading the segment after it, or failed.
   */
  datatype MatchState = InPrefix(matched: nat) | InSegment(nonEmpty: bool) | Rejected

  function Step(pre: string, q: MatchState, c: char): MatchState {
    match q
    case InPrefix(k) =>
      if k < |pre| && c == pre[k] then
        (if k + 1 == |pre| then InSegment(false) else InPrefix(k + 1))
      else Rejected
    case InSegment(_) => if c == '/' then Rejected else InSegment(true)
    case Rejected => Rejected
  }

  function Run(pre: string, q: MatchState, s: string): MatchState
    decreases |s|
  {
    if s == [] then q else Run(pre, Step(pre, q, s[0]), s[1..])
  }

  /** `isProtectedRoute(req)`: the regular expression tested against the path name. */
  predicate IsProtectedRoute(path: string) {
    Run(BoardPrefix, InPrefix(0), path) == InSegment(true)
  }

  lemma {:induction false} RunRejected(pre: string, s: string)
    ensures Run(pre, Rejected, s) == Rejected
    decreases |s|
  {
    if s != [] { RunRejected(pre, s[1..]); }
  }

  lemma {:induction false} RunSegment(pre: string, b: bool, s: string)
    ensures Run(pre, InSegment(b), s) == InSegment(true) <==> (b || s != []) && forall i :: 0 <= i < |s| ==> s[i] != '/'
    decreases |s|
  {
    if s != [] {
      if s[0] == '/' {
        RunRejected(pre, s[1..]);
      } else {
        RunSegment(pre, true, s[1..]);
        assert forall i :: 1 <= i < |s| ==> s[i] == s[1..][i - 1];
      }
    }
  }

  lemma {:induction false} RunPrefix(pre: string, k: nat, s: string)
    requires k < |pre|
    ensures Run(pre, InPrefix(k), s) == InSegment(true) <==>
      |s| > |pre| - k && s[..|pre| - k] == pre[k..]
      && forall i :: |pre| - k <= i < |s| ==> s[i] != '/'
    decreases |s|
  {
    var n := |pre| - k;
    if s == [] {
    } else if s[0] != pre[k] {
      RunRejected(pre, s[1..]);
    } else {
      var t := s[1..];
      assert forall i :: 1 <= i < |s| ==> s[i] == t[i - 1];
      if k + 1 == |pre| {
        RunSegment(pre, false, t);
      } else {
        RunPrefix(pre, k + 1, t);
        if |s| > n {
          assert s[..n] == [s[0]] + t[..n - 1];
          assert pre[k..] == [pre[k]] + pre[k + 1..];
        }
      }
    }
  }

  /** The automaton accepts exactly the paths the pattern describes. */
  lemma ProtectedRouteIff(path: string)
    ensures IsProtectedRoute(path) <==> IsBoardPagePath(path)
  {
    assert |BoardPrefix| == 12;
    assert BoardPrefix[0..] == BoardPrefix;
    RunPrefix(BoardPrefix, 0, path);
  }

  /** A path with any other beginning than `/whiteboard/` is never protected. */
  lemma OtherPrefixNotProtected(path: string)
    requires !(BoardPrefix <= path)
    ensures !IsProtectedRoute(path)
  {
    ProtectedRouteIff(path);
  }

  /** `/whiteboard/<id>` is protected for every non-empty id without `/`. */
  lemma BoardPageProtected(id: string)
    requires id != [] && forall i :: 0 <= i < |id| ==> id[i] != '/'
    ensures IsProtectedRoute(BoardPrefix + id)
  {
    var p := BoardPrefix + id;
    assert p[..|BoardPrefix|] == BoardPrefix;
    assert forall i :: |BoardPrefix| <= i < |p| ==> p[i] == id[i - |BoardPrefix|];
    ProtectedRouteIff(p);
  }

  /** A deeper path under a board, `/whiteboard/<id>/<rest>`, is not protected. */
  lemma NestedPathNotProtected(id: string, rest: string)
    ensures !IsProtectedRoute(BoardPrefix + id + "/" + rest)
  {
    var p := BoardPrefix + id + "/" + rest;
    assert p[|BoardPrefix| + |id|] == '/';
    ProtectedRouteIff(p);
  }

  /** `/whiteboard/` itself, with an empty segment, is not protected. */
  lemma EmptySegmentNotProtected()
    ensures !IsProtectedRoute(BoardPrefix)
  {
    ProtectedRouteIff(BoardPrefix);
  }

  /** The API routes are left to their handlers, which check the session themselves. */
  lemma ApiRoutesNotProtected(rest: string)
    ensures !IsProtectedRoute("/api/" + rest)
  {
    var api := "/api/" + rest;
    assert api[1] == 'a' && BoardPrefix[1] == 'w';
    OtherPrefixNotProtected(api);
  }

  datatype Decision = Protect | PassThrough

  /** `if (isProtectedRoute(req)) await auth.protect()`: protection exactly on board pages. */
  function Decide(path: string): (d: Decision)
    ensures d == Protect <==> IsBoardPagePath(path)
  {
    ProtectedRouteIff(path);
    if IsProtectedRoute(path) then Protect else PassThrough
  }
}
