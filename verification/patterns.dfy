/**
 * The two routing regular expressions of server.go, written as string
 * predicates. Each hand-written matcher is proved equal to a ghost predicate
 * that states what Go's regexp search accepts for that pattern.
 *
 * Go's regexp (RE2 syntax, default flags) is used with MatchString, which
 * searches for a match anywhere in the text: `$` matches only at the end of
 * the text, `.` matches any character except '\n', and a negated class such
 * as `[^/]` matches every character other than the listed ones, '\n'
 * included. Strings are sequences of characters (Go runes).
 */
module Patterns {

  // ---------------------------------------------------------------------
  // `\.[^/]*$` — does the URL path carry a file extension?
  // ---------------------------------------------------------------------

  /** The pattern `\.[^/]*$` matches starting at index i: a '.' there and
      no '/' between it and the end of the text. */
  ghost predicate ExtensionAt(p: string, i: int)
  {
    0 <= i < |p| && p[i] == '.' && forall j :: i < j < |p| ==> p[j] != '/'
  }

  /** What a regexp search for `\.[^/]*$` accepts. */
  ghost predicate MatchesExtensionRegex(p: string)
  {
    exists i :: ExtensionAt(p, i)
  }

  /** Hand-written matcher for `\.[^/]*$`: scan back from the end of the
      path; a '.' met before any '/' is a match. */
  function HasFileExtension(p: string): (r: bool)
    ensures r <==> MatchesExtensionRegex(p)
    decreases |p|
  {
    if |p| == 0 then
      false
    else if p[|p| - 1] == '/' then
      false
    else if p[|p| - 1] == '.' then
      assert ExtensionAt(p, |p| - 1);
      true
    else
      DropLastKeepsExtension(p);
      HasFileExtension(p[..|p| - 1])
  }

  /** Removing a last character that is neither '.' nor '/' changes no
      answer of the extension search. */
  lemma DropLastKeepsExtension(p: string)
    requires |p| > 0 && p[|p| - 1] != '.' && p[|p| - 1] != '/'
    ensures MatchesExtensionRegex(p) <==> MatchesExtensionRegex(p[..|p| - 1])
  {
    var q := p[..|p| - 1];
    if MatchesExtensionRegex(p) {
      var i :| ExtensionAt(p, i);
      assert i < |q|;
      assert ExtensionAt(q, i);
    }
    if MatchesExtensionRegex(q) {
      var i :| ExtensionAt(q, i);
      assert ExtensionAt(p, i);
    }
  }

  /** The text after the last '/' of p (all of p when it has no '/'). */
  function LastSegment(p: string): (s: string)
    ensures '/' !in s
    ensures |s| <= |p| && s == p[|p| - |s|..]
    ensures |s| < |p| ==> p[|p| - |s| - 1] == '/'
    decreases |p|
  {
    if |p| == 0 || p[|p| - 1] == '/' then
      []
    else
      LastSegment(p[..|p| - 1]) + [p[|p| - 1]]
  }

  /** The extension test holds exactly when the last path segment contains
      a '.'. */
  lemma {:induction false} ExtensionIsDotInLastSegment(p: string)
    ensures HasFileExtension(p) <==> '.' in LastSegment(p)
    decreases |p|
  {
    if |p| > 0 && p[|p| - 1] != '/' {
      var q := p[..|p| - 1];
      assert LastSegment(p) == LastSegment(q) + [p[|p| - 1]];
      if p[|p| - 1] != '.' {
        ExtensionIsDotInLastSegment(q);
      }
    }
  }

  /** The example in the comment on `hasFileExtension` (server.go:13): "/foo/bar.png" carries an
      extension, "/foo.png/bar" does not. */
  lemma ExtensionCommentExample()
    ensures MatchesExtensionRegex("/foo/bar.png")
    ensures !MatchesExtensionRegex("/foo.png/bar")
    ensures HasFileExtension("/foo/bar.png") && !HasFileExtension("/foo.png/bar")
  {
    assert ExtensionAt("/foo/bar.png", 8);
    var q := "/foo.png/bar";
    forall i | 0 <= i < |q| && q[i] == '.'
      ensures !ExtensionAt(q, i)
    {
      assert q[8] == '/';
    }
  }

  /** A path without any '.' carries no extension. */
  lemma NoDotNoExtension(p: string)
    requires forall i :: 0 <= i < |p| ==> p[i] != '.'
    ensures !HasFileExtension(p)
  {
  }

  // ---------------------------------------------------------------------
  // `service-worker.js$` — is the URL path the service worker script?
  // The '.' is not escaped, so it stands for any one character but '\n'.
  // ---------------------------------------------------------------------

  const ServiceWorkerStem := "service-worker"
  const ServiceWorkerTail := "js"

  /** Length of every text the pattern matches: stem, one character, tail. */
  const ServiceWorkerMatchLength := |ServiceWorkerStem| + 1 + |ServiceWorkerTail|

  /** u followed by a text the pattern matches, with c in the wildcard slot. */
  function WithServiceWorkerName(u: string, c: char): string
  {
    u + ServiceWorkerStem + [c] + ServiceWorkerTail
  }

  /** What a regexp search for `service-worker.js$` accepts. */
  ghost predicate MatchesServiceWorkerRegex(p: string)
  {
    exists u: string, c: char :: c != '\n' && p == WithServiceWorkerName(u, c)
  }

  /** Hand-written matcher for `service-worker.js$`: compare the last
      seventeen characters, skipping the wildcard slot. */
  function IsServiceWorker(p: string): bool
  {
    var n := |p|;
    n >= ServiceWorkerMatchLength
    && p[n - ServiceWorkerMatchLength..n - 3] == ServiceWorkerStem
    && p[n - 3] != '\n'
    && p[n - 2..] == ServiceWorkerTail
  }

  /** The matcher accepts exactly what the regexp search accepts. */
  lemma ServiceWorkerMatcherIsRegex(p: string)
    ensures IsServiceWorker(p) <==> MatchesServiceWorkerRegex(p)
  {
    var n := |p|;
    if IsServiceWorker(p) {
      var u := p[..n - ServiceWorkerMatchLength];
      var c := p[n - 3];
      assert p == u + p[n - ServiceWorkerMatchLength..n - 3] + [c] + p[n - 2..];
      assert p == WithServiceWorkerName(u, c);
    }
    if MatchesServiceWorkerRegex(p) {
      var u, c :| c != '\n' && p == WithServiceWorkerName(u, c);
      assert n == |u| + ServiceWorkerMatchLength;
      assert p[n - ServiceWorkerMatchLength..n - 3] == ServiceWorkerStem;
      assert p[n - 3] == c;
      assert p[n - 2..] == ServiceWorkerTail;
    }
  }

  /** The script path matches; because the '.' is a wildcard, so does a
      path with any other character in its place; a path with anything
      after "js", or a different script, does not. */
  lemma ServiceWorkerExamples()
    ensures IsServiceWorker("/sw/service-worker.js")
    ensures IsServiceWorker("/service-workerXjs")
    ensures !IsServiceWorker("/service-worker\njs")
    ensures !IsServiceWorker("/service-worker.js.map")
    ensures !IsServiceWorker("/other.js")
  {
  }
}
