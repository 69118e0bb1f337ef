/**
 * `new URL(ref, base).toString()`, as the Bull layer uses it: `ref` is either
 * empty or a single path segment `api-<service>`.
 *
 * Parsing the base is the host's oracle. Two kinds of reference are resolved
 * here, following section 5.2 of RFC 3986 (and the WHATWG URL standard's
 * relative state): the empty reference, which gives the base without its
 * fragment, and a single segment of unreserved characters, which replaces the
 * last segment of the base path (the merge of section 5.2.3). The one
 * exception is the WHATWG "shorten a path" rule for `file:` URLs: a path that
 * is a lone normalised Windows drive letter (`file:///C:`) is kept, so the
 * segment goes after it. Neither reference has a scheme, so both fail against a base with an opaque path (the WHATWG "no
 * scheme state"). Every other reference is left to the host's `resolveUrl`
 * oracle.
 */
module UrlResolution {
  import opened Js
  import opened FetchApi

  /** The unreserved characters of section 2.3 of RFC 3986. */
  predicate Unreserved(c: char) {
    ('a' <= c <= 'z') || ('A' <= c <= 'Z') || ('0' <= c <= '9') || c == '-' || c == '.' || c == '_' || c == '~'
  }

  /** A reference that is one relative path segment, with nothing to escape and no dot-segment. */
  predicate PlainSegment(ref: string) {
    |ref| > 0 && ref != "." && ref != ".." && forall i :: 0 <= i < |ref| ==> Unreserved(ref[i])
  }

  /** An ASCII letter. */
  predicate AsciiAlpha(c: char) {
    ('a' <= c <= 'z') || ('A' <= c <= 'Z')
  }

  /**
   * A `file:` URL whose path is one normalised Windows drive letter, like
   * `file:///C:`. The parser lower-cases the scheme, so the origin starts with
   * `file:` exactly.
   */
  predicate DriveLetterBase(u: Url) {
    |u.origin| >= 5 && u.origin[..5] == "file:"
    && |u.path| == 3 && u.path[0] == '/' && AsciiAlpha(u.path[1]) && u.path[2] == ':'
  }

  /** The base path up to and including its last '/' (empty when it has none). */
  function DirectoryOf(path: string): (dir: string)
    ensures |dir| <= |path| && dir == path[..|dir|]
    ensures dir == "" || dir[|dir| - 1] == '/'
    ensures forall i :: |dir| <= i < |path| ==> path[i] != '/'
    decreases |path|
  {
    if path == "" then ""
    else if path[|path| - 1] == '/' then path
    else DirectoryOf(path[..|path| - 1])
  }

  /** The merge of section 5.2.3 of RFC 3986, for a base that has an authority. */
  function MergePath(basePath: string, segment: string): (merged: string)
    ensures basePath == "" ==> merged == "/" + segment
    ensures basePath != "" ==> merged == DirectoryOf(basePath) + segment
  {
    (if basePath == "" then "/" else DirectoryOf(basePath)) + segment
  }

  /** `new URL(ref, base).toString()`; None when it throws. */
  function ResolveUrl(ref: string, base: string, host: Host): (r: Option<string>)
    ensures host.parseUrl(base).None? ==> r.None?
    // a reference without a scheme cannot be resolved against an opaque path
    ensures host.parseUrl(base).Some? && host.parseUrl(base).value.opaquePath && (ref == "" || PlainSegment(ref)) ==> r.None?
    ensures host.parseUrl(base).Some? && !host.parseUrl(base).value.opaquePath && ref == "" ==>
      r == Some(Href(host.parseUrl(base).value.(fragment := None)))
    ensures host.parseUrl(base).Some? && !host.parseUrl(base).value.opaquePath && PlainSegment(ref) ==>
      var u := host.parseUrl(base).value;
      !DriveLetterBase(u) ==> r == Some(u.origin + MergePath(u.path, ref))
    // a file URL's lone drive letter is not shortened away
    ensures host.parseUrl(base).Some? && !host.parseUrl(base).value.opaquePath && PlainSegment(ref) ==>
      var u := host.parseUrl(base).value;
      DriveLetterBase(u) ==> r == Some(u.origin + u.path + "/" + ref)
  {
    match host.parseUrl(base)
    case None => None
    case Some(u) =>
      if ref == "" then (if u.opaquePath then None else Some(Href(u.(fragment := None))))
      else if PlainSegment(ref) then  // no query, no fragment
        if u.opaquePath then None
        else if DriveLetterBase(u) then Some(u.origin + u.path + "/" + ref)
        else Some(u.origin + MergePath(u.path, ref))
      else host.resolveUrl(ref, base)
  }

  /**
   * Resolving a segment keeps the base URL's directory and drops its last
   * segment, query and fragment; a file URL's lone drive letter is the one
   * last segment that is kept.
   */
  lemma SegmentReplacesLastSegment(base: string, host: Host, ref: string, u: Url)
    requires host.parseUrl(base) == Some(u) && !u.opaquePath && PlainSegment(ref) && u.path != ""
    ensures !DriveLetterBase(u) ==> ResolveUrl(ref, base, host) == Some(u.origin + DirectoryOf(u.path) + ref)
    ensures forall i :: |DirectoryOf(u.path)| <= i < |u.path| ==> u.path[i] != '/'
    ensures DriveLetterBase(u) ==> ResolveUrl(ref, base, host) == Some(u.origin + u.path + "/" + ref)
  {
    assert u.origin + (DirectoryOf(u.path) + ref) == u.origin + DirectoryOf(u.path) + ref;
  }

  /** `new URL('api-permissions', 'file:///C:')` is `file:///C:/api-permissions`, not `file:///api-permissions`. */
  lemma DriveLetterIsKept(host: Host)
    requires host.parseUrl("file:///C:") == Some(Url("file://", "/C:", None, None, false))
    ensures ResolveUrl("api-permissions", "file:///C:", host) == Some("file:///C:/api-permissions")
  {
    var u := Url("file://", "/C:", None, None, false);
    assert u.origin[..5] == "file:";
    assert DriveLetterBase(u);
    assert PlainSegment("api-permissions") by {
      var ref := "api-permissions";
      forall i | 0 <= i < |ref| ensures Unreserved(ref[i]) {
      }
    }
    assert u.origin + u.path + "/" + "api-permissions" == "file:///C:/api-permissions";
  }

  /** A base path that ends with '/' is a directory: the segment is appended to it. */
  lemma {:induction false} DirectoryOfDirectory(path: string)
    requires path != "" && path[|path| - 1] == '/'
    ensures DirectoryOf(path) == path
  {
  }

  /** Dropping a last segment that has no '/' leaves the same directory. */
  lemma {:induction false} DirectoryOfAppend(dir: string, last: string)
    requires dir == "" || dir[|dir| - 1] == '/'
    requires forall i :: 0 <= i < |last| ==> last[i] != '/'
    ensures DirectoryOf(dir + last) == dir
    decreases |last|
  {
    if last != "" {
      var p := dir + last;
      assert p[..|p| - 1] == dir + last[..|last| - 1];
      DirectoryOfAppend(dir, last[..|last| - 1]);
    } else {
      assert dir + last == dir;
      if dir != "" {
        DirectoryOfDirectory(dir);
      }
    }
  }

  /** Resolving a segment against a URL that was itself resolved with a segment replaces that segment. */
  lemma ResolvingTwiceReplaces(basePath: string, first: string, second: string)
    requires basePath != "" && PlainSegment(first) && PlainSegment(second)
    ensures MergePath(MergePath(basePath, first), second) == DirectoryOf(basePath) + second
  {
    var dir := DirectoryOf(basePath);
    assert forall i :: 0 <= i < |first| ==> first[i] != '/' by {
      forall i | 0 <= i < |first| ensures first[i] != '/' {
        assert Unreserved(first[i]);
      }
    }
    DirectoryOfAppend(dir, first);
  }
}
