/**
 * The base-URL join rule that every screen repeats (`getFullUrl`, `getImageUrl`,
 * `getPdfUrl`): an `http://` or `https://` path is used as it is; any other path
 * loses one leading '/' and is appended to the server's base URL after a '/'.
 * The server base URL is a parameter: its definition is not part of this model.
 */
module BaseUrl {
  import opened Wrappers
  import opened Text

  predicate IsAbsolute(path: string) {
    StartsWith(path, "http://") || StartsWith(path, "https://")
  }

  /** `path.startsWith('/') ? path.slice(1) : path`. */
  function CleanPath(path: string): (r: string)
    ensures path == r || path == "/" + r
    ensures StartsWith(path, "/") <==> path == "/" + r
  {
    if StartsWith(path, "/") then path[1..] else path
  }

  /**
   * `getFullUrl(url)` and `getPdfUrl(path)`. Removing the base and the '/' that
   * follows it gives back the path, up to the one leading '/' that was dropped.
   */
  function FullUrl(base: string, path: string): (r: string)
    ensures IsAbsolute(path) ==> r == path
    ensures !IsAbsolute(path) ==> StartsWith(r, base + "/")
    ensures !IsAbsolute(path) ==> path == r[|base| + 1..] || path == "/" + r[|base| + 1..]
  {
    if IsAbsolute(path) then path else base + "/" + CleanPath(path)
  }

  /** `getImageUrl(path)`: nothing for a missing or empty path, the joined URL otherwise. */
  function ImageUrl(base: string, path: Option<string>): (r: Option<string>)
    ensures r.None? <==> !Truthy(path)
    ensures Truthy(path) && IsAbsolute(path.value) ==> r == path
    ensures Truthy(path) && !IsAbsolute(path.value) ==> StartsWith(r.value, base + "/")
  {
    if !Truthy(path) then None else Some(FullUrl(base, path.value))
  }

  /** One leading '/' makes no difference to a relative path. */
  lemma LeadingSlashIgnored(base: string, path: string)
    requires !IsAbsolute(path) && !StartsWith(path, "/")
    ensures FullUrl(base, "/" + path) == FullUrl(base, path)
  {
    assert ("/" + path)[1..] == path;
    assert StartsWith("/" + path, "/");
    assert !IsAbsolute("/" + path) by {
      assert ("/" + path)[0] == '/';
    }
  }

  /** With an absolute base, joining an already joined URL changes nothing. */
  lemma {:induction false} FullUrlIdempotent(base: string, path: string)
    requires IsAbsolute(base)
    ensures FullUrl(base, FullUrl(base, path)) == FullUrl(base, path)
  {
    if !IsAbsolute(path) {
      var r := base + "/" + CleanPath(path);
      if StartsWith(base, "http://") {
        StartsWithConcat(base, "/" + CleanPath(path), "http://");
      } else {
        StartsWithConcat(base, "/" + CleanPath(path), "https://");
      }
      assert base + ("/" + CleanPath(path)) == r;
    }
  }

  /** A rooted path is joined with exactly one '/' between the base and the rest of the path. */
  lemma RootedPathJoin(base: string, p: string)
    ensures FullUrl(base, "/" + p) == base + "/" + p
  {
    assert ("/" + p)[0] == '/';
    assert StartsWith("/" + p, "/");
    assert ("/" + p)[1..] == p;
  }
}
