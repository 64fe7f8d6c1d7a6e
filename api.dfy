/** `getImageUrl` of client/src/api.js: a stored upload path becomes an
    absolute URL on the API server; a missing or empty path has none. */
module Api {
  import opened Common

  /** The address of the API server. */
  const API_BASE: string := "http://localhost:5000"

  /** The image URL of a stored path; `None` stands for null and
      undefined, and the empty path is just as falsy. */
  function GetImageUrl(path: Option<string>): (url: Option<string>)
    ensures url.None? <==> path.None? || path.value == ""
    ensures url.Some? ==> |url.value| > |API_BASE| && url.value[..|API_BASE|] == API_BASE
  {
    if path.None? || path.value == "" then None else Some(API_BASE + path.value)
  }

  /** Removing the server address from the URL gives back the path. */
  lemma StripBase(path: string)
    requires path != ""
    ensures GetImageUrl(Some(path)).Some?
    ensures GetImageUrl(Some(path)).value[|API_BASE|..] == path
  {
    assert (API_BASE + path)[|API_BASE|..] == path;
  }

  /** Distinct non-empty paths give distinct URLs. */
  lemma DistinctPathsDistinctUrls(p: string, q: string)
    requires p != "" && q != "" && p != q
    ensures GetImageUrl(Some(p)) != GetImageUrl(Some(q))
  {
    StripBase(p);
    StripBase(q);
  }
}
