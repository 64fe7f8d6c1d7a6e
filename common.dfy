/** Values shared by the DormFix server and its React client: optional
    values, the error replies of the HTTP handlers, the status and role
    strings, and JavaScript's `String.prototype.trim`. */
module Common {

  datatype Option<+T> = None | Some(value: T)

  /** The error statuses the handlers of server.js reply with. */
  datatype Failure =
    | BadRequest    // 400: a required field is missing or nothing is to be written
    | Unauthorized  // 401: no account matches the credentials
    | Forbidden     // 403: the caller's role or identity does not allow the change
    | NotFound      // 404: no row with that id
    | Conflict      // 409: the username is already taken

  datatype Result<+T> = Ok(value: T) | Err(failure: Failure)

  /** The three ticket statuses the client knows. The server stores any string. */
  const PENDING: string := "Pending"
  const IN_PROGRESS: string := "In-Progress"
  const RESOLVED: string := "Resolved"

  /** The three roles. */
  const ROLE_USER: string := "user"
  const ROLE_TECHNICIAN: string := "technician"
  const ROLE_ADMIN: string := "admin"

  /** The characters `trim` removes: ECMAScript's WhiteSpace (tab, vertical
      tab, form feed, space, no-break space, byte order mark and the other
      space separators) and LineTerminator. */
  predicate IsJsWhitespace(c: char)
  {
    || c == '\U{0009}' || c == '\U{000B}' || c == '\U{000C}' || c == ' '
    || c == '\U{00A0}' || c == '\U{FEFF}' || c == '\U{1680}'
    || ('\U{2000}' <= c <= '\U{200A}') || c == '\U{202F}' || c == '\U{205F}' || c == '\U{3000}'
    || c == '\U{000A}' || c == '\U{000D}' || c == '\U{2028}' || c == '\U{2029}'
  }

  /** Every character of `s` is whitespace (the empty string included). */
  predicate Blank(s: string)
  {
    forall i :: 0 <= i < |s| ==> IsJsWhitespace(s[i])
  }

  /** `s` without its leading whitespace. */
  function TrimStart(s: string): (r: string)
    ensures |r| <= |s| && r == s[|s| - |r|..]
    ensures Blank(s[..|s| - |r|])
    ensures r != [] ==> !IsJsWhitespace(r[0])
  {
    if s != [] && IsJsWhitespace(s[0]) then
      var r := TrimStart(s[1..]);
      assert s[1..][..|s| - 1 - |r|] == s[1..|s| - |r|];
      r
    else s
  }

  /** `s` without its trailing whitespace. */
  function TrimEnd(s: string): (r: string)
    ensures |r| <= |s| && r == s[..|r|]
    ensures Blank(s[|r|..])
    ensures r != [] ==> !IsJsWhitespace(r[|r| - 1])
  {
    if s != [] && IsJsWhitespace(s[|s| - 1]) then
      var r := TrimEnd(s[..|s| - 1]);
      assert s[..|s| - 1][|r|..] == s[|r|..|s| - 1];
      r
    else s
  }

  /** `s.trim()`: the text between the leading and the trailing whitespace. */
  function Trim(s: string): (r: string)
    ensures |r| <= |s|
    ensures r == "" <==> Blank(s)
    ensures r != "" ==> !IsJsWhitespace(r[0]) && !IsJsWhitespace(r[|r| - 1])
  {
    var m := TrimStart(s);
    var r := TrimEnd(m);
    TrimParts(s, m, r);
    r
  }

  lemma TrimParts(s: string, m: string, r: string)
    requires m == TrimStart(s) && r == TrimEnd(m)
    ensures r == "" <==> Blank(s)
  {
    var i := |s| - |m|;
    assert Blank(s[..i]);
    if r == "" {
      // the leading whitespace was all of s: a blank remainder would start with whitespace
      assert m[|r|..] == m;
      assert m == [];
      forall k | 0 <= k < |s| ensures IsJsWhitespace(s[k]) {
        assert s[..i][k] == s[k];
      }
    } else {
      assert m != [] && m[0] == s[i];
    }
  }

  /** A non-empty set of ids has a member to pick. */
  lemma NonEmptyHasMember(s: set<int>)
    requires s != {}
    ensures exists x :: x in s
  {
    if forall x :: x !in s {
      assert false;
    }
  }
}
