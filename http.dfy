/**
 * HTTP vocabulary used by the proxy: status codes, the user-pass string of
 * Basic authentication and the Authorization header sent to the catalog API.
 * SplitAtFirst is how a receiver takes such a string apart again; it is the
 * reference against which the two builders are proved.
 */
module Http {
  import opened Wrappers

  const StatusOK: int := 200
  const StatusBadRequest: int := 400
  const StatusInternalServerError: int := 500

  /** Splits `s` at the first occurrence of `sep`; None when `sep` does not occur. */
  function SplitAtFirst(s: string, sep: char): (r: Option<(string, string)>)
    ensures r.Some? ==> s == r.value.0 + [sep] + r.value.1 && sep !in r.value.0
    ensures r.None? ==> sep !in s
  {
    if s == [] then None
    else if s[0] == sep then Some(([], s[1..]))
    else match SplitAtFirst(s[1..], sep)
      case None => None
      case Some(p) => Some(([s[0]] + p.0, p.1))
  }

  /** Joining two parts with a separator absent from the first is undone by SplitAtFirst. */
  lemma {:induction false} SplitAtFirstJoin(a: string, sep: char, b: string)
    requires sep !in a
    ensures SplitAtFirst(a + [sep] + b, sep) == Some((a, b))
  {
    if a == [] {
      assert a + [sep] + b == [sep] + b;
    } else {
      SplitAtFirstJoin(a[1..], sep, b);
      assert (a + [sep] + b)[1..] == a[1..] + [sep] + b;
      assert [a[0]] + a[1..] == a;
    }
  }

  /** Two parts joined by a separator; SplitAtFirst undoes it when the first part lacks the separator. */
  function Join(a: string, sep: char, b: string): (s: string)
    ensures sep !in a ==> SplitAtFirst(s, sep) == Some((a, b))
  {
    var s := a + [sep] + b;
    if sep in a then s else SplitAtFirstJoin(a, sep, b); s
  }

  /**
   * The user-pass string of HTTP Basic authentication (section 2 of RFC 7617)
   * built from the client id and secret before it is base64-encoded. Neither
   * part is form-encoded first, so a colon in the id is not escaped.
   */
  function BasicUserPass(clientId: string, clientSecret: string): (s: string)
    ensures ':' !in clientId ==> SplitAtFirst(s, ':') == Some((clientId, clientSecret))
  {
    Join(clientId, ':', clientSecret)
  }

  /** An id holding a colon is split at that colon: the server sees another id and secret. */
  lemma BasicUserPassColonInId()
    ensures SplitAtFirst(BasicUserPass("a:b", "c"), ':') == Some(("a", "b:c"))
  {
    assert BasicUserPass("a:b", "c") == "a" + [':'] + "b:c";
    SplitAtFirstJoin("a", ':', "b:c");
  }

  /** The Authorization header value: token type, one space, access token. */
  function Authorization(tokenType: string, accessToken: string): (h: string)
    ensures ' ' !in tokenType ==> SplitAtFirst(h, ' ') == Some((tokenType, accessToken))
  {
    Join(tokenType, ' ', accessToken)
  }
}
