/** The `Authorization` value of section 2.1 of RFC 6750: the word `Bearer`, one space, the token. */
module Bearer {
  import opened Wrappers
  import opened Text

  const Prefix: string := "Bearer "

  /** `` `Bearer ${token}` ``. */
  function Credentials(token: string): (h: string)
    ensures StartsWith(h, Prefix)
    ensures |h| == |Prefix| + |token|
  {
    Prefix + token
  }

  /** Reads the token back out of an `Authorization` value; `None` for any other scheme. */
  function ParseCredentials(h: string): (r: Option<string>)
    ensures r.Some? <==> StartsWith(h, Prefix)
  {
    if StartsWith(h, Prefix) then Some(h[|Prefix|..]) else None
  }

  /** The header a client builds carries exactly the token it was built from. */
  lemma CredentialsRoundTrip(token: string)
    ensures ParseCredentials(Credentials(token)) == Some(token)
  {
    assert Credentials(token)[..|Prefix|] == Prefix;
    assert Credentials(token)[|Prefix|..] == token;
  }

  /** Different tokens never produce the same header. */
  lemma CredentialsInjective(t1: string, t2: string)
    ensures Credentials(t1) == Credentials(t2) ==> t1 == t2
  {
    CredentialsRoundTrip(t1);
    CredentialsRoundTrip(t2);
  }
}
