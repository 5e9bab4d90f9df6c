/** The Bearer-token authentication middleware (the Bearer scheme of section
    2.1 of RFC 6750): the Authorization header is split at its first space,
    the scheme must be "Bearer" in any letter case, and the rest of the
    header is the token handed to the token verifier. */
module Auth {
  import opened Common

  const Unauthorized401: int := 401
  const MissingHeader: string := "missing authorization header"
  const InvalidFormat: string := "invalid authorization format"
  const InvalidToken: string := "invalid or expired token"

  /** What the middleware does with a request: answer 401 with a message
      and stop, or call the next handler exactly once with the verified
      user id stored in the request context. */
  datatype Decision = Unauthorized(code: int, message: string) | Next(userId: string)

  /** The verifier of a signed token with the server's secret: the token's
      subject, or an error for a bad signature or an expired token. */
  type Verifier = string -> Result<string>

  /** The index of the first space, if any. */
  function FirstSpace(s: string): (i: Option<nat>)
    ensures i.Some? ==> i.value < |s| && s[i.value] == ' ' && ' ' !in s[..i.value]
    ensures i.None? <==> ' ' !in s
    decreases |s|
  {
    if s == [] then None
    else if s[0] == ' ' then Some(0)
    else
      match FirstSpace(s[1..])
      case None => None
      case Some(j) =>
        assert s[..j + 1] == [s[0]] + s[1..][..j];
        Some(j + 1)
  }

  /** strings.SplitN(s, " ", 2): the whole string when it has no space,
      otherwise the text before the first space and everything after it. */
  function SplitAtFirstSpace(s: string): (parts: seq<string>)
    ensures |parts| == 1 <==> ' ' !in s
    ensures |parts| == 1 ==> parts[0] == s
    ensures |parts| == 1 || |parts| == 2
    ensures |parts| == 2 ==> ' ' !in parts[0] && s == parts[0] + " " + parts[1]
  {
    match FirstSpace(s)
    case None => [s]
    case Some(i) =>
      assert s == s[..i] + " " + s[i + 1..];
      [s[..i], s[i + 1..]]
  }

  /** Any text that has a space is split at that first space, whatever
      follows it: the token keeps its own spaces. */
  lemma SplitKeepsRest(scheme: string, token: string)
    requires ' ' !in scheme
    ensures SplitAtFirstSpace(scheme + " " + token) == [scheme, token]
  {
    var s := scheme + " " + token;
    assert s[|scheme|] == ' ';
    assert s[..|scheme|] == scheme;
    var parts := SplitAtFirstSpace(s);
    assert parts[0] == scheme;
    assert parts[1] == s[|scheme| + 1..] == token;
  }

  function LowerAscii(c: char): char
  {
    if 'A' <= c <= 'Z' then (c as int + 32) as char else c
  }

  /** strings.EqualFold restricted to ASCII case folding: the texts have the
      same length and agree letter by letter up to case. */
  predicate EqualFold(a: string, b: string)
  {
    |a| == |b| && forall i :: 0 <= i < |a| ==> LowerAscii(a[i]) == LowerAscii(b[i])
  }

  /** The schemes accepted are exactly the 64 spellings of "bearer" in mixed
      letter case. */
  lemma BearerSchemeIff(s: string)
    ensures EqualFold(s, "Bearer") <==>
      |s| == 6 && s[0] in "bB" && s[1] in "eE" && s[2] in "aA" && s[3] in "rR" && s[4] in "eE" && s[5] in "rR"
  {
    if |s| == 6 && s[0] in "bB" && s[1] in "eE" && s[2] in "aA" && s[3] in "rR" && s[4] in "eE" && s[5] in "rR" {
      assert LowerAscii(s[0]) == 'b' && LowerAscii(s[1]) == 'e' && LowerAscii(s[2]) == 'a';
      assert LowerAscii(s[3]) == 'r' && LowerAscii(s[4]) == 'e' && LowerAscii(s[5]) == 'r';
    }
    if EqualFold(s, "Bearer") {
      assert LowerAscii(s[0]) == 'b' && LowerAscii(s[1]) == 'e' && LowerAscii(s[2]) == 'a';
      assert LowerAscii(s[3]) == 'r' && LowerAscii(s[4]) == 'e' && LowerAscii(s[5]) == 'r';
    }
  }

  /** The middleware's decision on the Authorization header ("" when the
      request has none). */
  function Authenticate(header: string, verify: Verifier): (d: Decision)
    ensures header == "" ==> d == Unauthorized(Unauthorized401, MissingHeader)
    ensures header != "" && ' ' !in header ==> d == Unauthorized(Unauthorized401, InvalidFormat)
    ensures d.Unauthorized? ==> d.code == Unauthorized401
  {
    if header == "" then Unauthorized(Unauthorized401, MissingHeader)
    else
      var parts := SplitAtFirstSpace(header);
      if |parts| != 2 || !EqualFold(parts[0], "Bearer") then Unauthorized(Unauthorized401, InvalidFormat)
      else
        match verify(parts[1])
        case Err(_) => Unauthorized(Unauthorized401, InvalidToken)
        case Ok(subject) => Next(subject)
  }

  /** A header with a space: the scheme is checked, then everything after
      the first space goes to the verifier; the request passes iff the
      verifier accepts it, and then carries the verified subject. */
  lemma AuthenticateSchemeAndToken(scheme: string, token: string, verify: Verifier)
    requires ' ' !in scheme
    ensures var d := Authenticate(scheme + " " + token, verify);
      && (!EqualFold(scheme, "Bearer") ==> d == Unauthorized(Unauthorized401, InvalidFormat))
      && (EqualFold(scheme, "Bearer") && verify(token).Err? ==> d == Unauthorized(Unauthorized401, InvalidToken))
      && (EqualFold(scheme, "Bearer") && verify(token).Ok? ==> d == Next(verify(token).value))
  {
    SplitKeepsRest(scheme, token);
  }

  /** Every request that reaches the next handler had a header of the form
      "<Bearer in any case> <token>" with a token the verifier accepted. */
  lemma NextOnlyWithVerifiedBearer(header: string, verify: Verifier)
    requires Authenticate(header, verify).Next?
    ensures exists scheme, token ::
              && ' ' !in scheme && header == scheme + " " + token
              && EqualFold(scheme, "Bearer") && verify(token) == Ok(Authenticate(header, verify).userId)
  {
    var parts := SplitAtFirstSpace(header);
    SplitKeepsRest(parts[0], parts[1]);
    assert ' ' !in parts[0] && header == parts[0] + " " + parts[1];
  }

  /** GetUserID: the user id stored by the middleware, or "" when the
      context holds none. */
  function GetUserId(stored: Option<string>): (id: string)
    ensures stored.Some? ==> id == stored.value
    ensures stored.None? ==> id == ""
  {
    match stored
    case None => ""
    case Some(u) => u
  }
}
