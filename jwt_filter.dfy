/** JwtAuthenticationFilter: reading the bearer token, the paths the filter
    skips, and how one request changes the security context. JwtUtil's
    signature check, TokenService's blacklist and the token's subject claim
    are parameters. */
module JwtFilter {
  import opened Wrappers
  import opened Text

  const BearerPrefix := "Bearer "

  /** extractToken: the Authorization header without its "Bearer " prefix,
      or null when the header is missing or has another scheme. */
  function ExtractToken(authorization: Option<string>): (token: Option<string>)
    ensures token.Some? <==> authorization.Some? && StartsWith(authorization.value, BearerPrefix)
    ensures token.Some? ==> authorization.value == BearerPrefix + token.value
  {
    if authorization.Some? && StartsWith(authorization.value, BearerPrefix) then
      var h := authorization.value;
      assert h == h[..7] + h[7..];
      Some(h[7..])
    else None
  }

  /** A header built from a token gives that token back. */
  lemma ExtractTokenRoundTrip(token: string)
    ensures ExtractToken(Some(BearerPrefix + token)) == Some(token)
  {
    PrefixOfConcat(BearerPrefix, token);
    assert (BearerPrefix + token)[7..] == token;
  }

  lemma PrefixOfConcat(a: string, b: string)
    ensures StartsWith(a + b, a)
  {
    assert (a + b)[..|a|] == a;
  }

  /** The scheme is matched case-sensitively and with its space. */
  lemma ExtractTokenRejects()
    ensures ExtractToken(Some("bearer abc")) == None
    ensures ExtractToken(Some("Bearerabc")) == None
    ensures ExtractToken(None) == None
  {
    assert "bearer abc"[0] != BearerPrefix[0];
    assert "Bearerabc"[6] != BearerPrefix[6];
  }

  /** shouldNotFilter: the sign-in, Swagger UI and API-docs paths. */
  function ShouldNotFilter(path: string): (skip: bool)
    ensures skip ==> |path| >= 6 && path[0] == '/'
  {
    StartsWith(path, "/auth/") || StartsWith(path, "/swagger-ui/") || StartsWith(path, "/v3/api-docs/")
  }

  /** Only whole path segments are excluded: "/auth" itself and
      "/authority/..." are filtered, "/auth/..." is not. */
  lemma ShouldNotFilterExamples()
    ensures ShouldNotFilter("/auth/kakao")
    ensures !ShouldNotFilter("/auth")
    ensures !ShouldNotFilter("/authority/x")
    ensures !ShouldNotFilter("/api/users")
  {
    PrefixOfConcat("/auth/", "kakao");
    assert "/auth/kakao" == "/auth/" + "kakao";
    assert "/authority/x"[5] != '/';
    assert "/api/users"[1] != 'a' || "/api/users"[2] != 'u';
  }

  /** Below an excluded path everything is excluded: the skip covers whole
      subtrees. */
  lemma ShouldNotFilterSubtree(path: string, more: string)
    requires ShouldNotFilter(path)
    ensures ShouldNotFilter(path + more)
  {
    var p := if StartsWith(path, "/auth/") then "/auth/"
             else if StartsWith(path, "/swagger-ui/") then "/swagger-ui/" else "/v3/api-docs/";
    assert (path + more)[..|p|] == path[..|p|];
  }

  /** For each of the three directories, a path that begins with its name
      is skipped exactly when a '/' follows the name: "/auth/x" is skipped,
      "/auth" and "/authority" are filtered. */
  lemma ShouldNotFilterDirectories(rest: string)
    ensures ShouldNotFilter("/auth" + rest) <==> StartsWith(rest, "/")
    ensures ShouldNotFilter("/swagger-ui" + rest) <==> StartsWith(rest, "/")
    ensures ShouldNotFilter("/v3/api-docs" + rest) <==> StartsWith(rest, "/")
  {
    UnderDirectory("/auth", rest, "/swagger-ui/", "/v3/api-docs/");
    UnderDirectory("/swagger-ui", rest, "/auth/", "/v3/api-docs/");
    UnderDirectory("/v3/api-docs", rest, "/auth/", "/swagger-ui/");
  }

  /** `dir + rest` starts with `dir + "/"` exactly when `rest` starts with
      '/', and starts with neither of two other directories whose second
      character differs from that of `dir`. */
  lemma UnderDirectory(dir: string, rest: string, other1: string, other2: string)
    requires |dir| >= 2 && |other1| >= 2 && |other2| >= 2
    requires dir[1] != other1[1] && dir[1] != other2[1]
    ensures StartsWith(dir + rest, dir + "/") <==> StartsWith(rest, "/")
    ensures !StartsWith(dir + rest, other1) && !StartsWith(dir + rest, other2)
  {
    var s := dir + rest;
    assert s[1] == dir[1];
    if StartsWith(rest, "/") {
      assert s[..|dir| + 1] == dir + "/";
    }
    if StartsWith(s, dir + "/") {
      assert s[|dir|] == rest[0];
      assert rest[..1] == "/";
    }
  }

  /** Long.parseLong on ASCII text: an optional sign, at least one digit
      '0'..'9', and a value in the 64-bit range; every other ASCII string
      throws. The other Unicode decimal digits Long.parseLong also reads
      are treated as non-digits. */
  function ParseLong(s: string): (n: Option<int>)
    ensures n.Some? ==> -0x8000_0000_0000_0000 <= n.value < 0x8000_0000_0000_0000
    ensures |s| == 0 ==> n.None?
  {
    if |s| == 0 then None
    else
      var negative := s[0] == '-';
      var digits := if s[0] == '-' || s[0] == '+' then s[1..] else s;
      if |digits| == 0 || !AllDigits(digits) then None
      else
        var v: int := if negative then -(ParseDigits(digits) as int) else ParseDigits(digits);
        if -0x8000_0000_0000_0000 <= v < 0x8000_0000_0000_0000 then Some(v) else None
  }

  /** Every 64-bit value parses back from its decimal rendering. */
  lemma ParseLongRoundTrip(n: int)
    requires -0x8000_0000_0000_0000 <= n < 0x8000_0000_0000_0000
    ensures ParseLong(IntStr(n)) == Some(n)
  {
    var s := IntStr(n);
    if n < 0 {
      NegativeDigits(n);
    } else {
      assert IsDigit(s[0]);
      assert AllDigits(s) && ParseDigits(s) == n;
    }
  }

  /** The digits after the sign of a negative rendering. */
  lemma NegativeDigits(n: int)
    requires n < 0
    ensures IntStr(n)[0] == '-' && |IntStr(n)| > 1
    ensures AllDigits(IntStr(n)[1..]) && ParseDigits(IntStr(n)[1..]) == -n
  {
    var m: nat := -n;
    var digits := NatStr(m);
    NatStrRoundTrip(m);
    assert IntStr(n) == "-" + digits;
    assert IntStr(n)[1..] == digits;
  }

  /** Malformed subjects throw. */
  lemma ParseLongRejects()
    ensures ParseLong("-") == None
    ensures ParseLong("12a") == None
  {
    assert !IsDigit("12a"[2]);
  }

  /** A number outside the 64-bit range throws even when well formed. */
  lemma ParseLongOutOfRange(n: int)
    requires n < -0x8000_0000_0000_0000 || 0x8000_0000_0000_0000 <= n
    ensures ParseLong(IntStr(n)) == None
  {
    var s := IntStr(n);
    if n < 0 {
      NegativeDigits(n);
    } else {
      assert IsDigit(s[0]);
    }
  }

  /** UsernamePasswordAuthenticationToken(userId, null, no authorities). */
  datatype Authentication = Authentication(principal: int, credentials: Option<string>, authorities: seq<string>)

  /** What one request does to the security context. */
  datatype ContextChange = Keep | SetAuthentication(auth: Authentication) | ClearContext

  /** The decision of doFilterInternal: a present, valid, non-blacklisted
      token whose subject parses sets the authentication; one whose subject
      does not parse clears the context; every other request leaves the
      context alone. */
  function Decide(authorization: Option<string>, validate: string -> bool, blacklisted: string -> bool,
                  subject: string -> string): (c: ContextChange)
    ensures c.SetAuthentication? <==>
      (var t := ExtractToken(authorization);
       t.Some? && validate(t.value) && !blacklisted(t.value) && ParseLong(subject(t.value)).Some?)
    ensures c.SetAuthentication? ==>
      c.auth == Authentication(ParseLong(subject(ExtractToken(authorization).value)).value, None, [])
    ensures c.ClearContext? <==>
      (var t := ExtractToken(authorization);
       t.Some? && validate(t.value) && !blacklisted(t.value) && ParseLong(subject(t.value)).None?)
    ensures ExtractToken(authorization).None? ==> c == Keep
  {
    var token := ExtractToken(authorization);
    if token.Some? && validate(token.value) && !blacklisted(token.value) then
      match ParseLong(subject(token.value))
      case Some(userId) => SetAuthentication(Authentication(userId, None, []))
      case None => ClearContext
    else Keep
  }

  /** A blacklisted token never authenticates, whatever its signature. */
  lemma BlacklistedNeverAuthenticates(token: string, validate: string -> bool, blacklisted: string -> bool,
                                      subject: string -> string)
    requires blacklisted(token)
    ensures Decide(Some(BearerPrefix + token), validate, blacklisted, subject) == Keep
  {
    ExtractTokenRoundTrip(token);
  }

  /** A valid token for a 64-bit user id authenticates as that user. */
  lemma ValidTokenAuthenticates(token: string, userId: int, validate: string -> bool,
                                blacklisted: string -> bool, subject: string -> string)
    requires validate(token) && !blacklisted(token)
    requires subject(token) == IntStr(userId) && -0x8000_0000_0000_0000 <= userId < 0x8000_0000_0000_0000
    ensures Decide(Some(BearerPrefix + token), validate, blacklisted, subject)
         == SetAuthentication(Authentication(userId, None, []))
  {
    ExtractTokenRoundTrip(token);
    ParseLongRoundTrip(userId);
  }

  /** SecurityContextHolder's context for the current request. */
  class SecurityContext {
    var authentication: Option<Authentication>

    constructor (authentication: Option<Authentication>)
      ensures this.authentication == authentication
    {
      this.authentication := authentication;
    }
  }

  /** doFilterInternal: applies the decision to the context and always
      hands the request on to the rest of the chain. */
  method DoFilterInternal(context: SecurityContext, authorization: Option<string>, validate: string -> bool,
                          blacklisted: string -> bool, subject: string -> string) returns (chainContinued: bool)
    modifies context
    ensures chainContinued
    ensures match Decide(authorization, validate, blacklisted, subject)
      case Keep => context.authentication == old(context.authentication)
      case SetAuthentication(a) => context.authentication == Some(a)
      case ClearContext => context.authentication == None
  {
    var token := ExtractToken(authorization);
    if token.Some? && validate(token.value) && !blacklisted(token.value) {
      var userId := ParseLong(subject(token.value));
      if userId.Some? {
        context.authentication := Some(Authentication(userId.value, None, []));
      } else {
        context.authentication := None;
      }
    }
    chainContinued := true;
  }
}
