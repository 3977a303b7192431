/** A model of the HTTP CONNECT tunnel client of ws-rs (src/proxy.rs): the
    authentication scheme named by a proxy's challenge, the configured proxy
    with its credentials, the request text sent for each scheme (section 4.3.6
    of RFC 7231, with the Basic credentials of section 4.4 of RFC 7235 and
    section 2 of RFC 7617), the reading of the proxy's status code, and the
    list of schemes offered by a 407 response (section 3.2 of RFC 7235).
    The socket, the HTTP response parser and the base64 encoder are inputs. */
module HttpProxy {

  import opened Wrappers
  import opened Text

  type uint16 = x: int | 0 <= x < 0x1_0000

  // ---------------------------------------------------------------------
  // Authentication schemes

  /** The scheme a proxy asks for, or the one the client is configured to use. */
  datatype AuthType = None | Basic | Digest | Unknown(scheme: string)

  /** Reads the scheme out of a `Proxy-Authenticate` value (section 4.3 of
      RFC 7235): the value is lower-cased, tested for the prefix `basic`
      first and `digest` second, and otherwise kept, as written, as `Unknown`. */
  function ParseAuthType(s: string): (a: AuthType)
    ensures a != AuthType.None
    ensures a.Unknown? ==> a.scheme == s
  {
    var lower := Lower(s);
    if StartsWith(lower, "basic") then Basic
    else if StartsWith(lower, "digest") then Digest
    else Unknown(s)
  }

  /** `Basic` exactly when the value begins with the letters b-a-s-i-c, each
      in either case; longer words such as "basically" therefore count. */
  lemma ParseBasicIff(s: string)
    ensures ParseAuthType(s) == Basic <==> StartsWithIgnoringCase(s, "basic")
  {
    LowerStartsWithIff(s, "basic");
  }

  /** `Digest` exactly when the value begins with d-i-g-e-s-t in either case;
      such a value never also begins with `basic`, so testing `basic` first
      hides no `Digest` challenge. */
  lemma ParseDigestIff(s: string)
    ensures ParseAuthType(s) == Digest <==> StartsWithIgnoringCase(s, "digest")
    ensures StartsWithIgnoringCase(s, "digest") ==> !StartsWithIgnoringCase(s, "basic")
  {
    LowerStartsWithIff(s, "basic");
    LowerStartsWithIff(s, "digest");
    if StartsWithIgnoringCase(s, "digest") {
      assert s[0] == 'd' || s[0] == 'D';
    }
  }

  /** Every other value, the empty one included, is kept verbatim. */
  lemma ParseUnknownIff(s: string)
    ensures ParseAuthType(s).Unknown? <==>
            !StartsWithIgnoringCase(s, "basic") && !StartsWithIgnoringCase(s, "digest")
    ensures ParseAuthType(s).Unknown? ==> ParseAuthType(s) == Unknown(s)
  {
    ParseBasicIff(s);
    ParseDigestIff(s);
  }

  /** Parsing ignores case: the lower-cased value names the same scheme, and
      only the text kept by `Unknown` differs. */
  lemma ParseOfLower(s: string)
    ensures ParseAuthType(Lower(s)) ==
            if ParseAuthType(s).Unknown? then Unknown(Lower(s)) else ParseAuthType(s)
  {
    LowerIdempotent(s);
  }

  /** A recognised scheme stays recognised whatever parameters follow it. */
  lemma ParseKeepsScheme(s: string, params: string)
    requires !ParseAuthType(s).Unknown?
    ensures ParseAuthType(s + params) == ParseAuthType(s)
  {
    LowerAppend(s, params);
    if StartsWith(Lower(s), "basic") {
      StartsWithAppend(Lower(s), "basic", Lower(params));
    } else {
      StartsWithAppend(Lower(s), "digest", Lower(params));
      ParseDigestIff(s);
      ParseDigestIff(s + params);
      LowerStartsWithIff(s + params, "basic");
    }
  }

  lemma ParseBasicExamples()
    ensures ParseAuthType("Basic") == Basic
    ensures ParseAuthType("BASIC") == Basic
  {
    assert StartsWithIgnoringCase("Basic", "basic");
    ParseBasicIff("Basic");
    assert StartsWithIgnoringCase("BASIC", "basic");
    ParseBasicIff("BASIC");
  }

  /** A longer word is still Basic: only the prefix is tested. */
  lemma ParseLongerBasicExample()
    ensures ParseAuthType("basically") == Basic
  {
    assert StartsWithIgnoringCase("basically", "basic");
    ParseBasicIff("basically");
  }

  lemma ParseDigestExample()
    ensures ParseAuthType("Digest") == Digest
  {
    assert StartsWithIgnoringCase("Digest", "digest");
    ParseDigestIff("Digest");
  }

  lemma ParseUnknownExamples()
    ensures ParseAuthType("Negotiate") == Unknown("Negotiate")
    ensures ParseAuthType("NTLM") == Unknown("NTLM")
    ensures ParseAuthType("") == Unknown("")
  {
    ParseUnknownIff("Negotiate");
    ParseUnknownIff("NTLM");
    ParseUnknownIff("");
  }

  /** The credential text sent for a scheme: the base64 encoding of `auth`
      for Basic, `auth` itself for None and Unknown. Digest is
      `unimplemented!()` in the source, a panic, so it is excluded here. */
  function GetCredential(a: AuthType, auth: string, encode: string -> string): string
    requires !a.Digest?
  {
    match a
    case Basic => encode(auth)
    case _ => auth
  }

  // ---------------------------------------------------------------------
  // URLs and the `host:port` of the target

  /** What the client reads from a URL: the host, the port (given or the
      scheme's known default), the user name (empty when none), the password,
      and whether the URL has an authority part. */
  datatype Url = Url(
    host: Option<string>,
    port: Option<uint16>,
    username: string,
    password: Option<string>,
    hasAuthority: bool)

  const DefaultPort: uint16 := 80

  /** `host:port` of the target; `None` where `host_str().unwrap()` panics.
      The text reads back as the host and the port, 80 when the URL has none. */
  function HostPort(target: Url): (r: Option<string>)
    ensures r.Some? <==> target.host.Some?
    ensures r.Some? ==> SplitHostPort(r.value) == Some((target.host.value, target.port.GetOr(DefaultPort) as nat))
  {
    match target.host
    case None => Option.None
    case Some(h) =>
      var p := target.port.GetOr(DefaultPort);
      SplitHostPortRoundTrip(h, p);
      Some(h + ":" + Decimal(p))
  }

  // ---------------------------------------------------------------------
  // The CONNECT request

  /** The request sent without authentication. */
  function PlainRequest(hp: string): string {
    Line("CONNECT " + hp + " HTTP/1.1") + Line("Host: " + hp) + Line("Connection: keep-alive") + CRLF
  }

  /** The request sent with Basic credentials. */
  function BasicRequest(hp: string, credential: string): string {
    Line("CONNECT " + hp + " HTTP/1.1") + Line("Host: " + hp) +
    Line("Proxy-Authorization: Basic " + credential) + Line("Connection: keep-alive") + CRLF
  }

  /** The lines of the unauthenticated request head: the request line and
      `Host` naming the same `host:port`, then `Connection`, then the empty
      line that ends the head. */
  function PlainHead(hp: string): seq<string> {
    ["CONNECT " + hp + " HTTP/1.1", "Host: " + hp, "Connection: keep-alive", ""]
  }

  function AuthorizationLine(credential: string): string {
    "Proxy-Authorization: Basic " + credential
  }

  /** `head` with the authorization line placed before `Connection`. */
  function WithAuthorization(head: seq<string>, credential: string): seq<string>
    requires |head| >= 2
  {
    head[..2] + [AuthorizationLine(credential)] + head[2..]
  }

  /** The unauthenticated request is exactly the lines of `PlainHead`. */
  lemma PlainRequestLines(hp: string)
    requires '\r' !in hp
    ensures SplitLines(PlainRequest(hp)) == Some(PlainHead(hp))
  {
    var head := PlainHead(hp);
    assert head[..1][..0] == [];
    assert JoinLines(head[..1]) == Line(head[0]);
    assert head[..2][..1] == head[..1];
    assert JoinLines(head[..2]) == Line(head[0]) + Line(head[1]);
    assert head[..3][..2] == head[..2];
    assert JoinLines(head[..3]) == Line(head[0]) + Line(head[1]) + Line(head[2]);
    assert head[..3] == head[..|head| - 1];
    assert Line(head[3]) == CRLF;
    assert JoinLines(head) == PlainRequest(hp);
    SplitJoinLines(head);
  }

  /** The Basic request is the unauthenticated one with one line added,
      `Proxy-Authorization: Basic <credential>`, just before `Connection`. */
  lemma BasicRequestLines(hp: string, credential: string)
    requires '\r' !in hp && '\r' !in credential
    ensures SplitLines(BasicRequest(hp, credential)) == Some(WithAuthorization(PlainHead(hp), credential))
  {
    var head := WithAuthorization(PlainHead(hp), credential);
    assert head == ["CONNECT " + hp + " HTTP/1.1", "Host: " + hp, AuthorizationLine(credential),
                    "Connection: keep-alive", ""];
    assert head[..1][..0] == [];
    assert JoinLines(head[..1]) == Line(head[0]);
    assert head[..2][..1] == head[..1];
    assert JoinLines(head[..2]) == Line(head[0]) + Line(head[1]);
    assert head[..3][..2] == head[..2];
    assert JoinLines(head[..3]) == Line(head[0]) + Line(head[1]) + Line(head[2]);
    assert head[..4][..3] == head[..3];
    assert JoinLines(head[..4]) == Line(head[0]) + Line(head[1]) + Line(head[2]) + Line(head[3]);
    assert head[..4] == head[..|head| - 1];
    assert Line(head[4]) == CRLF;
    assert JoinLines(head) == BasicRequest(hp, credential);
    SplitJoinLines(head);
  }

  /** No line of the unauthenticated request is a `Proxy-Authorization` header. */
  lemma PlainRequestHasNoAuthorization(hp: string)
    ensures forall k :: 0 <= k < |PlainHead(hp)| ==> !StartsWith(PlainHead(hp)[k], "Proxy-Authorization:")
  {
    var head := PlainHead(hp);
    assert head[0][0] == 'C' && head[1][0] == 'H' && head[2][0] == 'C';
  }

  // ---------------------------------------------------------------------
  // Errors and outcomes

  /** The errors a connection attempt returns. `ProxyError` is the source's
      `Kind::Proxy` error with its message; `IoError` and `HttpError` stand
      for the socket and parser errors that `?` converts. */
  datatype Error =
    | ProxyError(offered: Option<seq<AuthType>>, details: string)
    | IoError
    | HttpError

  const MissingCredentials: string := "use basic auth, but dont have auth."
  const UnsupportedScheme: string := "unsupport authorization type."
  const ProxyUnauthorized: string := "proxy unauthorized."
  const AuthorizationRequired: string := "proxy required authorization."
  const UnexpectedCode: string := "unexpect responsecode from proxy."

  /** Where the source panics instead of returning an error. */
  datatype PanicSite = HostMissing | DigestUnimplemented

  datatype Outcome = Tunnel | Failed(error: Error) | Panicked(site: PanicSite)

  /** What the request builder produces: the bytes to send, an error before
      anything is sent, or the Digest panic. */
  datatype Prepared = Send(bytes: string) | Refuse(error: Error) | Unimplemented

  // ---------------------------------------------------------------------
  // The proxy's response

  datatype Header = Header(name: string, value: string)

  /** The parsed status line and headers of the proxy's reply. */
  datatype Response = Response(code: Option<uint16>, headers: seq<Header>)

  /** The header slots given to the response parser. */
  const MaxHeaders: nat := 32

  const ProxyAuthenticate: string := "Proxy-Authenticate"

  /** The schemes of a 407 response: one per header named exactly
      `Proxy-Authenticate` (the name compared case-sensitively), in header
      order, duplicates kept. */
  function Challenges(headers: seq<Header>): (r: seq<AuthType>)
    ensures |r| <= |headers|
    ensures forall k :: 0 <= k < |r| ==> r[k] != AuthType.None
  {
    if headers == [] then []
    else
      (if headers[0].name == ProxyAuthenticate then [ParseAuthType(headers[0].value)] else []) +
      Challenges(headers[1..])
  }

  /** The list for consecutive runs of headers is the concatenation of their
      lists, so the order of the headers is the order of the list. */
  lemma {:induction false} ChallengesAppend(a: seq<Header>, b: seq<Header>)
    ensures Challenges(a + b) == Challenges(a) + Challenges(b)
  {
    if a == [] {
      assert a + b == b;
    } else {
      assert (a + b)[0] == a[0];
      assert (a + b)[1..] == a[1..] + b;
      ChallengesAppend(a[1..], b);
    }
  }

  /** A scheme is in the list exactly when some `Proxy-Authenticate` header
      carries a value parsing to it. */
  lemma {:induction false} ChallengesMembership(headers: seq<Header>, a: AuthType)
    ensures a in Challenges(headers) <==>
            exists i :: 0 <= i < |headers| && headers[i].name == ProxyAuthenticate &&
                        ParseAuthType(headers[i].value) == a
  {
    if headers != [] {
      ChallengesMembership(headers[1..], a);
      if a in Challenges(headers[1..]) {
        var i :| 0 <= i < |headers[1..]| && headers[1..][i].name == ProxyAuthenticate &&
                 ParseAuthType(headers[1..][i].value) == a;
        assert headers[i + 1] == headers[1..][i];
      }
      if exists i :: 0 <= i < |headers| && headers[i].name == ProxyAuthenticate &&
                     ParseAuthType(headers[i].value) == a {
        var i :| 0 <= i < |headers| && headers[i].name == ProxyAuthenticate &&
                 ParseAuthType(headers[i].value) == a;
        if i > 0 {
          assert headers[1..][i - 1] == headers[i];
        }
      }
    }
  }

  /** A 407 with a Basic and an NTLM challenge offers both, in that order. */
  lemma ChallengesInHeaderOrder()
    ensures Challenges([Header(ProxyAuthenticate, "Basic"), Header(ProxyAuthenticate, "NTLM")]) ==
            [Basic, Unknown("NTLM")]
  {
    var h0, h1 := Header(ProxyAuthenticate, "Basic"), Header(ProxyAuthenticate, "NTLM");
    assert ParseAuthType("Basic") == Basic by { ParseBasicExamples(); }
    assert ParseAuthType("NTLM") == Unknown("NTLM") by { ParseUnknownExamples(); }
    assert [h0, h1][1..] == [h1];
    assert [h1][1..] == [];
  }

  /** A header name in other case is not a challenge. */
  lemma ChallengesNameIsCaseSensitive()
    ensures Challenges([Header("proxy-authenticate", "Basic")]) == []
  {
    assert [Header("proxy-authenticate", "Basic")][1..] == [];
  }

  /** Two challenges naming the same scheme are both kept. */
  lemma ChallengesKeepDuplicates(value: string)
    ensures Challenges([Header(ProxyAuthenticate, value), Header(ProxyAuthenticate, value)]) ==
            [ParseAuthType(value), ParseAuthType(value)]
  {
    var h := Header(ProxyAuthenticate, value);
    assert [h, h][1..] == [h];
    assert [h][1..] == [];
  }

  /** What the status code of the reply means; the 2xx case also needs the
      stream conversion to succeed, which `Connect` adds. */
  function Dispatch(resp: Response): (r: Outcome)
    ensures !r.Panicked?
    ensures r == Tunnel <==> resp.code.Some? && 200 <= resp.code.value < 300
    ensures r == Failed(ProxyError(Option.None, ProxyUnauthorized)) <==> resp.code == Some(401)
    ensures resp.code == Some(407) <==> r.Failed? && r.error.ProxyError? && r.error.offered.Some?
    ensures resp.code == Some(407) ==>
              r == Failed(ProxyError(Some(Challenges(resp.headers)), AuthorizationRequired))
    ensures r == Failed(ProxyError(Option.None, UnexpectedCode)) <==>
              resp.code.None? || !(200 <= resp.code.value < 300 || resp.code.value == 401 || resp.code.value == 407)
  {
    match resp.code
    case Some(code) =>
      if 200 <= code < 300 then Tunnel
      else if code == 401 then Failed(ProxyError(Option.None, ProxyUnauthorized))
      else if code == 407 then Failed(ProxyError(Some(Challenges(resp.headers)), AuthorizationRequired))
      else Failed(ProxyError(Option.None, UnexpectedCode))
    case None => Failed(ProxyError(Option.None, UnexpectedCode))
  }

  /** What the socket and the response parser do during one attempt. The
      parser's `Partial` status (a head cut off by the 1024-byte buffer) is
      not an error in the source, so `reply` is then `Some` with whatever code
      and headers were read; `None` stands for a parser error. */
  datatype Transport = Transport(
    connectOk: bool,          // the TCP connection to the proxy opens
    writeOk: bool,            // writing the request does not fail
    readOk: bool,             // the one read into the 1024-byte buffer does not fail
    reply: Option<Response>,  // what the parser leaves in the response; None: it failed
    convertOk: bool)          // the blocking stream converts to a non-blocking one

  // ---------------------------------------------------------------------
  // The proxy

  /** A forward proxy: its URL, which carries the credentials, and the
      scheme used to authenticate to it. */
  class Proxy {
    var url: Url
    var authType: AuthType

    /** A proxy that does not authenticate. */
    constructor (url: Url)
      ensures this.url == url && authType == AuthType.None
    {
      this.url := url;
      authType := AuthType.None;
    }

    constructor WithAuth(url: Url, authType: AuthType)
      ensures this.url == url && this.authType == authType
    {
      this.url := url;
      this.authType := authType;
    }

    method SetAuthType(authType: AuthType)
      modifies this
      ensures this.authType == authType && url == old(url)
    {
      this.authType := authType;
    }

    method SetUsername(username: string)
      modifies this
      ensures url == old(url).(username := username) && authType == old(authType)
      ensures HasAuth() == old(HasAuth())
    {
      url := url.(username := username);
    }

    method SetPassword(password: string)
      modifies this
      ensures url == old(url).(password := Some(password)) && authType == old(authType)
      ensures HasAuth() == url.hasAuthority
    {
      url := url.(password := Some(password));
    }

    /** The proxy URL has an authority and a password: the condition under
        which `GetAuth` may unwrap the password. */
    function HasAuth(): bool
      reads this
    {
      url.hasAuthority && url.password.Some?
    }

    /** The RFC 7617 user-pass `user:password`; unwrapping an absent password
        panics, hence the precondition. A user name without a colon is read
        back exactly by splitting at the first colon. */
    function GetAuth(): (r: string)
      reads this
      requires url.password.Some?
      ensures ':' !in url.username ==> SplitAtColon(r) == Some((url.username, url.password.value))
      ensures StartsWith(r, url.username)
    {
      SplitAtColonRoundTrip(url.username, url.password.value);
      url.username + ":" + url.password.value
    }

    /** The request for `hp` under the configured scheme. Basic without
        credentials and every Unknown scheme are refused before anything is
        sent; Digest panics. */
    function Request(hp: string, encode: string -> string): (r: Prepared)
      reads this
      ensures r.Send? <==> authType.None? || (authType.Basic? && HasAuth())
      ensures r.Unimplemented? <==> authType.Digest?
      ensures authType.None? ==> r == Send(PlainRequest(hp))
      ensures authType.Basic? && HasAuth() ==> r == Send(BasicRequest(hp, encode(GetAuth())))
      ensures authType.Basic? && !HasAuth() ==> r == Refuse(ProxyError(Option.None, MissingCredentials))
      ensures authType.Unknown? ==> r == Refuse(ProxyError(Option.None, UnsupportedScheme))
    {
      match authType
      case None => Send(PlainRequest(hp))
      case Basic =>
        if HasAuth() then Send(BasicRequest(hp, GetCredential(authType, GetAuth(), encode)))
        else Refuse(ProxyError(Option.None, MissingCredentials))
      case Digest => Unimplemented
      case Unknown(_) => Refuse(ProxyError(Option.None, UnsupportedScheme))
    }

    /** One CONNECT attempt towards `target` over `wire`. `written` is the
        request given to the socket, `None` when the attempt ends before the
        write. Each step's failure ends the attempt, in the order of the
        steps: connect, target host, request, write, read, parse, status. */
    method Connect(target: Url, encode: string -> string, wire: Transport)
      returns (written: Option<string>, outcome: Outcome)
      ensures !wire.connectOk ==> written == Option.None && outcome == Failed(IoError)
      ensures outcome.Panicked? <==> wire.connectOk && (target.host.None? || authType.Digest?)
      ensures outcome.Panicked? ==> written == Option.None
      ensures outcome.Panicked? ==>
                outcome.site == (if target.host.None? then HostMissing else DigestUnimplemented)
      ensures written.Some? <==>
                wire.connectOk && target.host.Some? && Request(HostPort(target).value, encode).Send?
      ensures written.Some? ==> Request(HostPort(target).value, encode) == Send(written.value)
      ensures wire.connectOk && target.host.Some? && Request(HostPort(target).value, encode).Refuse? ==>
                outcome == Failed(Request(HostPort(target).value, encode).error)
      ensures written.Some? && !(wire.writeOk && wire.readOk) ==> outcome == Failed(IoError)
      ensures written.Some? && wire.writeOk && wire.readOk && wire.reply.None? ==> outcome == Failed(HttpError)
      ensures (written.Some? && wire.writeOk && wire.readOk && wire.reply.Some? &&
               |wire.reply.value.headers| > MaxHeaders) ==> outcome == Failed(HttpError)
      ensures (written.Some? && wire.writeOk && wire.readOk && wire.reply.Some? &&
               |wire.reply.value.headers| <= MaxHeaders && Dispatch(wire.reply.value) != Tunnel) ==>
                outcome == Dispatch(wire.reply.value)
      ensures (written.Some? && wire.writeOk && wire.readOk && wire.reply.Some? &&
               |wire.reply.value.headers| <= MaxHeaders && Dispatch(wire.reply.value) == Tunnel &&
               !wire.convertOk) ==> outcome == Failed(IoError)
      ensures outcome == Tunnel <==>
                written.Some? && wire.writeOk && wire.readOk && wire.reply.Some? &&
                |wire.reply.value.headers| <= MaxHeaders && Dispatch(wire.reply.value) == Tunnel && wire.convertOk
      ensures (outcome.Failed? && outcome.error.ProxyError? && outcome.error.offered.Some?) ==>
                wire.reply.Some? && wire.reply.value.code == Some(407) &&
                outcome.error.offered.value == Challenges(wire.reply.value.headers) &&
                |outcome.error.offered.value| <= MaxHeaders
    {
      written := Option.None;
      if !wire.connectOk {
        outcome := Failed(IoError);
        return;
      }
      var hp := HostPort(target);
      if hp.None? {
        outcome := Panicked(HostMissing);
        return;
      }
      var prepared := Request(hp.value, encode);
      match prepared {
        case Refuse(e) =>
          outcome := Failed(e);
          return;
        case Unimplemented =>
          outcome := Panicked(DigestUnimplemented);
          return;
        case Send(bytes) =>
          written := Some(bytes);
      }
      if !wire.writeOk || !wire.readOk {
        outcome := Failed(IoError);
        return;
      }
      if wire.reply.None? || |wire.reply.value.headers| > MaxHeaders {
        outcome := Failed(HttpError);
        return;
      }
      outcome := Dispatch(wire.reply.value);
      if outcome == Tunnel && !wire.convertOk {
        outcome := Failed(IoError);
      }
    }
  }

  /** The encoder never produces a carriage return; base64 output, made of
      letters, digits, `+`, `/` and `=`, is such a text. */
  ghost predicate NoCarriageReturn(encode: string -> string)
  {
    forall s :: '\r' !in encode(s)
  }

  /** The request a proxy sends has the head of `PlainHead`, with the
      authorization line added for Basic. */
  lemma SentRequestHead(p: Proxy, hp: string, encode: string -> string)
    requires '\r' !in hp
    requires p.Request(hp, encode).Send?
    requires NoCarriageReturn(encode)
    ensures SplitLines(p.Request(hp, encode).bytes) ==
            Some(if p.authType.Basic? then WithAuthorization(PlainHead(hp), encode(p.GetAuth()))
                 else PlainHead(hp))
  {
    if p.authType.Basic? {
      BasicRequestLines(hp, encode(p.GetAuth()));
    } else {
      PlainRequestLines(hp);
    }
  }
}
