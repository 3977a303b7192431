# HTTP CONNECT proxy client, modelled in Dafny

This project models the proxy client of ws-rs (`src/proxy.rs`). The client opens a
tunnel through a forward proxy with the CONNECT method (section 4.3.6 of RFC 7231).
It can send Basic credentials (section 4.4 of RFC 7235, section 2 of RFC 7617).
It reads the proxy's status code, and on a 407 it collects the authentication
schemes the proxy offers (section 3.2 of RFC 7235).

Files:

- `wrappers.dfy`: module `Wrappers`, an `Option` datatype with `GetOr` (Rust's `unwrap_or`).
- `text.dfy`: module `Text`, the string operations the client relies on:
  - ASCII lower-casing and prefix tests;
  - decimal port numbers and `host:port` text, with a reader that gives host and port back;
  - `user:password` split at the first colon;
  - CRLF-terminated lines, with a splitter that is proved to invert joining.
- `proxy.dfy`: module `HttpProxy`, the client itself:
  - `AuthType` and its parser `ParseAuthType`, plus `GetCredential`;
  - the `Url` fields the client reads;
  - the request texts and their line structure;
  - the challenge list `Challenges` and the status dispatch `Dispatch`;
  - the class `Proxy`, with its setters, `HasAuth`, `GetAuth`, the request builder
    `Request`, and the step-by-step `Connect`.

How the model is shaped:

- A `Proxy` is a class. Its fields are `url` and `authType`, and the setters overwrite them.
- `Connect` is a method that runs the source's steps in order: TCP connect, target host,
  request, write, read, parse, status. Each step that fails ends the attempt.
- The socket, the HTTP parser and the mio stream conversion are not visible to the model.
  Their results come in as a `Transport` value: whether connect, write and read succeed,
  the parsed reply, and whether the conversion succeeds. The reply is the status code and
  headers the parser leaves behind. It is also present when the parser stops early because the
  head did not fit (httparse's `Partial`), holding whatever was read. `None` means the parser
  returned an error.
- `crate::handshake::encode_base64` is the function parameter `encode`.
- `Connect` returns two things. `written` is the request passed to the socket, or `None`
  when the attempt ends first. `outcome` is `Tunnel`, `Failed(error)` or `Panicked(site)`.
  `Panicked` marks the places where the source panics instead of returning an error.

## Model

| member | source | states |
|---|---|---|
| `HttpProxy.ParseAuthType` | src/proxy.rs:27-41 | parsing never yields `None`; an `Unknown` result keeps the original text, not the lower-cased copy |
| `HttpProxy.ParseBasicIff` | src/proxy.rs:29-33 | the value parses to `Basic` exactly when its first five characters are b-a-s-i-c, each in either case (so `basically` is `Basic` too) |
| `HttpProxy.ParseDigestIff` | src/proxy.rs:31-37 | `Digest` exactly when the value begins with d-i-g-e-s-t in any case; such a value never begins with `basic`, so checking `basic` first hides no Digest challenge |
| `HttpProxy.ParseUnknownIff` | src/proxy.rs:29-39 | `Unknown(s)`, with `s` verbatim, exactly when the value begins with neither word |
| `HttpProxy.ParseOfLower` | src/proxy.rs:29 | parsing the lower-cased value names the same scheme; only the text kept by `Unknown` differs |
| `HttpProxy.ParseKeepsScheme` | src/proxy.rs:29-37 | a recognised scheme stays recognised whatever parameters follow it (`basic realm=x`) |
| `HttpProxy.ParseBasicExamples` | src/proxy.rs:31-33 | `Basic` and `BASIC` parse to `Basic` |
| `HttpProxy.ParseLongerBasicExample` | src/proxy.rs:31-33 | `basically` parses to `Basic` |
| `HttpProxy.ParseDigestExample` | src/proxy.rs:35-37 | `Digest` parses to `Digest` |
| `HttpProxy.ParseUnknownExamples` | src/proxy.rs:39 | `Negotiate`, `NTLM` and the empty value parse to `Unknown` of themselves |
| `HttpProxy.HostPort` | src/proxy.rs:84-88 | `host:port` exists exactly when the target has a host, and reads back as that host and the URL's port, or 80 when there is none |
| `HttpProxy.PlainRequestLines` | src/proxy.rs:89-93 | the unauthenticated request is exactly four CRLF lines: `CONNECT h:p HTTP/1.1`, `Host: h:p` with the same `h:p`, `Connection: keep-alive`, and the empty line |
| `HttpProxy.PlainRequestHasNoAuthorization` | src/proxy.rs:90-93 | no line of the unauthenticated request is a `Proxy-Authorization` header |
| `HttpProxy.BasicRequestLines` | src/proxy.rs:94-99 | the Basic request is the unauthenticated one with `Proxy-Authorization: Basic <credential>` added just before `Connection` |
| `HttpProxy.Challenges` | src/proxy.rs:128-139 | the offered list has at most one entry per header and never contains `None` |
| `HttpProxy.ChallengesAppend` | src/proxy.rs:128-139 | the list for two runs of headers is the concatenation of their lists, so list order is header order |
| `HttpProxy.ChallengesMembership` | src/proxy.rs:131-138 | a scheme is offered exactly when some header named `Proxy-Authenticate` has a value that parses to it |
| `HttpProxy.ChallengesInHeaderOrder` | src/proxy.rs:128-139 | challenges `Basic` then `NTLM` give `[Basic, Unknown("NTLM")]` |
| `HttpProxy.ChallengesNameIsCaseSensitive` | src/proxy.rs:132 | a header named `proxy-authenticate` is not a challenge |
| `HttpProxy.ChallengesKeepDuplicates` | src/proxy.rs:128-139 | two identical challenges give two entries |
| `HttpProxy.Dispatch` | src/proxy.rs:124-143 | the status code is split into four cases, each with its message: 2xx alone gives the tunnel; 401 alone gives "proxy unauthorized." with no list; 407 alone gives "proxy required authorization." with the list of challenges; every other code, and a missing code, gives "unexpect responsecode from proxy." |
| `HttpProxy.Proxy.constructor` | src/proxy.rs:50-55 | a new proxy keeps its URL and uses no authentication |
| `HttpProxy.Proxy.WithAuth` | src/proxy.rs:57-59 | a new proxy keeps the given URL and scheme |
| `HttpProxy.Proxy.SetAuthType` | src/proxy.rs:61-63 | replaces the scheme and leaves the URL alone |
| `HttpProxy.Proxy.SetUsername` | src/proxy.rs:65-67 | replaces the user name only; whether credentials are present does not change |
| `HttpProxy.Proxy.SetPassword` | src/proxy.rs:69-71 | stores the password; credentials are then present exactly when the URL has an authority |
| `HttpProxy.Proxy.GetAuth` | src/proxy.rs:73-75 | needs a password, since unwrapping a missing one panics; the result starts with the user name, and when the user name has no colon, splitting at the first colon gives back the user name and the password |
| `HttpProxy.Proxy.Request` | src/proxy.rs:89-111 | a request is sent exactly for None, and for Basic when credentials are present; Basic without credentials gives "use basic auth, but dont have auth."; Unknown gives "unsupport authorization type."; Digest is the panic; the Basic credential is the encoding of `GetAuth()`, which is what `get_credential` (src/proxy.rs:16-24) gives for Basic, and credentials are present when the URL has an authority and a password (`has_auth`, src/proxy.rs:77-79) |
| `HttpProxy.Proxy.Connect` | src/proxy.rs:81-144 | the steps run in order, and a failing step ends the attempt. A failed TCP connect gives an I/O error before anything else. A panic happens exactly when the target has no host or the scheme is Digest, and its site is the missing host when there is one, otherwise the Digest scheme. Bytes are written exactly when `Request` sends, and those bytes are its text. Write or read failures are I/O errors. A parser error, or more than 32 headers, is an HTTP error. Otherwise the result is `Dispatch` of the reply. A 2xx reply whose stream conversion fails is an I/O error. The tunnel is returned exactly when every step succeeds with a 2xx code. An offered list only comes from a 407, equals `Challenges` of its headers, and has at most 32 entries |
| `HttpProxy.SentRequestHead` | src/proxy.rs:89-99 | whatever `Request` sends has the lines of the unauthenticated head, with the authorization line added for Basic, provided the host text and the encoder's output hold no carriage return (`NoCarriageReturn`) |

## Notes on the code's behaviour

- The credential check (src/proxy.rs:89-111) runs after the TCP connect (src/proxy.rs:82).
  A Basic proxy without credentials therefore opens a connection before it is refused, and a
  failed connect is reported as an I/O error before anything else.
- A Digest scheme reaches `unimplemented!()` at src/proxy.rs:107, a panic. The model gives
  `Panicked(DigestUnimplemented)`.
- The error for any status other than 2xx, 401 and 407 (src/proxy.rs:142) holds only the
  message "unexpect responsecode from proxy.", not the code.
- A target URL with no host panics at src/proxy.rs:86 (`Panicked(HostMissing)`).
- `res.parse(&mut buf)?` (src/proxy.rs:122) discards the parser's status. A reply head that
  does not fit in the 1024-byte buffer is a partial parse, not an error, so the status code
  that was read is still dispatched, and a 2xx code still yields the tunnel
  (src/proxy.rs:116-125).

## Left out

- TCP connect, `write`, the single `read` into the 1024-byte buffer, and the mio stream
  conversion (src/proxy.rs:82, 114, 116-118, 125). These are socket I/O, so `Transport`
  gives only whether each one succeeds.
- `stream.write` may accept only part of the request, and the count it returns is discarded
  (src/proxy.rs:114). The model treats a write as either whole or failed.
- The httparse `Response::parse` call (src/proxy.rs:120-122). It is an external parser, so its
  result is the input `Transport.reply`. Its 32-slot header array appears only as the rule
  that more than 32 headers is an HTTP error. Neither the fixed buffer nor the header array
  is modelled as storage.
- `IoError` and `HttpError` stand for the errors that `?` converts. Those conversions are in
  src/result.rs, which is not part of this model. Their messages are not modelled.
- `crate::handshake::encode_base64` (src/proxy.rs:20) is defined in src/handshake.rs, which
  is not part of this model. It is the function parameter `encode`, and base64 itself is not
  specified.
- The `url` crate (src/proxy.rs:66, 70, 74, 78, 86-87) becomes the plain fields of `Url`.
  `port` already stands for `port_or_known_default()`.
- `HttpProxy.Proxy.SetUsername` and `HttpProxy.Proxy.SetPassword` always store their value,
  as given. The `url` crate may refuse the change (for example on a URL without a host) and
  clears the password when given an empty one; both results are discarded in the source, and
  neither behaviour is modelled. The crate also stores both values percent-encoded, and
  `username()` and `password()` give back the encoded text. The model stores them raw, so its
  Basic credential is the encoding of the unencoded `user:password`, where the source encodes
  the percent-encoded pair.
- Because the model does not percent-encode user names, `GetAuth`'s split property is stated
  for user names without a colon.
- `to_lowercase` is modelled as ASCII lower-casing. Non-ASCII characters are left unchanged,
  and Unicode case mapping is not modelled.
- The `debug!` log of the request (src/proxy.rs:113). It only observes.
- The UTF-8 `unwrap` on header values (src/proxy.rs:135). Header values are taken to be
  valid strings, so that panic is not modelled.
- The `Debug` and `Clone` derives (src/proxy.rs:8, 43).
