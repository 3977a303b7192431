/** Text operations standing in for the Rust standard-library calls the proxy
    client relies on: ASCII lower-casing (`str::to_lowercase`), prefix tests
    (`str::starts_with`), decimal formatting of a port number (`{}` on a
    `u16`), splitting a colon-separated pair, and the CRLF-terminated lines
    of an HTTP/1.1 message head. */
module Text {

  import opened Wrappers

  // ---------------------------------------------------------------------
  // ASCII case

  function LowerChar(c: char): char {
    if 'A' <= c <= 'Z' then (c as int - 'A' as int + 'a' as int) as char else c
  }

  function UpperChar(c: char): char {
    if 'a' <= c <= 'z' then (c as int - 'a' as int + 'A' as int) as char else c
  }

  /** The lower-cased copy of `s`, character by character. */
  function Lower(s: string): (r: string)
    ensures |r| == |s|
  {
    if s == [] then [] else [LowerChar(s[0])] + Lower(s[1..])
  }

  lemma {:induction false} LowerAt(s: string, i: nat)
    requires i < |s|
    ensures Lower(s)[i] == LowerChar(s[i])
  {
    if i > 0 {
      LowerAt(s[1..], i - 1);
    }
  }

  /** Lower-casing distributes over concatenation. */
  lemma {:induction false} LowerAppend(s: string, t: string)
    ensures Lower(s + t) == Lower(s) + Lower(t)
  {
    if s != [] {
      calc {
        Lower(s + t);
        [LowerChar((s + t)[0])] + Lower((s + t)[1..]);
        { assert (s + t)[0] == s[0]; assert (s + t)[1..] == s[1..] + t; }
        [LowerChar(s[0])] + Lower(s[1..] + t);
        { LowerAppend(s[1..], t); }
        [LowerChar(s[0])] + (Lower(s[1..]) + Lower(t));
      }
    } else {
      assert s + t == t;
    }
  }

  /** Lower-casing twice is lower-casing once. */
  lemma LowerIdempotent(s: string)
    ensures Lower(Lower(s)) == Lower(s)
  {
    forall i | 0 <= i < |s|
      ensures Lower(Lower(s))[i] == Lower(s)[i]
    {
      LowerAt(s, i);
      LowerAt(Lower(s), i);
    }
  }

  predicate IsLowerWord(p: string) {
    forall i :: 0 <= i < |p| ==> 'a' <= p[i] <= 'z'
  }

  /** A character lower-cases to lower-case letter `l` exactly when it is
      `l` or its capital. */
  lemma LowerCharOfLetter(c: char, l: char)
    requires 'a' <= l <= 'z'
    ensures LowerChar(c) == l <==> c == l || c == UpperChar(l)
  {
  }

  predicate StartsWith(s: string, prefix: string) {
    |prefix| <= |s| && s[..|prefix|] == prefix
  }

  /** `s` begins with the letters of `word`, each in either case. */
  predicate StartsWithIgnoringCase(s: string, word: string) {
    |word| <= |s| && forall i :: 0 <= i < |word| ==> s[i] == word[i] || s[i] == UpperChar(word[i])
  }

  /** Comparing the lower-cased text with a lower-case word is the same as
      accepting, at every position, the word's letter in either case. */
  lemma LowerStartsWithIff(s: string, p: string)
    requires IsLowerWord(p)
    ensures StartsWith(Lower(s), p) <==> StartsWithIgnoringCase(s, p)
  {
    if |p| <= |s| {
      forall i | 0 <= i < |p|
        ensures Lower(s)[i] == p[i] <==> (s[i] == p[i] || s[i] == UpperChar(p[i]))
      {
        LowerAt(s, i);
        LowerCharOfLetter(s[i], p[i]);
      }
      if forall i :: 0 <= i < |p| ==> s[i] == p[i] || s[i] == UpperChar(p[i]) {
        assert Lower(s)[..|p|] == p;
      }
    }
  }

  /** A text keeps every prefix it has when more text is appended. */
  lemma StartsWithAppend(s: string, p: string, t: string)
    requires StartsWith(s, p)
    ensures StartsWith(s + t, p)
  {
    assert (s + t)[..|p|] == s[..|p|];
  }

  // ---------------------------------------------------------------------
  // Decimal numbers

  predicate IsDigit(c: char) {
    '0' <= c <= '9'
  }

  predicate AllDigits(s: string) {
    forall i :: 0 <= i < |s| ==> IsDigit(s[i])
  }

  function DigitChar(d: nat): (c: char)
    requires d < 10
    ensures IsDigit(c)
  {
    ('0' as int + d) as char
  }

  function DigitValue(c: char): (d: nat)
    requires IsDigit(c)
    ensures d < 10
  {
    c as int - '0' as int
  }

  /** The decimal digits of `n`, without leading zeros (Rust's `{}` on an
      unsigned integer). */
  function Decimal(n: nat): (r: string)
    ensures |r| > 0 && AllDigits(r)
    decreases n
  {
    if n < 10 then [DigitChar(n)] else Decimal(n / 10) + [DigitChar(n % 10)]
  }

  /** The number a string of decimal digits denotes. */
  function DecimalValue(s: string): nat
    requires AllDigits(s)
  {
    if s == [] then 0 else 10 * DecimalValue(s[..|s| - 1]) + DigitValue(s[|s| - 1])
  }

  lemma {:induction false} DecimalRoundTrip(n: nat)
    ensures DecimalValue(Decimal(n)) == n
    decreases n
  {
    if n >= 10 {
      var d := Decimal(n);
      assert d[..|d| - 1] == Decimal(n / 10);
      DecimalRoundTrip(n / 10);
    }
  }

  /** The length of the longest run of digits that ends `s`. */
  function TrailingDigits(s: string): (k: nat)
    ensures k <= |s|
    ensures forall i :: |s| - k <= i < |s| ==> IsDigit(s[i])
    ensures k < |s| ==> !IsDigit(s[|s| - 1 - k])
  {
    if s == [] || !IsDigit(s[|s| - 1]) then 0 else 1 + TrailingDigits(s[..|s| - 1])
  }

  /** Reads `host:port` back from its text: the port is the run of digits at
      the end, the host everything before the colon that precedes it. */
  function SplitHostPort(s: string): Option<(string, nat)>
  {
    var k := TrailingDigits(s);
    if k == 0 || k == |s| || s[|s| - 1 - k] != ':' then None
    else Some((s[..|s| - 1 - k], DecimalValue(s[|s| - k..])))
  }

  /** `host:port` text gives back the host and the port it was made from,
      whatever the host holds (an IPv6 literal's colons included). */
  lemma SplitHostPortRoundTrip(host: string, port: nat)
    ensures SplitHostPort(host + ":" + Decimal(port)) == Some((host, port))
  {
    var d := Decimal(port);
    var s := host + ":" + d;
    var k := TrailingDigits(s);
    assert s[|s| - 1 - |d|] == ':';
    assert k == |d|;
    assert s[..|s| - 1 - k] == host;
    assert s[|s| - k..] == d;
    DecimalRoundTrip(port);
  }

  // ---------------------------------------------------------------------
  // user:password pairs

  /** Splits `s` at its first colon, as a server reads the user-pass of
      section 2 of RFC 7617; `None` when there is no colon. */
  function SplitAtColon(s: string): (r: Option<(string, string)>)
    ensures r.Some? ==> s == r.value.0 + ":" + r.value.1 && ':' !in r.value.0
    ensures r.None? <==> ':' !in s
  {
    if s == [] then None
    else if s[0] == ':' then Some(([], s[1..]))
    else match SplitAtColon(s[1..])
      case None => None
      case Some((a, b)) => Some(([s[0]] + a, b))
  }

  lemma {:induction false} SplitAtColonRoundTrip(user: string, pass: string)
    ensures ':' !in user ==> SplitAtColon(user + ":" + pass) == Some((user, pass))
  {
    var s := user + ":" + pass;
    if user == [] {
      assert s[0] == ':' && s[1..] == pass;
    } else if ':' !in user {
      assert s[0] == user[0] && s[1..] == user[1..] + ":" + pass;
      SplitAtColonRoundTrip(user[1..], pass);
      assert [user[0]] + user[1..] == user;
    }
  }

  // ---------------------------------------------------------------------
  // CRLF lines

  const CRLF: string := "\r\n"

  /** `s` terminated by CRLF. */
  function Line(s: string): string {
    s + CRLF
  }

  /** Each line followed by CRLF, in order. */
  function JoinLines(lines: seq<string>): string {
    if lines == [] then [] else JoinLines(lines[..|lines| - 1]) + Line(lines[|lines| - 1])
  }

  /** The first CRLF-terminated line of `s` and the text after its CRLF;
      `None` when `s` holds no CR, or its first CR is not followed by LF. */
  function TakeLine(s: string): (r: Option<(string, string)>)
    ensures r.Some? ==> s == r.value.0 + CRLF + r.value.1 && '\r' !in r.value.0
  {
    if s == [] then None
    else if s[0] == '\r' then
      if |s| >= 2 && s[1] == '\n' then Some(([], s[2..])) else None
    else match TakeLine(s[1..])
      case None => None
      case Some((line, rest)) => Some(([s[0]] + line, rest))
  }

  /** Joining lines one at a time from the front gives the same text. */
  lemma {:induction false} JoinLinesCons(line: string, lines: seq<string>)
    ensures JoinLines([line] + lines) == Line(line) + JoinLines(lines)
    decreases |lines|
  {
    var all := [line] + lines;
    if lines == [] {
      assert all[..0] == [];
    } else {
      var front := lines[..|lines| - 1];
      assert all[..|all| - 1] == [line] + front;
      JoinLinesCons(line, front);
    }
  }

  /** Cuts `s` into CRLF-terminated lines. */
  function SplitLines(s: string): Option<seq<string>>
    decreases |s|
  {
    if s == [] then Some([])
    else match TakeLine(s)
      case None => None
      case Some((line, rest)) =>
        match SplitLines(rest)
        case None => None
        case Some(lines) => Some([line] + lines)
  }

  lemma {:induction false} TakeLineOf(line: string, rest: string)
    requires '\r' !in line
    ensures TakeLine(line + CRLF + rest) == Some((line, rest))
  {
    var s := line + CRLF + rest;
    if line == [] {
      assert s[0] == '\r' && s[1] == '\n' && s[2..] == rest;
    } else {
      assert s[0] == line[0] && s[0] != '\r';
      assert s[1..] == line[1..] + CRLF + rest;
      TakeLineOf(line[1..], rest);
      assert [line[0]] + line[1..] == line;
    }
  }

  predicate NoCR(lines: seq<string>) {
    forall k :: 0 <= k < |lines| ==> '\r' !in lines[k]
  }

  /** Lines free of CR are read back exactly, in order, from their joined text. */
  lemma {:induction false} SplitJoinLines(lines: seq<string>)
    requires NoCR(lines)
    ensures SplitLines(JoinLines(lines)) == Some(lines)
  {
    if lines != [] {
      JoinLinesCons(lines[0], lines[1..]);
      assert [lines[0]] + lines[1..] == lines;
      TakeLineOf(lines[0], JoinLines(lines[1..]));
      SplitJoinLines(lines[1..]);
      assert [lines[0]] + lines[1..] == lines;
    }
  }
}
