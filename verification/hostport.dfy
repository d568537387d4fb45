/** Go's `net.SplitHostPort` and `net.JoinHostPort`, which the resolver uses to
    drop the port from the primary's advertised address. Strings are taken
    as sequences of single-byte characters. */
module HostPort {
  import opened Wrappers

  /** The reasons `SplitHostPort` rejects an address. */
  datatype AddrError =
    | MissingPort
    | TooManyColons
    | MissingRightBracket
    | UnexpectedLeftBracket
    | UnexpectedRightBracket

  /** Position of the first `c` in `s`, or -1. */
  function IndexOf(s: string, c: char): (i: int)
    ensures -1 <= i < |s|
    ensures i == -1 <==> c !in s
    ensures 0 <= i ==> s[i] == c && c !in s[..i]
  {
    if |s| == 0 then -1
    else if s[0] == c then 0
    else
      var r := IndexOf(s[1..], c);
      assert s[1..][..r + 1] == s[1..r + 2] by { assert r >= 0 ==> s[1..][..r] == s[1..r + 1]; }
      if r < 0 then -1 else r + 1
  }

  /** Position of the last `c` in `s`, or -1. */
  function LastIndexOf(s: string, c: char): (i: int)
    ensures -1 <= i < |s|
    ensures i == -1 <==> c !in s
    ensures 0 <= i ==> s[i] == c && c !in s[i + 1..]
  {
    if |s| == 0 then -1
    else if s[|s| - 1] == c then |s| - 1
    else
      var r := LastIndexOf(s[..|s| - 1], c);
      assert s == s[..|s| - 1] + [s[|s| - 1]];
      assert r >= 0 ==> s[r + 1..] == s[..|s| - 1][r + 1..] + [s[|s| - 1]];
      r
  }

  /** True when the text holds none of the three characters that delimit a
      host from a port. */
  predicate NoDelimiters(s: string)
  {
    ':' !in s && '[' !in s && ']' !in s
  }

  /** `net.JoinHostPort`: a host holding a colon (an IPv6 literal) is
      bracketed. */
  function JoinHostPort(host: string, port: string): string
  {
    if ':' in host then "[" + host + "]:" + port else host + ":" + port
  }

  /** The shape every address `SplitHostPort` accepts has. */
  predicate SplitsInto(hp: string, host: string, port: string)
  {
    && '[' !in host && ']' !in host && NoDelimiters(port)
    && ((':' !in host && hp == host + ":" + port) || hp == "[" + host + "]:" + port)
  }

  /** The final bracket checks of `net.SplitHostPort`: no '[' from position
      `j` on and no ']' from position `k` on. */
  function CheckBrackets(hp: string, host: string, i: nat, j: nat, k: nat): (r: Result<(string, string), AddrError>)
    requires i < |hp| && j <= |hp| && k <= |hp|
    ensures r.Ok? <==> '[' !in hp[j..] && ']' !in hp[k..]
    ensures r.Ok? ==> r.value == (host, hp[i + 1..])
  {
    if '[' in hp[j..] then Err(UnexpectedLeftBracket)
    else if ']' in hp[k..] then Err(UnexpectedRightBracket)
    else Ok((host, hp[i + 1..]))
  }

  /** The bracketed branch: `[host]:port`, the ']' directly before the last
      colon at `i`. */
  function SplitBracketed(hp: string, i: nat): (r: Result<(string, string), AddrError>)
    requires i < |hp| && hp[i] == ':' && ':' !in hp[i + 1..] && hp[0] == '['
    ensures r.Ok? ==> SplitsInto(hp, r.value.0, r.value.1)
  {
    var end := IndexOf(hp, ']');
    if end < 0 then Err(MissingRightBracket)
    else if end + 1 == |hp| then Err(MissingPort)
    else if end + 1 != i then
      if hp[end + 1] == ':' then Err(TooManyColons) else Err(MissingPort)
    else
      var r := CheckBrackets(hp, hp[1..end], i, 1, end + 1);
      if r.Ok? then
        BracketedShape(hp, end, i);
        r
      else r
  }

  /** An address that passed every check of the bracketed branch has the
      `[host]:port` shape. */
  lemma BracketedShape(hp: string, end: nat, i: nat)
    requires end + 1 == i < |hp|
    requires hp[0] == '[' && hp[end] == ']' && hp[i] == ':'
    requires ']' !in hp[..end] && '[' !in hp[1..] && ']' !in hp[i..] && ':' !in hp[i + 1..]
    ensures end >= 1
    ensures SplitsInto(hp, hp[1..end], hp[i + 1..])
  {
  }

  /** The unbracketed branch: everything before the last colon at `i` is
      the host, which may not hold another colon. */
  function SplitPlain(hp: string, i: nat): (r: Result<(string, string), AddrError>)
    requires i < |hp| && hp[i] == ':' && ':' !in hp[i + 1..]
    ensures r.Ok? ==> SplitsInto(hp, r.value.0, r.value.1)
  {
    var host := hp[..i];
    if ':' in host then Err(TooManyColons)
    else
      var r := CheckBrackets(hp, host, i, 0, 0);
      assert r.Ok? ==> SplitsInto(hp, host, hp[i + 1..]) by {
        if r.Ok? {
          assert hp == hp[..i] + hp[i..i + 1] + hp[i + 1..];
          assert hp[0..] == hp;
        }
      }
      r
  }

  /** `net.SplitHostPort`: the port follows the last colon; a host starting
      with '[' must close with ']' right before that colon; an unbracketed
      host may not hold a colon; stray brackets are rejected. */
  function SplitHostPort(hp: string): (r: Result<(string, string), AddrError>)
    ensures ':' !in hp ==> r == Err(MissingPort)
    ensures r.Ok? ==> SplitsInto(hp, r.value.0, r.value.1)
  {
    var i := LastIndexOf(hp, ':');
    if i < 0 then Err(MissingPort)
    else if hp[0] == '[' then SplitBracketed(hp, i)
    else SplitPlain(hp, i)
  }

  /** The last `c` of `a + [c] + b` is the middle one when `b` holds none. */
  lemma LastIndexOfMiddle(a: string, c: char, b: string)
    requires c !in b
    ensures LastIndexOf(a + [c] + b, c) == |a|
  {
    var s := a + [c] + b;
    var i := LastIndexOf(s, c);
    assert s[|a|] == c;
    assert s[|a| + 1..] == b;
  }

  /** The first `c` of `a + [c] + b` is the middle one when `a` holds none. */
  lemma IndexOfMiddle(a: string, c: char, b: string)
    requires c !in a
    ensures IndexOf(a + [c] + b, c) == |a|
  {
    var s := a + [c] + b;
    var i := IndexOf(s, c);
    assert s[|a|] == c;
    assert s[..|a|] == a;
  }

  /** Where the delimiters of `[host]:port` sit. */
  lemma BracketedDelimiters(host: string, port: string)
    requires ']' !in host && ':' !in port
    ensures var hp := "[" + host + "]:" + port;
      && hp[0] == '['
      && LastIndexOf(hp, ':') == |host| + 2
      && IndexOf(hp, ']') == |host| + 1
  {
    var hp := "[" + host + "]:" + port;
    assert hp == ("[" + host + "]") + [':'] + port;
    LastIndexOfMiddle("[" + host + "]", ':', port);
    assert hp == ("[" + host) + [']'] + (":" + port);
    IndexOfMiddle("[" + host, ']', ":" + port);
  }

  /** `[host]:port` passes the bracket checks. */
  lemma BracketedChecksPass(host: string, port: string)
    requires '[' !in host && ']' !in host && NoDelimiters(port)
    ensures var hp := "[" + host + "]:" + port;
      var i := |host| + 2;
      && hp[1..i - 1] == host
      && CheckBrackets(hp, host, i, 1, i) == Ok((host, port))
  {
  }

  /** `[host]:port` splits back into `host` and `port`. */
  lemma SplitBracketedJoin(host: string, port: string)
    requires '[' !in host && ']' !in host
    requires NoDelimiters(port)
    ensures SplitHostPort("[" + host + "]:" + port) == Ok((host, port))
  {
    BracketedDelimiters(host, port);
    BracketedChecksPass(host, port);
  }

  /** `host:port` with a colon-free host splits back into `host` and `port`. */
  lemma SplitPlainJoin(host: string, port: string)
    requires NoDelimiters(host)
    requires NoDelimiters(port)
    ensures SplitHostPort(host + ":" + port) == Ok((host, port))
  {
    var hp := host + ":" + port;
    var i := |host|;
    assert hp == host + [':'] + port;
    LastIndexOfMiddle(host, ':', port);
    assert hp[..i] == host;
    assert hp[i + 1..] == port;
    assert hp[0..] == hp;
    assert hp[0] != '[' by {
      if |host| > 0 { assert hp[0] == host[0]; }
    }
    assert CheckBrackets(hp, host, i, 0, 0) == Ok((host, port));
    assert SplitPlain(hp, i) == Ok((host, port));
  }

  /** Splitting a joined address gives back its host and port, for any host
      free of brackets and any port free of delimiters. */
  lemma SplitJoinHostPort(host: string, port: string)
    requires '[' !in host && ']' !in host
    requires NoDelimiters(port)
    ensures SplitHostPort(JoinHostPort(host, port)) == Ok((host, port))
  {
    if ':' in host {
      SplitBracketedJoin(host, port);
    } else {
      SplitPlainJoin(host, port);
    }
  }
}
