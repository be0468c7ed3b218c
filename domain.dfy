/** The domain of an endpoint: the network location of its URL, cut at the
    first colon (main.py, `extract_domain`). */
module Domain {

  predicate IsAsciiLetter(c: char) {
    ('a' <= c <= 'z') || ('A' <= c <= 'Z')
  }

  /** Characters Python's `urllib.parse` accepts in a URL scheme: letters,
      digits, '+', '-' and '.'. */
  predicate IsSchemeChar(c: char) {
    IsAsciiLetter(c) || ('0' <= c <= '9') || c == '+' || c == '-' || c == '.'
  }

  /** Index of the first occurrence of `c` in `s`, or `|s|` when there is none. */
  function IndexOf(s: string, c: char): (i: nat)
    ensures i <= |s|
    ensures c !in s[..i]
    ensures i < |s| ==> s[i] == c
  {
    if s == [] then 0
    else if s[0] == c then 0
    else 1 + IndexOf(s[1..], c)
  }

  /** Index of the first character of `s` that is in `stops`, or `|s|`. */
  function IndexOfAny(s: string, stops: set<char>): (i: nat)
    ensures i <= |s|
    ensures forall k :: 0 <= k < i ==> s[k] !in stops
    ensures i < |s| ==> s[i] in stops
  {
    if s == [] then 0
    else if s[0] in stops then 0
    else 1 + IndexOfAny(s[1..], stops)
  }

  /** The text after the scheme: when the URL starts with a scheme followed by
      ':', what follows that colon, otherwise the whole URL. */
  function AfterScheme(url: string): (r: string)
    ensures |r| <= |url| && r == url[|url| - |r|..]
    ensures r == url || var s := url[..|url| - |r| - 1];
      |r| < |url| && IsScheme(s) && ':' !in s && url[|s|] == ':'
  {
    var i := IndexOf(url, ':');
    if 0 < i < |url| && IsAsciiLetter(url[0]) && forall k :: 0 <= k < i ==> IsSchemeChar(url[k])
    then url[i + 1..]
    else url
  }

  /** The authority of the text after the scheme: when it starts with "//",
      everything after those two slashes up to the first '/', '?' or '#';
      otherwise the empty string. */
  function Authority(rest: string): (n: string)
    ensures '/' !in n && '?' !in n && '#' !in n
    ensures if |rest| >= 2 && rest[..2] == "//" then
        n <= rest[2..] && (|n| == |rest| - 2 || rest[2 + |n|] in {'/', '?', '#'})
      else n == []
  {
    if |rest| >= 2 && rest[..2] == "//" then
      var tail := rest[2..];
      var n := tail[..IndexOfAny(tail, {'/', '?', '#'})];
      assert forall k :: 0 <= k < |n| ==> n[k] == tail[k];
      n
    else []
  }

  /** The network location of a URL, as `urlparse(url).netloc` gives it: the
      authority of the text after the scheme. */
  function Netloc(url: string): (n: string)
    ensures '/' !in n && '?' !in n && '#' !in n
    ensures var rest := AfterScheme(url);
      if |rest| >= 2 && rest[..2] == "//" then
        n <= rest[2..] && (|n| == |rest| - 2 || rest[2 + |n|] in {'/', '?', '#'})
      else n == []
  {
    Authority(AfterScheme(url))
  }

  /** `netloc.split(':')[0]`: the network location up to, not including, its
      first ':'. Any port is cut off, and so is a password and host after a
      `user:` prefix (the cut is at the FIRST colon). */
  function ExtractDomain(netloc: string): (d: string)
    ensures d <= netloc
    ensures ':' !in d
    ensures |d| == |netloc| || netloc[|d|] == ':'
  {
    netloc[..IndexOf(netloc, ':')]
  }

  /** `extract_domain(url)`. */
  function UrlDomain(url: string): (d: string)
    ensures ':' !in d && '/' !in d
    ensures d <= Netloc(url)
  {
    ExtractDomain(Netloc(url))
  }

  /** The three properties `ExtractDomain` ensures determine its result: any
      colon-free prefix of the netloc that ends at a colon or at the end is it. */
  lemma ExtractDomainUnique(netloc: string, d: string)
    requires d <= netloc && ':' !in d
    requires |d| == |netloc| || netloc[|d|] == ':'
    ensures ExtractDomain(netloc) == d
  {
    assert netloc[..|d|] == d;
    if |d| < |netloc| {
      IndexOfAt(netloc, ':', |d|);
    }
  }

  /** Extracting the domain of a domain changes nothing. */
  lemma ExtractDomainIdempotent(netloc: string)
    ensures ExtractDomain(ExtractDomain(netloc)) == ExtractDomain(netloc)
  {
    var d := ExtractDomain(netloc);
    ExtractDomainUnique(d, d);
  }

  /** A netloc without a colon is its own domain. */
  lemma ExtractDomainNoColon(netloc: string)
    requires ':' !in netloc
    ensures ExtractDomain(netloc) == netloc
  {
    ExtractDomainUnique(netloc, netloc);
  }

  /** The port does not matter: `host:port` and `host` give the same domain. */
  lemma ExtractDomainIgnoresPort(host: string, port: string)
    requires ':' !in host
    ensures ExtractDomain(host + ":" + port) == host == ExtractDomain(host)
  {
    ExtractDomainUnique(host + ":" + port, host);
    ExtractDomainUnique(host, host);
  }

  /** The domain is not a URL in its turn: taking the domain of a domain gives
      the empty string, since a domain has neither a scheme nor "//". */
  lemma UrlDomainOfDomain(url: string)
    ensures UrlDomain(UrlDomain(url)) == []
  {
    NetlocWithoutSchemeOrSlash(UrlDomain(url));
  }

  /** Text with no ':' and no '/' has no scheme and no "//", so no netloc. */
  lemma NetlocWithoutSchemeOrSlash(s: string)
    requires ':' !in s && '/' !in s
    ensures Netloc(s) == []
  {
    assert AfterScheme(s) == s;
    if |s| >= 2 {
      assert s[..2][0] == s[0] != '/';
    }
  }

  /** `IndexOf` finds the first occurrence. */
  lemma IndexOfAt(s: string, c: char, i: nat)
    requires i < |s| && s[i] == c && c !in s[..i]
    ensures IndexOf(s, c) == i
  {
  }

  /** `IndexOfAny` finds the first character among the stops. */
  lemma IndexOfAnyAt(s: string, stops: set<char>, i: nat)
    requires i < |s| && s[i] in stops
    requires forall k :: 0 <= k < i ==> s[k] !in stops
    ensures IndexOfAny(s, stops) == i
  {
  }

  /** A scheme as `urlparse` recognises it: a letter, then letters, digits, '+', '-' or '.'. */
  predicate IsScheme(scheme: string) {
    |scheme| > 0 && IsAsciiLetter(scheme[0]) && forall k :: 0 <= k < |scheme| ==> IsSchemeChar(scheme[k])
  }

  /** A recognised scheme and its colon are stripped. */
  lemma AfterSchemeOf(scheme: string, rest: string)
    requires IsScheme(scheme)
    ensures AfterScheme(scheme + ":" + rest) == rest
  {
    var url := scheme + ":" + rest;
    assert url[..|scheme|] == scheme;
    IndexOfAt(url, ':', |scheme|);
    assert forall k :: 0 <= k < |scheme| ==> IsSchemeChar(url[k]) by {
      forall k | 0 <= k < |scheme| ensures IsSchemeChar(url[k]) {
        assert url[k] == scheme[k];
      }
    }
    assert url[|scheme| + 1..] == rest;
  }

  /** After the two slashes, the netloc runs up to the path, query or fragment. */
  lemma AuthoritySplit(netloc: string, path: string)
    requires '/' !in netloc && '?' !in netloc && '#' !in netloc
    requires path == [] || path[0] in {'/', '?', '#'}
    ensures var tail := netloc + path; tail[..IndexOfAny(tail, {'/', '?', '#'})] == netloc
  {
    var tail := netloc + path;
    if path == [] {
      assert tail == netloc;
    } else {
      IndexOfAnyAt(tail, {'/', '?', '#'}, |netloc|);
    }
    assert tail[..|netloc|] == netloc;
  }

  /** The netloc of `scheme://netloc` followed by a path, query or fragment (or nothing). */
  lemma NetlocOf(scheme: string, netloc: string, path: string)
    requires IsScheme(scheme)
    requires '/' !in netloc && '?' !in netloc && '#' !in netloc
    requires path == [] || path[0] in {'/', '?', '#'}
    ensures Netloc(scheme + "://" + netloc + path) == netloc
  {
    var rest := "//" + (netloc + path);
    assert scheme + "://" + netloc + path == scheme + ":" + rest;
    AfterSchemeOf(scheme, rest);
    assert rest[..2] == "//" && rest[2..] == netloc + path;
    AuthoritySplit(netloc, path);
  }

  /** The port does not change the domain of a URL, nor does the path:
      `https://example.com:8443/x` and `https://example.com/y` both give
      `example.com`. */
  lemma UrlDomainIgnoresPort(scheme: string, host: string, port: string, path1: string, path2: string)
    requires IsScheme(scheme)
    requires ':' !in host && '/' !in host && '?' !in host && '#' !in host
    requires '/' !in port && '?' !in port && '#' !in port
    requires path1 == [] || path1[0] in {'/', '?', '#'}
    requires path2 == [] || path2[0] in {'/', '?', '#'}
    ensures UrlDomain(scheme + "://" + host + ":" + port + path1) == host
    ensures UrlDomain(scheme + "://" + host + path2) == host
  {
    assert scheme + "://" + host + ":" + port + path1 == scheme + "://" + (host + ":" + port) + path1;
    NetlocOf(scheme, host + ":" + port, path1);
    NetlocOf(scheme, host, path2);
    ExtractDomainIgnoresPort(host, port);
  }

  /** A `user:password@host` netloc yields the user name, not the host. */
  lemma ExtractDomainUserInfo(user: string, rest: string)
    requires ':' !in user
    ensures ExtractDomain(user + ":" + rest) == user
  {
    ExtractDomainUnique(user + ":" + rest, user);
  }
}
