/**
 * The scheme tests and the base-URL formatting of web/js/util/URLs.ts. The
 * parsing step of `toBase` belongs to the WHATWG `URL` class, which is not
 * part of this model: `ToBase` takes the parsed protocol, hostname and port.
 */
module URLs {

  datatype Option<+T> = None | Some(value: T)

  /** `s.startsWith(prefix)` */
  predicate StartsWith(s: string, prefix: string) {
    prefix <= s
  }

  /** `isWebScheme`: the URL starts with `http:` or `https:`. */
  predicate IsWebScheme(url: string) {
    StartsWith(url, "http:") || StartsWith(url, "https:")
  }

  /** `isURL`: an absent or empty path is not a URL; otherwise one of four scheme prefixes is required. */
  predicate IsURL(path: Option<string>) {
    match path
    case None => false
    case Some(p) =>
      p != "" && (StartsWith(p, "file:") || StartsWith(p, "blob:") || StartsWith(p, "http:") || StartsWith(p, "https:"))
  }

  /** The string assembly of `toBase`: `protocol//hostname`, then `:port` when the port is not empty. */
  function ToBase(protocol: string, hostname: string, port: string): string {
    protocol + "//" + hostname + (if port != "" then ":" + port else "")
  }

  /** The position of the first `c` in `s`, or `|s|` if there is none. */
  function IndexOf(s: string, c: char): (i: nat)
    ensures i <= |s|
    ensures i < |s| ==> s[i] == c
    ensures forall k :: 0 <= k < i ==> s[k] != c
    decreases |s|
  {
    if s == [] then 0 else if s[0] == c then 0 else 1 + IndexOf(s[1..], c)
  }

  /** A reference reading of a URL string: its scheme is what precedes its first ':'. */
  function Scheme(url: string): Option<string> {
    var i := IndexOf(url, ':');
    if i < |url| then Some(url[..i]) else None
  }

  lemma SchemeOfPrefixed(scheme: string, rest: string)
    requires ':' !in scheme
    ensures Scheme(scheme + ":" + rest) == Some(scheme)
  {
    var s := scheme + ":" + rest;
    assert s[|scheme|] == ':';
    IndexOfFirst(scheme, ':', rest);
    assert s[..|scheme|] == scheme;
  }

  /** The prefix `scheme:` already fixes the scheme of the whole string. */
  lemma PrefixFixesScheme(url: string, scheme: string)
    requires ':' !in scheme && StartsWith(url, scheme + ":")
    ensures Scheme(url) == Some(scheme)
  {
    var n := |scheme| + 1;
    assert url == scheme + ":" + url[n..] by {
      assert url[..n] == scheme + ":";
    }
    SchemeOfPrefixed(scheme, url[n..]);
  }

  /** A known scheme gives back its prefix. */
  lemma SchemeGivesPrefix(url: string, scheme: string)
    requires Scheme(url) == Some(scheme)
    ensures StartsWith(url, scheme + ":")
  {
    var i := IndexOf(url, ':');
    assert url[..i + 1] == scheme + ":";
  }

  /** `isWebScheme` holds exactly for URLs whose scheme is `http` or `https`. */
  lemma WebSchemeIffHttpScheme(url: string)
    ensures IsWebScheme(url) <==> Scheme(url) == Some("http") || Scheme(url) == Some("https")
  {
    if StartsWith(url, "http:") {
      PrefixFixesScheme(url, "http");
    } else if StartsWith(url, "https:") {
      PrefixFixesScheme(url, "https");
    } else if Scheme(url) == Some("http") {
      SchemeGivesPrefix(url, "http");
    } else if Scheme(url) == Some("https") {
      SchemeGivesPrefix(url, "https");
    }
  }

  /** `isURL` holds exactly for paths whose scheme is `file`, `blob`, `http` or `https`. */
  lemma URLIffKnownScheme(path: string)
    ensures IsURL(Some(path)) <==> Scheme(path) in {Some("file"), Some("blob"), Some("http"), Some("https")}
  {
    var known := ["file", "blob", "http", "https"];
    forall k | 0 <= k < 4
      ensures StartsWith(path, known[k] + ":") <==> Scheme(path) == Some(known[k])
    {
      if StartsWith(path, known[k] + ":") {
        PrefixFixesScheme(path, known[k]);
      } else if Scheme(path) == Some(known[k]) {
        SchemeGivesPrefix(path, known[k]);
      }
    }
    assert known[0] + ":" == "file:" && known[1] + ":" == "blob:";
    assert known[2] + ":" == "http:" && known[3] + ":" == "https:";
  }

  /** Every web scheme is a URL. */
  lemma WebSchemeIsURL(url: string)
    ensures IsWebScheme(url) ==> IsURL(Some(url))
  {
  }

  /** `file:` and `blob:` strings are URLs but not web schemes. */
  lemma FileAndBlobAreNotWebSchemes(rest: string)
    ensures IsURL(Some("file:" + rest)) && !IsWebScheme("file:" + rest)
    ensures IsURL(Some("blob:" + rest)) && !IsWebScheme("blob:" + rest)
  {
    SchemeOfPrefixed("file", rest);
    SchemeOfPrefixed("blob", rest);
    WebSchemeIffHttpScheme("file:" + rest);
    WebSchemeIffHttpScheme("blob:" + rest);
    assert "file" + ":" + rest == "file:" + rest;
    assert "blob" + ":" + rest == "blob:" + rest;
    assert StartsWith("file:" + rest, "file:");
    assert StartsWith("blob:" + rest, "blob:");
  }

  /** The parsed parts `toBase` formats. */
  datatype Base = Base(protocol: string, hostname: string, port: string)

  /** The protocol a `URL` object reports: `scheme:`, with no other ':'. */
  predicate WellFormedProtocol(protocol: string) {
    |protocol| > 0 && protocol[|protocol| - 1] == ':' && ':' !in protocol[..|protocol| - 1]
  }

  /** The parts a `URL` object reports, with a hostname and port without ':' (so no IPv6 literal). */
  predicate WellFormedParts(protocol: string, hostname: string, port: string) {
    WellFormedProtocol(protocol) && ':' !in hostname && ':' !in port
  }

  /** Reads a base URL back into its parts: the protocol up to the first ':', then `//`, then host and optional port. */
  function ParseBase(s: string): Option<Base> {
    var i := IndexOf(s, ':');
    if i == |s| then None
    else
      var rest := s[i + 1..];
      if !StartsWith(rest, "//") then None
      else
        var authority := rest[2..];
        var j := IndexOf(authority, ':');
        if j == |authority| then Some(Base(s[..i + 1], authority, ""))
        else Some(Base(s[..i + 1], authority[..j], authority[j + 1..]))
  }

  lemma IndexOfAbsent(s: string, c: char)
    requires c !in s
    ensures IndexOf(s, c) == |s|
  {
  }

  lemma IndexOfFirst(a: string, c: char, b: string)
    requires c !in a
    ensures IndexOf(a + [c] + b, c) == |a|
  {
    var s := a + [c] + b;
    assert s[|a|] == c;
    assert forall k :: 0 <= k < |a| ==> s[k] == a[k] && a[k] in a;
  }

  /** `toBase` loses nothing: its output reads back into the parts it was built from. */
  lemma ToBaseRoundTrip(protocol: string, hostname: string, port: string)
    requires WellFormedParts(protocol, hostname, port)
    ensures ParseBase(ToBase(protocol, hostname, port)) == Some(Base(protocol, hostname, port))
  {
    var n := |protocol| - 1;
    var scheme := protocol[..n];
    var portPart := if port != "" then ":" + port else "";
    var authority := hostname + portPart;
    var s := ToBase(protocol, hostname, port);
    assert protocol == scheme + [':'];
    assert s == scheme + [':'] + ("//" + authority);
    IndexOfFirst(scheme, ':', "//" + authority);
    assert s[..n + 1] == protocol;
    assert s[n + 1..] == "//" + authority;
    assert ("//" + authority)[2..] == authority;
    if port == "" {
      assert authority == hostname;
      IndexOfAbsent(hostname, ':');
    } else {
      assert authority == hostname + [':'] + port;
      IndexOfFirst(hostname, ':', port);
      assert authority[..|hostname|] == hostname;
      assert authority[|hostname| + 1..] == port;
    }
  }

  /** `toBase` keeps the scheme, whatever the hostname and port (IPv6 literals included): the output is a web scheme exactly for http and https. */
  lemma ToBaseKeepsWebScheme(protocol: string, hostname: string, port: string)
    requires WellFormedProtocol(protocol)
    ensures IsWebScheme(ToBase(protocol, hostname, port)) <==> protocol == "http:" || protocol == "https:"
  {
    var n := |protocol| - 1;
    var scheme := protocol[..n];
    var s := ToBase(protocol, hostname, port);
    assert protocol == scheme + ":";
    assert s == scheme + ":" + s[n + 1..];
    SchemeOfPrefixed(scheme, s[n + 1..]);
    WebSchemeIffHttpScheme(s);
  }
}
