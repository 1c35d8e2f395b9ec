/** The few Python string operations the service relies on, stated on
    `seq<char>`: `str.replace`, `str.split`/`str.join`, `str.isspace`,
    `str.splitlines`, `str.endswith`, `os.path.basename` and the path part
    of `urllib.parse.urlparse`. */
module PyStr {
  import opened Wrappers

  /** Some occurrence of `p` starts somewhere in `s`. */
  predicate Occurs(s: string, p: string) {
    exists i | 0 <= i <= |s| :: p <= s[i..]
  }

  /** `s.replace(pat, rep)` for a non-empty pattern: one left-to-right scan,
      matches do not overlap and the inserted text is not scanned again. */
  function Replace(s: string, pat: string, rep: string): string
    requires pat != []
    decreases |s|
  {
    if |s| == 0 then s
    else if pat <= s then rep + Replace(s[|pat|..], pat, rep)
    else [s[0]] + Replace(s[1..], pat, rep)
  }

  /** `s.split(sep)` for a non-empty separator. */
  function Split(s: string, sep: string): (parts: seq<string>)
    requires sep != []
    ensures |parts| >= 1
    decreases |s|
  {
    if |s| == 0 then [""]
    else if sep <= s then [""] + Split(s[|sep|..], sep)
    else
      var rest := Split(s[1..], sep);
      [[s[0]] + rest[0]] + rest[1..]
  }

  /** `sep.join(parts)`. */
  function Join(parts: seq<string>, sep: string): string {
    if |parts| == 0 then ""
    else if |parts| == 1 then parts[0]
    else parts[0] + sep + Join(parts[1..], sep)
  }

  lemma JoinPrepend(c: char, parts: seq<string>, sep: string)
    requires |parts| >= 1
    ensures Join([[c] + parts[0]] + parts[1..], sep) == [c] + Join(parts, sep)
  {
    var q := [[c] + parts[0]] + parts[1..];
    assert q[1..] == parts[1..];
  }

  /** Replacing is splitting on the pattern and joining with the replacement. */
  lemma {:induction false} ReplaceIsSplitJoin(s: string, pat: string, rep: string)
    requires pat != []
    ensures Replace(s, pat, rep) == Join(Split(s, pat), rep)
    decreases |s|
  {
    if |s| == 0 {
    } else if pat <= s {
      ReplaceIsSplitJoin(s[|pat|..], pat, rep);
      var rest := Split(s[|pat|..], pat);
      assert ([""] + rest)[1..] == rest;
    } else {
      ReplaceIsSplitJoin(s[1..], pat, rep);
      JoinPrepend(s[0], Split(s[1..], pat), rep);
    }
  }

  /** Joining the pieces of a split with the same separator gives the text back. */
  lemma {:induction false} SplitJoinRoundTrip(s: string, sep: string)
    requires sep != []
    ensures Join(Split(s, sep), sep) == s
    decreases |s|
  {
    if |s| == 0 {
    } else if sep <= s {
      var tail := s[|sep|..];
      SplitJoinRoundTrip(tail, sep);
      var rest := Split(tail, sep);
      assert Split(s, sep) == [""] + rest;
      assert ([""] + rest)[1..] == rest;
      assert Join([""] + rest, sep) == "" + sep + Join(rest, sep);
      assert s[..|sep|] == sep;
      assert s == s[..|sep|] + tail;
    } else {
      SplitJoinRoundTrip(s[1..], sep);
      JoinPrepend(s[0], Split(s[1..], sep), sep);
    }
  }

  /** A text without the pattern is returned unchanged. */
  lemma {:induction false} ReplaceWithoutOccurrence(s: string, pat: string, rep: string)
    requires pat != [] && !Occurs(s, pat)
    ensures Replace(s, pat, rep) == s
    decreases |s|
  {
    if |s| > 0 {
      assert s[0..] == s;
      assert !(pat <= s);
      assert !Occurs(s[1..], pat);
      ReplaceWithoutOccurrence(s[1..], pat, rep);
    }
  }

  /** The length of the result depends only on how many matches the
      original text has: the replacement text is never matched again. */
  lemma {:induction false} ReplaceLength(s: string, pat: string, rep: string)
    requires pat != []
    ensures |Replace(s, pat, rep)| == |s| + (|Split(s, pat)| - 1) * (|rep| - |pat|)
    decreases |s|
  {
    if |s| == 0 {
    } else if pat <= s {
      ReplaceLength(s[|pat|..], pat, rep);
      var k := |Split(s[|pat|..], pat)| - 1;
      assert |Split(s, pat)| - 1 == k + 1;
      assert (k + 1) * (|rep| - |pat|) == k * (|rep| - |pat|) + (|rep| - |pat|);
    } else {
      ReplaceLength(s[1..], pat, rep);
      var rest := Split(s[1..], pat);
      assert |Split(s, pat)| == |rest|;
    }
  }

  /** `c.isspace()`: the characters Python's `str.strip()` removes. */
  predicate IsSpace(c: char) {
    ('\U{0009}' <= c <= '\U{000D}') || ('\U{001C}' <= c <= '\U{001F}') || c == ' '
    || c == '\U{0085}' || c == '\U{00A0}' || c == '\U{1680}'
    || ('\U{2000}' <= c <= '\U{200A}') || c == '\U{2028}' || c == '\U{2029}'
    || c == '\U{202F}' || c == '\U{205F}' || c == '\U{3000}'
  }

  /** `s.strip() == ''`: empty or whitespace only. */
  predicate Blank(s: string) {
    forall i | 0 <= i < |s| :: IsSpace(s[i])
  }

  /** The characters at which `str.splitlines()` breaks a line. */
  predicate IsLineBreak(c: char) {
    c == '\n' || c == '\r' || c == '\U{000B}' || c == '\U{000C}'
    || ('\U{001C}' <= c <= '\U{001E}') || c == '\U{0085}' || c == '\U{2028}' || c == '\U{2029}'
  }

  /** `len(s.splitlines()) > 1`: some line break is followed by more text
      (a final "\r\n" counts as one break). Stated by recursion; see
      `MultiLineIffInnerBreak` for the positional reading. */
  predicate MultiLine(s: string)
    decreases |s|
  {
    if |s| < 2 then false
    else (IsLineBreak(s[0]) && !(s[0] == '\r' && s[1] == '\n' && |s| == 2)) || MultiLine(s[1..])
  }

  /** A text spans several lines iff some line break other than a final
      "\r\n" sits before its last character. */
  lemma {:induction false} MultiLineIffInnerBreak(s: string)
    ensures MultiLine(s) <==> exists i | 0 <= i < |s| - 1 ::
                                IsLineBreak(s[i]) && !(s[i] == '\r' && s[i + 1] == '\n' && i + 2 == |s|)
    decreases |s|
  {
    if |s| >= 2 {
      MultiLineIffInnerBreak(s[1..]);
      var t := s[1..];
      if exists i | 0 <= i < |t| - 1 :: IsLineBreak(t[i]) && !(t[i] == '\r' && t[i + 1] == '\n' && i + 2 == |t|) {
        var i :| 0 <= i < |t| - 1 && IsLineBreak(t[i]) && !(t[i] == '\r' && t[i + 1] == '\n' && i + 2 == |t|);
        assert s[i + 1] == t[i] && s[i + 2] == t[i + 1];
      }
      if exists i | 0 <= i < |s| - 1 :: IsLineBreak(s[i]) && !(s[i] == '\r' && s[i + 1] == '\n' && i + 2 == |s|) {
        var i :| 0 <= i < |s| - 1 && IsLineBreak(s[i]) && !(s[i] == '\r' && s[i + 1] == '\n' && i + 2 == |s|);
        if i > 0 {
          assert t[i - 1] == s[i] && t[i] == s[i + 1];
        }
      }
    }
  }

  /** `s.endswith(suffix)`. */
  predicate EndsWith(s: string, suffix: string) {
    |suffix| <= |s| && s[|s| - |suffix|..] == suffix
  }

  /** `os.path.basename(p)`: the text after the last '/'. */
  function Basename(p: string): (b: string)
    ensures |b| <= |p| && b == p[|p| - |b|..]
    ensures '/' !in b
    ensures |b| < |p| ==> p[|p| - |b| - 1] == '/'
  {
    if |p| == 0 || p[|p| - 1] == '/' then ""
    else Basename(p[..|p| - 1]) + [p[|p| - 1]]
  }

  /** The text before the first character of `stops`. */
  function TakeUntil(s: string, stops: set<char>): (r: string)
    ensures r <= s
    ensures forall c | c in r :: c !in stops
    ensures |r| < |s| ==> s[|r|] in stops
  {
    if |s| == 0 || s[0] in stops then "" else [s[0]] + TakeUntil(s[1..], stops)
  }

  /** The text from the first character of `stops` on. */
  function DropUntil(s: string, stops: set<char>): (r: string)
    ensures TakeUntil(s, stops) + r == s
  {
    if |s| == 0 || s[0] in stops then s else DropUntil(s[1..], stops)
  }

  lemma AppendAssoc<T>(x: seq<T>, y: seq<T>, z: seq<T>)
    ensures x + (y + z) == (x + y) + z
  {
  }

  /** A text free of `stops` passes through whole, and the cut falls in
      what follows it. */
  lemma {:induction false} TakeUntilAppend(a: string, b: string, stops: set<char>)
    requires forall c | c in a :: c !in stops
    ensures TakeUntil(a + b, stops) == a + TakeUntil(b, stops)
    ensures DropUntil(a + b, stops) == DropUntil(b, stops)
    decreases |a|
  {
    if |a| == 0 {
      assert a + b == b;
    } else {
      var s := a + b;
      assert s[0] == a[0] && s[0] !in stops;
      assert s[1..] == a[1..] + b;
      assert a[0] in a;
      TakeUntilAppend(a[1..], b, stops);
      var t := TakeUntil(b, stops);
      var h, tl := [a[0]], a[1..];
      assert h + tl == a;
      AppendAssoc(h, tl, t);
    }
  }

  /** Whatever ends in '/' before a '/'-free name is not part of the
      name's `basename`. */
  lemma {:induction false} BasenameAfterDir(dir: string, name: string)
    requires dir == [] || dir[|dir| - 1] == '/'
    requires '/' !in name
    ensures Basename(dir + name) == name
    decreases |name|
  {
    var p := dir + name;
    if name == [] {
      assert p == dir;
    } else {
      var init := name[..|name| - 1];
      assert p[..|p| - 1] == dir + init;
      assert p[|p| - 1] == name[|name| - 1];
      BasenameAfterDir(dir, init);
      assert init + [name[|name| - 1]] == name;
    }
  }

  // ---------------------------------------------------------------------
  // urllib.parse.urlparse

  /** The C0 control characters and the space, which `urlsplit` strips
      from the front of a URL. */
  predicate IsC0OrSpace(c: char) {
    c <= ' '
  }

  /** `url.lstrip(...)` of the C0 controls and the space. */
  function LStripControls(s: string): (r: string)
    ensures |r| <= |s| && r == s[|s| - |r|..]
    ensures r == [] || !IsC0OrSpace(r[0])
    ensures forall i | 0 <= i < |s| - |r| :: IsC0OrSpace(s[i])
  {
    if |s| == 0 || !IsC0OrSpace(s[0]) then s else LStripControls(s[1..])
  }

  /** Tab, carriage return and line feed, which `urlsplit` deletes
      wherever they occur. */
  predicate IsUnsafeUrlChar(c: char) {
    c == '\t' || c == '\r' || c == '\n'
  }

  /** The text with every tab, carriage return and line feed deleted. */
  function RemoveUnsafe(s: string): (r: string)
    ensures |r| <= |s|
    ensures forall c | c in r :: !IsUnsafeUrlChar(c)
    ensures (forall c | c in s :: !IsUnsafeUrlChar(c)) ==> r == s
  {
    if |s| == 0 then s
    else (if IsUnsafeUrlChar(s[0]) then "" else [s[0]]) + RemoveUnsafe(s[1..])
  }

  /** The URL `urlsplit` goes on to split: leading controls and spaces
      stripped, then tabs and line breaks deleted. */
  function CleanUrl(url: string): string {
    RemoveUnsafe(LStripControls(url))
  }

  predicate IsAsciiLetter(c: char) {
    ('a' <= c <= 'z') || ('A' <= c <= 'Z')
  }

  predicate IsSchemeChar(c: char) {
    IsAsciiLetter(c) || ('0' <= c <= '9') || c == '+' || c == '-' || c == '.'
  }

  function AsciiLower(s: string): (r: string)
    ensures |r| == |s|
  {
    seq(|s|, i requires 0 <= i < |s| => if 'A' <= s[i] <= 'Z' then (s[i] as int + 32) as char else s[i])
  }

  /** `urlsplit`'s scheme, lower-cased, and the text after its ':'. The
      text before the first ':' is a scheme when it is non-empty, starts
      with an ASCII letter and holds only scheme characters; otherwise
      the scheme is empty and the text is kept whole. */
  function SplitScheme(url: string): (r: (string, string))
    ensures r.0 == "" ==> r.1 == url
    ensures r.0 != "" ==> |r.0| < |url| && url[|r.0|] == ':' && r.1 == url[|r.0| + 1..]
                          && ':' !in url[..|r.0|]
  {
    var head := TakeUntil(url, {':'});
    if |head| < |url| && |head| > 0 && IsAsciiLetter(head[0])
       && (forall i | 0 <= i < |head| :: IsSchemeChar(head[i]))
    then (AsciiLower(head), url[|head| + 1..])
    else ("", url)
  }

  /** The scheme of a URL, as `urlparse` reports it. */
  function UrlScheme(url: string): string {
    SplitScheme(CleanUrl(url)).0
  }

  /** After the scheme: the network location (the text after "//" up to
      the next '/', '?' or '#'), and what follows it. */
  function SplitNetloc(rest: string): (r: (string, string))
    ensures r.0 + r.1 == (if "//" <= rest then rest[2..] else rest)
    ensures '/' !in r.0 && '?' !in r.0 && '#' !in r.0
  {
    if "//" <= rest then (TakeUntil(rest[2..], {'/', '?', '#'}), DropUntil(rest[2..], {'/', '?', '#'}))
    else ("", rest)
  }

  /** The `netloc` component of `urlsplit(url)`. */
  function UrlNetloc(url: string): string {
    SplitNetloc(SplitScheme(CleanUrl(url)).1).0
  }

  /** The schemes whose paths `urlparse` splits `;params` off. */
  const UsesParams: set<string> := {"", "ftp", "hdl", "prospero", "http", "imap", "https", "shttp", "rtsp",
                                    "rtsps", "rtspu", "sip", "sips", "mms", "sftp", "tel"}

  /** What `urlsplit` raises for a network location with one square
      bracket and not the other. */
  const InvalidIPv6Text: string := "Invalid IPv6 URL"

  /** `_splitparams` on a path: its last segment (the whole path when it
      has no '/') is cut at the first ';'. */
  function DropParams(path: string): (r: string)
    ensures r <= path
    ensures Basename(r) == TakeUntil(Basename(path), {';'})
    ensures ';' !in Basename(r)
    ensures ';' !in Basename(path) ==> r == path
  {
    var seg := Basename(path);
    var dir := path[..|path| - |seg|];
    var kept := TakeUntil(seg, {';'});
    assert path == dir + seg;
    BasenameAfterDir(dir, kept);
    dir + kept
  }

  /** The last segment of a path that ends in `name` and `;params` after
      a '/' is `name` once the parameters are dropped. */
  lemma {:induction false} LastSegmentWithoutParams(dir: string, name: string, params: string)
    requires dir == [] || dir[|dir| - 1] == '/'
    requires NoneIn(name, {'/', ';'})
    requires params == [] || params[0] == ';'
    requires NoneIn(params, {'/'})
    ensures Basename(DropParams(dir + name + params)) == name
  {
    AppendAssoc(dir, name, params);
    BasenameAfterDir(dir, name + params);
    TakeUntilAppend(name, params, {';'});
    assert TakeUntil(params, {';'}) == "";
    assert name + "" == name;
  }

  /** The `path` component of `urllib.parse.urlparse(url)`, or the
      `ValueError` text `urlsplit` raises: the cleaned URL after its
      scheme and network location, up to the fragment and the query, with
      the `;params` of its last segment dropped for the schemes that have
      them. */
  function UrlPath(url: string): (r: Result<string, string>)
    ensures r.Err? <==> ('[' in UrlNetloc(url)) != (']' in UrlNetloc(url))
    ensures r.Err? ==> r.error == InvalidIPv6Text
    ensures r.Ok? ==> '?' !in r.value && '#' !in r.value
    ensures r.Ok? && UrlScheme(url) in UsesParams ==> ';' !in Basename(r.value)
  {
    var (scheme, rest) := SplitScheme(CleanUrl(url));
    var (netloc, afterNetloc) := SplitNetloc(rest);
    if ('[' in netloc) != (']' in netloc) then Err(InvalidIPv6Text)
    else
      var path := TakeUntil(afterNetloc, {'#', '?'});
      if scheme in UsesParams then
        assert '?' !in path && '#' !in path;
        Ok(DropParams(path))
      else Ok(path)
  }

  /** A text of which none is in `stops`. */
  predicate NoneIn(s: string, stops: set<char>) {
    forall c | c in s :: c !in stops
  }

  /** A URL that starts with a printable character and holds no tab or
      line break is split as it is. */
  lemma CleanUrlKeeps(url: string)
    requires url != [] && !IsC0OrSpace(url[0]) && NoneIn(url, {'\t', '\r', '\n'})
    ensures CleanUrl(url) == url
  {
    assert LStripControls(url) == url;
  }

  /** "https:" is a scheme. */
  lemma SplitHttpsScheme(after: string)
    ensures SplitScheme("https:" + after) == ("https", after)
  {
    var url := "https:" + after;
    assert url == "https" + (":" + after);
    TakeUntilAppend("https", ":" + after, {':'});
    assert (":" + after)[0] == ':';
    assert TakeUntil(url, {':'}) == "https";
    assert AsciiLower("https") == "https";
    assert url[6..] == after;
  }

  /** After "//", a host free of '/', '?' and '#' is the network location
      when a '/' follows it. */
  lemma SplitHostNetloc(host: string, rest: string)
    requires NoneIn(host, {'/', '?', '#'})
    requires rest != [] && rest[0] == '/'
    ensures SplitNetloc("//" + host + rest) == (host, rest)
  {
    var r := "//" + host + rest;
    assert r[..2] == "//";
    assert r[2..] == host + rest;
    TakeUntilAppend(host, rest, {'/', '?', '#'});
    assert TakeUntil(rest, {'/', '?', '#'}) == "" && DropUntil(rest, {'/', '?', '#'}) == rest;
    assert host + "" == host;
  }

  /** A path free of '?' and '#' is kept whole before a query or fragment. */
  lemma PathBeforeQuery(path: string, tail: string)
    requires NoneIn(path, {'?', '#'})
    requires tail == [] || tail[0] == '?' || tail[0] == '#'
    ensures TakeUntil(path + tail, {'#', '?'}) == path
  {
    TakeUntilAppend(path, tail, {'#', '?'});
  }

  /** An "https://" URL with nothing to clean and a plain host has as its
      path everything from the first '/' up to the query or fragment, with
      the parameters of the last segment dropped. */
  lemma UrlPathOfHttpsUrl(host: string, path: string, tail: string)
    requires NoneIn(host, {'/', '?', '#', '[', ']', '\t', '\r', '\n'})
    requires path != [] && path[0] == '/' && NoneIn(path, {'?', '#', '\t', '\r', '\n'})
    requires tail == [] || tail[0] == '?' || tail[0] == '#'
    requires NoneIn(tail, {'\t', '\r', '\n'})
    ensures UrlPath("https://" + host + path + tail) == Ok(DropParams(path))
  {
    var rest := path + tail;
    var url := "https://" + host + path + tail;
    assert url == "https:" + ("//" + host + rest);
    assert NoneIn(url, {'\t', '\r', '\n'});
    CleanUrlKeeps(url);
    SplitHttpsScheme("//" + host + rest);
    SplitHostNetloc(host, rest);
    PathBeforeQuery(path, tail);
  }

  function DigitChar(d: nat): char
    requires d < 10
  {
    "0123456789"[d]
  }

  /** `str(n)` for a natural number. */
  function NatToString(n: nat): string
    decreases n
  {
    if n < 10 then [DigitChar(n)] else NatToString(n / 10) + [DigitChar(n % 10)]
  }
}
