/**
 * The URL parser and printer of src/conn.c. Every connection of a download is set up from the
 * printed form of the first one (src/gb.c:77, src/gb.c:168), so parsing has to undo printing.
 */
module Url {
  import opened Pairs
  import opened Coding

  /** The URL part of `conn_t`; the protocol is always HTTP. */
  datatype Url = Url(port: int, host: string, dir: string, file: string, user: string, pass: string)

  // ---------------------------------------------------------------- searching

  function FirstFrom(s: string, c: char, k: nat): (r: nat)
    requires k <= |s|
    ensures k <= r <= |s| && (r < |s| ==> s[r] == c) && forall j | k <= j < r :: s[j] != c
    decreases |s| - k
  {
    if k == |s| || s[k] == c then k else FirstFrom(s, c, k + 1)
  }

  function LastBefore(s: string, c: char, k: nat): (r: int)
    requires k <= |s|
    ensures -1 <= r < k && (r >= 0 ==> s[r] == c) && forall j | r < j < k :: s[j] != c
  {
    if k == 0 then -1 else if s[k - 1] == c then k - 1 else LastBefore(s, c, k - 1)
  }

  /** "://" stands at position `k`. */
  predicate SchemeAt(s: string, k: int) { 0 <= k && k + 3 <= |s| && s[k] == ':' && s[k + 1] == '/' && s[k + 2] == '/' }

  function SchemeFrom(s: string, k: nat): (r: nat)
    requires k <= |s|
    ensures k <= r <= |s| && (r < |s| ==> SchemeAt(s, r)) && forall j | k <= j < r :: !SchemeAt(s, j)
    decreases |s| - k
  {
    if k + 3 > |s| then |s|
    else if SchemeAt(s, k) then k
    else SchemeFrom(s, k + 1)
  }

  /** `strchr`: the first position of `c`, or the length of `s`. */
  function First(s: string, c: char): (k: nat)
    ensures k <= |s| && (k < |s| ==> s[k] == c) && forall j | 0 <= j < k :: s[j] != c
  {
    FirstFrom(s, c, 0)
  }

  /** `strrchr`: the last position of `c`, or -1. */
  function Last(s: string, c: char): (k: int)
    ensures -1 <= k < |s| && (k >= 0 ==> s[k] == c) && forall j | k < j < |s| :: s[j] != c
  {
    LastBefore(s, c, |s|)
  }

  /** `strstr(s, "://")`: its first position, or the length of `s`. */
  function Scheme(s: string): (k: nat)
    ensures k <= |s| && (k < |s| ==> SchemeAt(s, k)) && forall j | 0 <= j < k :: !SchemeAt(s, j)
  {
    SchemeFrom(s, 0)
  }

  lemma FirstIs(s: string, c: char, k: nat)
    requires k < |s| && s[k] == c && forall j | 0 <= j < k :: s[j] != c
    ensures First(s, c) == k
  {
  }

  lemma LastIs(s: string, c: char, k: nat)
    requires k < |s| && s[k] == c && forall j | k < j < |s| :: s[j] != c
    ensures Last(s, c) == k
  {
  }

  // ---------------------------------------------------------------- numbers

  function Decimal(n: nat): string {
    if n < 10 then ['0' + n as char] else Decimal(n / 10) + ['0' + (n % 10) as char]
  }

  function Digit(c: char, base: int): Option<int> {
    match Hex(c) case None => None case Some(d) => if d < base then Some(d) else None
  }

  /** The number that the leading digits of `s` continue. */
  function Digits(s: string, base: int, acc: int): int {
    if s == "" || Digit(s[0], base).None? then acc
    else Digits(s[1..], base, acc * base + Digit(s[0], base).value)
  }

  function Unsigned(s: string): Option<int> {
    if s == "" then None
    else if |s| >= 2 && s[0] == '0' && (s[1] == 'x' || s[1] == 'X') then
      if |s| >= 3 && Digit(s[2], 16).Some? then Some(Digits(s[2..], 16, 0)) else None
    else if s[0] == '0' then Some(Digits(s, 8, 0))
    else if Digit(s[0], 10).Some? then Some(Digits(s, 10, 0)) else None
  }

  /** `sscanf(s, "%i", ...)`: sign, then a hexadecimal, octal or decimal number. */
  function ScanInt(s: string): Option<int> {
    if s == "" then None
    else if Blank(s[0]) then ScanInt(s[1..])
    else if s[0] == '+' then Unsigned(s[1..])
    else if s[0] == '-' then (match Unsigned(s[1..]) case None => None case Some(n) => Some(-n))
    else Unsigned(s)
  }

  lemma {:induction false} DecimalDigits(n: nat)
    ensures Decimal(n) != "" && forall c | c in Decimal(n) :: '0' <= c <= '9'
    ensures n > 0 ==> '1' <= Decimal(n)[0] <= '9'
  {
    if n >= 10 { DecimalDigits(n / 10); }
  }

  lemma {:induction false} DecimalScans(n: nat, r: string)
    ensures Digits(Decimal(n) + r, 10, 0) == Digits(r, 10, n)
  {
    var d := ['0' + (n % 10) as char];
    assert (d + r)[1..] == r;
    assert Digit(d[0], 10) == Some(n % 10);
    if n < 10 {
      assert Decimal(n) == d;
    } else {
      assert Decimal(n) + r == Decimal(n / 10) + (d + r);
      DecimalScans(n / 10, d + r);
    }
  }

  lemma PortScans(n: nat)
    requires n > 0
    ensures ScanInt(Decimal(n)) == Some(n)
  {
    DecimalDigits(n);
    DecimalScans(n, "");
    assert Decimal(n) + "" == Decimal(n);
  }

  // ---------------------------------------------------------------- the parser

  /** The path with its leading slash, encoded. */
  function PathOf(url: string): string {
    var q := First(url, '/');
    if q == |url| then "/" else EncodeAt("/" + url[q + 1..], 0)
  }

  /** Length of the directory: up to the last slash that is not in the query. */
  function DirLength(path: string): nat { Last(path[..First(path, '?')], '/') + 1 }

  /** The user is what stands before the last at sign. */
  function WithUser(c: Url, h: string): Url {
    var a := Last(h, '@');
    c.(user := if a >= 0 then h[..a] else "", pass := "", host := h[a + 1..])
  }

  function WithPassword(c: Url): Url {
    var b := First(c.user, ':');
    if b < |c.user| then c.(user := c.user[..b], pass := c.user[b + 1..]) else c
  }

  /** A port that cannot be read leaves the old one. */
  function WithPort(c: Url): Url {
    var d := First(c.host, ':');
    if d == |c.host| then c.(port := 80)
    else match ScanInt(c.host[d + 1..])
         case None => c.(host := c.host[..d])
         case Some(p) => c.(host := c.host[..d], port := p)
  }

  function Authority(c: Url, h: string): Url { WithPort(WithPassword(WithUser(c, h))) }

  function WithPath(c: Url, path: string): Url {
    var n := DirLength(path);
    c.(dir := path[..n], file := path[n..])
  }

  /** Everything behind the scheme. */
  function Located(c: Url, url: string): Url {
    Authority(WithPath(c, PathOf(url)), url[..First(url, '/')])
  }

  /** What stands behind the scheme, if that is missing or starts like HTTP. */
  function AfterScheme(s: string): Option<string> {
    var k := Scheme(s);
    if k == |s| then Some(s) else if s[0] == 'h' then Some(s[k + 3..]) else None
  }

  /** `conn_set` as a function of the old record. */
  function SetUrl(c: Url, s: string): (bool, Url) {
    match AfterScheme(s)
    case None => (false, c)
    case Some(url) => (Located(c, url).port > 0, Located(c, url))
  }

  /** `conn_url`. */
  function Printed(c: Url): string
    requires c.port >= 0
  {
    "http://" + (Credentials(c) + c.host + ":" + Decimal(c.port)) + (c.dir + c.file)
  }

  function Credentials(c: Url): string {
    if c.user != "" && c.user != "anonymous" then c.user + ":" + c.pass + "@" else ""
  }

  /** The protocol part (src/conn.c:14-29). */
  method StripScheme(s: string) returns (rest: Option<string>)
    ensures rest == AfterScheme(s)
  {
    var k := Scheme(s);
    if k == |s| { return Some(s); }
    if s[0] != 'h' { return None; }
    return Some(s[k + 3..]);
  }

  /** The path of a URL (src/conn.c:31-41). */
  method EncodePath(url: string) returns (path: string)
    ensures path == PathOf(url)
  {
    var i := First(url, '/');
    if i == |url| { return "/"; }
    path := HttpEncode("/" + url[i + 1..]);
  }

  /** Where the file name starts: the query is cut off for the search. */
  method FileAt(path: string) returns (n: nat)
    ensures n == DirLength(path)
  {
    var j := First(path, '?');
    var i := Last(path[..j], '/');
    n := i + 1;
  }

  /** `conn_t`, filled field by field. */
  class Conn {
    var port: int
    var host: string
    var dir: string
    var file: string
    var user: string
    var pass: string

    function View(): Url
      reads this
    {
      Url(port, host, dir, file, user, pass)
    }

    /** `conn_set`, for strings that fit its buffers. */
    method Set(setUrl: string) returns (ok: bool)
      requires |setUrl| < MAX_STRING
      modifies this
      ensures (ok, View()) == SetUrl(old(View()), setUrl)
    {
      var rest := StripScheme(setUrl);
      if rest.None? { return false; }
      SetLocation(rest.value);
      ok := port > 0;
    }

    /** What stands behind the scheme. */
    method SetLocation(url: string)
      modifies this
      ensures View() == Located(old(View()), url)
    {
      var path := EncodePath(url);
      SetPath(path);
      SetUser(url[..First(url, '/')]);
      SetPassword();
      SetPort();
    }

    /** Directory and file (src/conn.c:43-59). */
    method SetPath(path: string)
      modifies this`dir, this`file
      ensures View() == WithPath(old(View()), path)
    {
      var n := FileAt(path);
      dir, file := path[..n], path[n..];
    }

    /** User name (src/conn.c:61-77); `h` is the host field so far. */
    method SetUser(h: string)
      modifies this`user, this`pass, this`host
      ensures View() == WithUser(old(View()), h)
    {
      host, pass := h, "";
      var i := Last(host, '@');
      if i >= 0 {
        user := host[..i];
        host := host[i + 1..];
      } else {
        user := "";
        assert h[0..] == h;
      }
    }

    method SetPassword()
      modifies this`user, this`pass
      ensures View() == WithPassword(old(View()))
    {
      var i := First(user, ':');
      if i < |user| {
        pass := user[i + 1..];
        user := user[..i];
      }
    }

    method SetPort()
      modifies this`host, this`port
      ensures View() == WithPort(old(View()))
    {
      var i := First(host, ':');
      if i < |host| {
        var p := ScanInt(host[i + 1..]);
        if p.Some? { port := p.value; }
        host := host[..i];
      } else {
        port := 80;
      }
    }

    /** `conn_url`. */
    method Print() returns (s: string)
      requires port > 0 && |Printed(View())| < MAX_STRING
      ensures s == Printed(View())
    {
      s := "http://";
      if user != "" && user != "anonymous" { s := s + (user + ":" + pass + "@" + host + ":" + Decimal(port)); }
      else { s := s + (host + ":" + Decimal(port)); }
      s := s + (dir + file);
      assert Credentials(View()) == "" ==> "" + host == host;
    }
  }

  // ---------------------------------------------------------------- parsed records

  predicate Free(s: string, c: char) { forall k | 0 <= k < |s| :: s[k] != c }

  /** What every record filled by `conn_set` looks like. */
  ghost predicate Parsed(c: Url) {
    HostParsed(c) && PathParsed(c.dir + c.file, |c.dir|)
  }

  predicate HostParsed(c: Url) {
    && Free(c.host, '/') && Free(c.host, '@') && Free(c.host, ':')
    && Free(c.user, '/') && Free(c.user, ':') && Free(c.pass, '/')
  }

  predicate PathParsed(path: string, n: int) {
    path != "" && path[0] == '/' && ' ' !in path && |path| < MAX_STRING && DirLength(path) == n
  }

  lemma PathFacts(url: string)
    ensures var path := PathOf(url); PathParsed(path, DirLength(path)) && 1 <= DirLength(path) <= |path|
  {
    var q := First(url, '/');
    var path := PathOf(url);
    if q < |url| { EncodeFits("/" + url[q + 1..], 0); }
    var cut := path[..First(path, '?')];
    assert First(path, '?') > 0;
    assert cut[0] == '/';
  }

  lemma UserFacts(c: Url, h: string)
    requires Free(h, '/')
    ensures var r := WithUser(c, h); Free(r.host, '/') && Free(r.host, '@') && Free(r.user, '/') && r.pass == ""
  {
    var a := Last(h, '@');
    FreeParts(h, '/', a + 1);
    if a >= 0 { FreeParts(h, '/', a); }
    AfterLast(h, '@');
  }

  lemma AfterLast(h: string, x: char)
    ensures Free(h[Last(h, x) + 1..], x)
  {
  }

  lemma FreeParts(s: string, x: char, n: nat)
    requires Free(s, x) && n <= |s|
    ensures Free(s[..n], x) && Free(s[n..], x)
  {
  }

  lemma PasswordFacts(c: Url)
    requires Free(c.user, '/') && Free(c.pass, '/')
    ensures var r := WithPassword(c); Free(r.user, '/') && Free(r.user, ':') && Free(r.pass, '/') && r.host == c.host
  {
  }

  lemma PortFacts(c: Url)
    requires Free(c.host, '/') && Free(c.host, '@')
    ensures var r := WithPort(c);
            && Free(r.host, '/') && Free(r.host, '@') && Free(r.host, ':') && r.user == c.user && r.pass == c.pass
  {
  }

  lemma AuthorityFacts(c: Url, h: string)
    requires Free(h, '/')
    ensures var r := Authority(c, h);
            HostParsed(r) && r.dir == c.dir && r.file == c.file
  {
    UserFacts(c, h);
    PasswordFacts(WithUser(c, h));
    PortFacts(WithPassword(WithUser(c, h)));
  }

  lemma Joined(path: string, n: nat)
    requires n <= |path|
    ensures path[..n] + path[n..] == path && |path[..n]| == n
  {
  }

  lemma LocatedParses(c: Url, url: string)
    ensures Parsed(Located(c, url))
  {
    var path := PathOf(url);
    PathFacts(url);
    Joined(path, DirLength(path));
    AuthorityFacts(WithPath(c, path), url[..First(url, '/')]);
  }

  lemma SetParses(c: Url, s: string)
    requires SetUrl(c, s).0
    ensures Parsed(SetUrl(c, s).1) && SetUrl(c, s).1.port > 0
  {
    LocatedParses(c, AfterScheme(s).value);
  }

  // ---------------------------------------------------------------- parsing what was printed

  /** Whether the printed form carries the record's credentials. */
  predicate Carried(c: Url) { c.user != "anonymous" && (c.user != "" || c.pass == "") }

  lemma SchemeOfPrinted(r: string)
    ensures Scheme("http://" + r) == 4 && ("http://" + r)[7..] == r
  {
    var s := "http://" + r;
    assert s[0] == 'h' && s[1] == 't' && s[2] == 't' && s[3] == 'p' && s[4] == ':' && s[5] == '/' && s[6] == '/';
    assert SchemeFrom(s, 4) == 4;
    assert SchemeFrom(s, 2) == SchemeFrom(s, 3);
    assert SchemeFrom(s, 0) == SchemeFrom(s, 1);
  }

  lemma PathOfPrinted(h: string, path: string)
    requires Free(h, '/') && path != "" && path[0] == '/' && ' ' !in path && |path| < MAX_STRING
    ensures First(h + path, '/') == |h| && (h + path)[..|h|] == h && PathOf(h + path) == path
  {
    FirstIs(h + path, '/', |h|);
    assert "/" + (h + path)[|h| + 1..] == path;
    EncodeStable(path, 0);
  }

  lemma PortOfPrinted(c: Url, host: string, port: nat)
    requires Free(host, ':') && port > 0 && c.host == host + ":" + Decimal(port)
    ensures WithPort(c) == c.(host := host, port := port)
  {
    var n := Decimal(port);
    PortScans(port);
    FirstIs(c.host, ':', |host|);
    assert c.host[|host| + 1..] == n && c.host[..|host|] == host;
  }

  lemma PasswordOfPrinted(c: Url, user: string, pass: string)
    requires Free(user, ':') && c.user == user + ":" + pass
    ensures WithPassword(c) == c.(user := user, pass := pass)
  {
    FirstIs(c.user, ':', |user|);
    assert c.user[..|user|] == user && c.user[|user| + 1..] == pass;
  }

  lemma UserOfPrinted(c: Url, info: string, host: string)
    requires Free(host, '@')
    ensures WithUser(c, info + ("@" + host)) == c.(user := info, pass := "", host := host)
    ensures WithUser(c, host) == c.(user := "", pass := "", host := host)
  {
    var h := info + ("@" + host);
    LastIs(h, '@', |info|);
    assert h[..|info|] == info && h[|info| + 1..] == host;
    assert host[0..] == host;
  }

  /** The printed host and port contain none of the signs that the parser splits at first. */
  lemma HostFree(host: string, port: nat, x: char)
    requires Free(host, x) && (x == '@' || x == '/')
    ensures Free(host + ":" + Decimal(port), x)
  {
    var n := Decimal(port);
    var h := host + ":" + n;
    DecimalDigits(port);
    forall k | 0 <= k < |h| ensures h[k] != x {
      if k > |host| { assert h[k] == n[k - |host| - 1] && n[k - |host| - 1] in n; }
    }
  }

  lemma HostAlone(o: Url, host: string, port: nat)
    requires Free(host, '@') && Free(host, ':') && port > 0
    ensures Authority(o, host + ":" + Decimal(port)) == o.(host := host, port := port, user := "", pass := "")
  {
    var h := host + ":" + Decimal(port);
    HostFree(host, port, '@');
    UserOfPrinted(o, "", h);
    NoPassword(o.(user := "", pass := "", host := h));
    PortOfPrinted(o.(user := "", pass := "", host := h), host, port);
  }

  lemma HostWithUser(o: Url, user: string, pass: string, host: string, port: nat)
    requires Free(user, ':') && Free(host, '@') && Free(host, ':') && port > 0
    ensures Authority(o, (user + ":" + pass) + ("@" + (host + ":" + Decimal(port))))
            == o.(host := host, port := port, user := user, pass := pass)
  {
    var h, info := host + ":" + Decimal(port), user + ":" + pass;
    HostFree(host, port, '@');
    UserOfPrinted(o, info, h);
    PasswordOfPrinted(o.(user := info, pass := "", host := h), user, pass);
    PortOfPrinted(o.(user := user, pass := pass, host := h), host, port);
  }

  /** The host field of the printed form, taken apart again. */
  lemma AuthorityOfPrinted(c: Url, o: Url)
    requires Parsed(c) && c.port > 0
    ensures Authority(o, Credentials(c) + c.host + ":" + Decimal(c.port)) ==
            o.(host := c.host, port := c.port, user := if Credentials(c) == "" then "" else c.user,
               pass := if Credentials(c) == "" then "" else c.pass)
  {
    var host := c.host + ":" + Decimal(c.port);
    if Credentials(c) == "" {
      HostAlone(o, c.host, c.port);
      CredentialsNone(c, host);
    } else {
      HostWithUser(o, c.user, c.pass, c.host, c.port);
      CredentialsFirst(c, host);
    }
  }

  lemma NoPassword(c: Url)
    requires c.user == ""
    ensures WithPassword(c) == c
  {
  }

  lemma CredentialsNone(c: Url, host: string)
    requires c.port >= 0 && Credentials(c) == "" && host == c.host + ":" + Decimal(c.port)
    ensures Credentials(c) + c.host + ":" + Decimal(c.port) == host
  {
  }

  lemma CredentialsFirst(c: Url, host: string)
    requires c.port >= 0 && Credentials(c) != "" && host == c.host + ":" + Decimal(c.port)
    ensures Credentials(c) + c.host + ":" + Decimal(c.port) == (c.user + ":" + c.pass) + ("@" + host)
  {
  }

  lemma LocatedOfPrinted(c: Url, o: Url)
    requires Parsed(c) && c.port > 0
    ensures var r := Located(o, (Credentials(c) + c.host + ":" + Decimal(c.port)) + (c.dir + c.file));
            && r.host == c.host && r.port == c.port && r.dir == c.dir && r.file == c.file
            && (if Credentials(c) == "" then r.user == "" && r.pass == "" else r.user == c.user && r.pass == c.pass)
  {
    var h, path := Credentials(c) + c.host + ":" + Decimal(c.port), c.dir + c.file;
    NoSlash(c);
    PathOfPrinted(h, path);
    assert path[..|c.dir|] == c.dir && path[|c.dir|..] == c.file;
    AuthorityOfPrinted(c, WithPath(o, path));
  }

  lemma NoSlash(c: Url)
    requires Parsed(c) && c.port > 0
    ensures Free(Credentials(c) + c.host + ":" + Decimal(c.port), '/')
  {
    HostFree(c.host, c.port, '/');
    assert Free(Credentials(c), '/');
    assert Credentials(c) + c.host + ":" + Decimal(c.port) == Credentials(c) + (c.host + ":" + Decimal(c.port));
  }

  const INT_MAX := 0x7fff_ffff

  /** For every record that `conn_set` can produce, as far as the URL, its printed form and the
      port fit, and whatever record the new connection had before: setting the printed URL
      restores it if and only if the credentials are printed. */
  lemma ParseUndoesPrint(was: Url, s: string, o: Url)
    requires |s| < MAX_STRING && SetUrl(was, s).0 && SetUrl(was, s).1.port <= INT_MAX
    requires |Printed(SetUrl(was, s).1)| < MAX_STRING
    ensures var c := SetUrl(was, s).1; c.port > 0 && (SetUrl(o, Printed(c)) == (true, c) <==> Carried(c))
  {
    SetParses(was, s);
    SetOfPrinted(SetUrl(was, s).1, o);
  }

  lemma SetOfPrinted(c: Url, o: Url)
    requires Parsed(c) && c.port > 0
    ensures SetUrl(o, Printed(c)) == (true, c) <==> Carried(c)
  {
    var r := PrintedRest(c);
    LocatedOfPrinted(c, o);
    SameIffCarried(c, Located(o, r));
  }

  lemma PrintedRest(c: Url) returns (r: string)
    requires c.port > 0
    ensures r == (Credentials(c) + c.host + ":" + Decimal(c.port)) + (c.dir + c.file)
    ensures AfterScheme(Printed(c)) == Some(r)
  {
    r := (Credentials(c) + c.host + ":" + Decimal(c.port)) + (c.dir + c.file);
    assert Printed(c) == "http://" + r;
    SchemeOfPrinted(r);
  }

  lemma SameIffCarried(c: Url, r: Url)
    requires r.host == c.host && r.port == c.port && r.dir == c.dir && r.file == c.file && c.port >= 0
    requires if Credentials(c) == "" then r.user == "" && r.pass == "" else r.user == c.user && r.pass == c.pass
    ensures r == c <==> Carried(c)
  {
  }

  // ---------------------------------------------------------------- records that are not restored

  lemma {:induction false} NoScheme(s: string, k: nat)
    requires k <= |s| && forall j | 0 <= j < |s| - 1 :: s[j] != '/'
    ensures SchemeFrom(s, k) == |s|
    decreases |s| - k
  {
    if k + 3 <= |s| { NoScheme(s, k + 1); }
  }

  lemma SlashPath(h: string)
    requires Free(h, '/')
    ensures First(h + "/", '/') == |h| && PathOf(h + "/") == "/" && DirLength("/") == 1
  {
    var s := h + "/";
    FirstIs(s, '/', |h|);
    assert s[|h| + 1..] == "" && "/" + "" == "/";
    EncodeStable("/", 0);
    assert First("/", '?') == 1 && "/"[..1] == "/";
    LastIs("/", '/', 0);
  }

  /** What `conn_set` makes of a URL that is just a host field and a slash. */
  lemma HostOnly(was: Url, h: string)
    requires Free(h, '/')
    ensures AfterScheme(h + "/") == Some(h + "/")
    ensures Located(was, h + "/") == Authority(was.(dir := "/", file := ""), h)
  {
    NoScheme(h + "/", 0);
    SlashPath(h);
    assert (h + "/")[..|h|] == h;
    assert "/"[..1] == "/" && "/"[1..] == "";
  }

  lemma NoPort(c: Url)
    requires Free(c.host, ':')
    ensures WithPort(WithPassword(c)) == WithPassword(c.(port := 80))
  {
  }

  lemma AuthorityAtHost(w: Url, info: string, host: string)
    requires Free(host, '@') && Free(host, ':')
    ensures Authority(w, info + ("@" + host)) == WithPassword(w.(port := 80, user := info, pass := "", host := host))
  {
    UserOfPrinted(w, info, host);
    NoPort(w.(user := info, pass := "", host := host));
  }

  lemma PortKept(c: Url)
    ensures WithPassword(c).port == c.port
    ensures Free(c.user, ':') ==> WithPassword(c) == c
  {
  }

  lemma HostField(was: Url, h: string)
    requires Free(h, '/')
    ensures SetUrl(was, h + "/") == (Authority(was.(dir := "/", file := ""), h).port > 0,
                                     Authority(was.(dir := "/", file := ""), h))
  {
    HostOnly(was, h);
    SetLocated(was, h + "/");
  }

  /** The record of a URL with a user field `info` and a host without port. */
  lemma UserAtHost(was: Url, info: string, host: string, s: string) returns (c: Url)
    requires Free(info, '/') && Free(host, '/') && Free(host, '@') && Free(host, ':') && s == info + ("@" + host) + "/"
    ensures c == was.(dir := "/", file := "", port := 80, user := info, pass := "", host := host)
    ensures SetUrl(was, s) == (true, WithPassword(c))
  {
    c := was.(dir := "/", file := "", port := 80, user := info, pass := "", host := host);
    var h := info + ("@" + host);
    FreeJoin(info, host);
    HostField(was, h);
    AuthorityAtHost(was.(dir := "/", file := ""), info, host);
    PortKept(c);
  }

  lemma FreeJoin(info: string, host: string)
    requires Free(info, '/') && Free(host, '/')
    ensures Free(info + ("@" + host), '/')
  {
  }

  lemma SetLocated(was: Url, s: string)
    requires AfterScheme(s) == Some(s)
    ensures SetUrl(was, s) == (Located(was, s).port > 0, Located(was, s))
  {
  }

  lemma PrintedFits(c: Url)
    requires c.port == 80 && |c.host| + |c.user| + |c.pass| + |c.dir| + |c.file| < 1000
    ensures |Printed(c)| < MAX_STRING
  {
    assert |Decimal(80)| == 2 by { assert Decimal(80) == Decimal(8) + ['0']; }
  }

  lemma NotCarried(was: Url, s: string, o: Url, c: Url)
    requires |s| < MAX_STRING && SetUrl(was, s) == (true, c) && c.port == 80 && !Carried(c)
    requires |c.host| + |c.user| + |c.pass| + |c.dir| + |c.file| < 1000
    ensures SetUrl(o, Printed(c)) != (true, c)
  {
    PrintedFits(c);
    ParseUndoesPrint(was, s, o);
  }

  /** The user "anonymous" is not printed, so the printed URL gives a record without user. */
  lemma AnonymousIsLost(was: Url, o: Url)
    ensures var c := Url(80, "h", "/", "", "anonymous", "");
            SetUrl(was, "anonymous@h/") == (true, c) && SetUrl(o, Printed(c)) != (true, c)
  {
    var user := "anonymous";
    AnonymousUrl(user);
    var c := UserAtHost(was, user, "h", "anonymous@h/");
    PortKept(c);
    NotCarried(was, "anonymous@h/", o, c);
  }

  lemma AnonymousUrl(user: string)
    requires user == "anonymous"
    ensures user + ("@" + "h") + "/" == "anonymous@h/" && Free(user, '/') && Free(user, ':') && |user| == 9
  {
  }

  /** Nor is a password without user. */
  lemma LonePasswordIsLost(was: Url, o: Url)
    ensures var c := Url(80, "h", "/", "", "", "pw");
            SetUrl(was, ":pw@h/") == (true, c) && SetUrl(o, Printed(c)) != (true, c)
  {
    var c := Url(80, "h", "/", "", "", "pw");
    assert ":pw" + ("@" + "h") + "/" == ":pw@h/" && "" + ":" + "pw" == ":pw";
    var r := UserAtHost(was, ":pw", "h", ":pw@h/");
    PasswordOfPrinted(Url(80, "h", "/", "", ":pw", ""), "", "pw");
    NotCarried(was, ":pw@h/", o, c);
  }
}
