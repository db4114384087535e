/**
 * What the parser of src/conn.c takes a URL for: a reference description of its parts, without the
 * searches that the parser makes.
 */
module UrlParts {
  import opened Pairs
  import opened Coding
  import opened Url

  /** The directory ends with the last slash before the query; the rest is the file. */
  ghost predicate PathSplit(path: string, dir: string, file: string) {
    && path == dir + file && dir != "" && dir[|dir| - 1] == '/' && Free(dir, '?')
    && forall k | 0 <= k < |file| && file[k] == '/' :: exists j | 0 <= j < k :: file[j] == '?'
  }

  /** What stands before the host: nothing, a user, or a user and a password. The last at sign ends
      it, the first colon ends the user. */
  ghost predicate LoginSplit(h: string, user: string, pass: string, hp: string) {
    if Free(h, '@') then hp == h && user == "" && pass == ""
    else
      && Free(hp, '@') && |hp| < |h|
      && var info := h[..|h| - |hp| - 1];
         && h == info + "@" + hp
         && if Free(info, ':') then user == info && pass == "" else info == user + ":" + pass && Free(user, ':')
  }

  /** The host ends at the first colon. The port is what is read behind it, or 80 without a colon; one
      that cannot be read is the one from before. */
  ghost predicate PortSplit(hp: string, host: string, port: int, was: int) {
    if Free(hp, ':') then host == hp && port == 80
    else
      && Free(host, ':') && |host| < |hp|
      && var num := hp[|host| + 1..];
         hp == host + ":" + num && port == match ScanInt(num) case None => was case Some(p) => p
  }

  // ---------------------------------------------------------------- directory and file

  /** A slash in the file comes after a question mark. */
  lemma SlashLate(path: string, dir: string, file: string, x: int) returns (y: int)
    requires PathSplit(path, dir, file) && |dir| <= x < |path| && path[x] == '/'
    ensures |dir| <= y < x && path[y] == '?'
  {
    var k := x - |dir|;
    assert file[k] == '/';
    var j :| 0 <= j < k && file[j] == '?';
    y := |dir| + j;
  }

  lemma NoLonger(path: string, d: string, f: string, dir: string, file: string)
    requires PathSplit(path, d, f) && PathSplit(path, dir, file)
    ensures |dir| <= |d|
  {
    if |d| < |dir| {
      assert forall m | 0 <= m < |dir| :: path[m] == dir[m];
      var y := SlashLate(path, d, f, |dir| - 1);
    }
  }

  /** A path has only one such split. */
  lemma SplitUnique(path: string, d: string, f: string, dir: string, file: string)
    requires PathSplit(path, d, f) && PathSplit(path, dir, file)
    ensures d == dir && f == file
  {
    NoLonger(path, d, f, dir, file);
    NoLonger(path, dir, file, d, f);
    assert d == path[..|d|] && dir == path[..|dir|] && f == path[|d|..] && file == path[|dir|..];
  }

  lemma PathSplits(path: string)
    requires path != "" && path[0] == '/'
    ensures DirLength(path) <= |path| && PathSplit(path, path[..DirLength(path)], path[DirLength(path)..])
  {
    var q, n := First(path, '?'), DirLength(path);
    var cut, file := path[..q], path[n..];
    assert q > 0 && cut[0] == '/';
    assert cut[n - 1] == '/';
    assert path == path[..n] + file;
    forall m | n <= m < q ensures path[m] != '/' { assert path[m] == cut[m]; }
    forall k | 0 <= k < |file| && file[k] == '/' ensures exists j | 0 <= j < k :: file[j] == '?' {
      assert path[n + k] == '/' && file[q - n] == path[q];
    }
  }

  // ---------------------------------------------------------------- login, host and port

  lemma LoginSplits(c: Url, h: string)
    ensures var r := WithPassword(WithUser(c, h));
            LoginSplit(h, r.user, r.pass, r.host)
  {
    var a := Last(h, '@');
    var u := WithUser(c, h);
    AfterLast(h, '@');
    if a < 0 {
      assert h[0..] == h;
    } else {
      assert h[a] == '@';
      var info, hp := h[..a], h[a + 1..];
      assert h == info + "@" + hp;
      PasswordSplits(u, info);
    }
  }

  lemma PasswordSplits(u: Url, info: string)
    requires u.user == info && u.pass == ""
    ensures var r := WithPassword(u);
            && r.host == u.host
            && if Free(info, ':') then r.user == info && r.pass == ""
               else info == r.user + ":" + r.pass && Free(r.user, ':')
  {
    var b := First(info, ':');
    if b < |info| { assert info == info[..b] + ":" + info[b + 1..] && info[b] == ':'; }
  }

  lemma PortSplits(c: Url)
    ensures var r := WithPort(c);
            PortSplit(c.host, r.host, r.port, c.port) && r.user == c.user && r.pass == c.pass
  {
    var d := First(c.host, ':');
    if d < |c.host| { assert c.host == c.host[..d] + ":" + c.host[d + 1..] && c.host[d] == ':'; }
  }

  // ---------------------------------------------------------------- the whole URL

  /** The scheme's first "://" stands at `k`, which is the end of the string if there is none. */
  ghost predicate SchemeEnds(s: string, k: nat) {
    k <= |s| && (forall j | 0 <= j < k :: !SchemeAt(s, j)) && (k < |s| ==> SchemeAt(s, k))
  }

  /** What stands behind it. */
  function Behind(s: string, k: nat): string { if k + 3 <= |s| then s[k + 3..] else s }

  /** The parts of a URL. */
  datatype Parts = Parts(rest: string, h: string, tail: string, hp: string)

  /** What the record holds: host field `h` and path `tail` are what stands behind the scheme, before
      and from the first slash on; directory and file are the encoded path, or a single slash; user,
      password, host and port come from `h`. */
  ghost predicate Means(was: Url, p: Parts, c: Url) {
    && p.rest == p.h + p.tail && Free(p.h, '/') && (p.tail != "" ==> p.tail[0] == '/')
    && PathSplit(if p.tail == "" then "/" else EncodeAt(p.tail, 0), c.dir, c.file)
    && LoginSplit(p.h, c.user, c.pass, p.hp) && PortSplit(p.hp, c.host, c.port, was.port)
  }

  lemma HeadSplits(url: string) returns (h: string, tail: string)
    ensures url == h + tail && Free(h, '/') && (tail != "" ==> tail[0] == '/') && h == url[..First(url, '/')]
    ensures PathOf(url) == if tail == "" then "/" else EncodeAt(tail, 0)
  {
    var q := First(url, '/');
    h, tail := url[..q], url[q..];
    if q < |url| { assert "/" + url[q + 1..] == tail; }
  }

  lemma LocatedMeans(was: Url, url: string) returns (p: Parts)
    ensures p.rest == url && Means(was, p, Located(was, url))
  {
    var h, tail := HeadSplits(url);
    PathFacts(url);
    PathSplits(PathOf(url));
    var w := WithPath(was, PathOf(url));
    LoginSplits(w, h);
    var u := WithPassword(WithUser(w, h));
    PortSplits(u);
    UserKeeps(w, h);
    PasswordKeeps(WithUser(w, h));
    PortKeeps(u);
    p := Parts(url, h, tail, u.host);
  }

  lemma UserKeeps(p: Url, h: string)
    ensures var u := WithUser(p, h); u.port == p.port && u.dir == p.dir && u.file == p.file
  {
  }

  lemma PasswordKeeps(u: Url)
    ensures var r := WithPassword(u); r.port == u.port && r.dir == u.dir && r.file == u.file
  {
  }

  lemma PortKeeps(u: Url)
    ensures WithPort(u).dir == u.dir && WithPort(u).file == u.file
  {
  }

  /** A URL whose scheme starts at `k` is refused if it does not start like HTTP, and the record stays
      as it was. Every other one is taken apart, and accepted if and only if the port is positive. */
  lemma SetMeans(was: Url, s: string) returns (k: nat, p: Parts)
    ensures SchemeEnds(s, k)
    ensures k < |s| && s[0] != 'h' ==> SetUrl(was, s) == (false, was)
    ensures k == |s| || s[0] == 'h' ==> p.rest == Behind(s, k) && Means(was, p, SetUrl(was, s).1)
    ensures k == |s| || s[0] == 'h' ==> (SetUrl(was, s).0 <==> SetUrl(was, s).1.port > 0)
  {
    k := Scheme(s);
    p := LocatedMeans(was, Behind(s, k));
  }

  /** The example in the source (src/conn.c:112). */
  lemma ExampleSplit(dir: string, file: string)
    requires PathSplit("/ducbh/files/TurkishAirlines.mp4", dir, file)
    ensures dir == "/ducbh/files/" && file == "TurkishAirlines.mp4"
  {
    var path, d, f := "/ducbh/files/TurkishAirlines.mp4", "/ducbh/files/", "TurkishAirlines.mp4";
    assert path == d + f;
    SplitUnique(path, d, f, dir, file);
  }

  // ---------------------------------------------------------------- port numbers

  /** The number that digits stand for, the last one counting least. */
  ghost function NumberOf(ds: seq<nat>, base: nat): nat {
    if ds == [] then 0 else NumberOf(ds[..|ds| - 1], base) * base + ds[|ds| - 1]
  }

  /** `t` is written with the digits `ds`. */
  ghost predicate WrittenWith(t: string, ds: seq<nat>, base: nat) {
    |t| == |ds| && forall k | 0 <= k < |ds| :: ds[k] < base <= 16 && IsDigit(t[k], ds[k])
  }

  /** The text does not go on with a digit. */
  predicate Stops(r: string, base: int) { r == "" || Digit(r[0], base) == None }

  lemma {:induction false} DigitsRead(t: string, ds: seq<nat>, base: nat, k: nat, r: string)
    requires WrittenWith(t, ds, base) && k <= |t| && Stops(r, base)
    ensures Digits(t[k..] + r, base, NumberOf(ds[..k], base)) == NumberOf(ds, base)
    decreases |t| - k
  {
    if k == |t| {
      assert t[k..] + r == r && ds[..k] == ds;
    } else {
      HexIsDigit(t[k], ds[k]);
      var text := t[k..] + r;
      assert text[0] == t[k] && text[1..] == t[k + 1..] + r;
      assert ds[..k + 1][..k] == ds[..k];
      DigitsRead(t, ds, base, k + 1, r);
    }
  }

  lemma AllDigitsRead(t: string, ds: seq<nat>, base: nat, r: string)
    requires WrittenWith(t, ds, base) && Stops(r, base)
    ensures Digits(t + r, base, 0) == NumberOf(ds, base)
  {
    assert t[0..] + r == t + r && ds[..0] == [];
    DigitsRead(t, ds, base, 0, r);
  }

  /** A hexadecimal number starts with "0x" or "0X", an octal one with a zero, a decimal one with
      another digit. */
  predicate Prefixed(prefix: string, ds: seq<nat>, base: int) {
    || (base == 16 && (prefix == "0x" || prefix == "0X") && ds != [])
    || (base == 8 && prefix == "0" && ds != [])
    || (base == 10 && prefix == "" && ds != [] && ds[0] != 0)
  }

  lemma HexadecimalReads(s: string, prefix: string, u: string)
    requires (prefix == "0x" || prefix == "0X") && u != "" && Digit(u[0], 16).Some? && s == prefix + u
    ensures Unsigned(s) == Some(Digits(u, 16, 0))
  {
    assert s[2..] == u && s[2] == u[0];
  }

  lemma OctalReads(s: string, u: string)
    requires u != "" && Digit(u[0], 8).Some? && s == "0" + u
    ensures Unsigned(s) == Some(Digits(u, 8, 0))
  {
    assert s[0] == '0' && s[1] == u[0] && s[1..] == u;
  }

  lemma DecimalReads(s: string)
    requires s != "" && Digit(s[0], 10).Some? && s[0] != '0'
    ensures Unsigned(s) == Some(Digits(s, 10, 0))
  {
  }

  lemma PrefixReads(prefix: string, t: string, ds: seq<nat>, base: nat, r: string)
    requires WrittenWith(t, ds, base) && Prefixed(prefix, ds, base) && Stops(r, base)
    ensures Unsigned(prefix + t + r) == Some(NumberOf(ds, base))
    ensures var s := prefix + t + r; s != "" && !Blank(s[0]) && s[0] != '+' && s[0] != '-'
  {
    var s, u := prefix + t + r, t + r;
    AllDigitsRead(t, ds, base, r);
    HexIsDigit(t[0], ds[0]);
    assert u[0] == t[0] && Digit(u[0], base) == Some(ds[0]);
    assert s == prefix + u;
    if base == 16 {
      HexadecimalReads(s, prefix, u);
    } else if base == 8 {
      OctalReads(s, u);
    } else {
      assert s == u;
      DecimalReads(s);
    }
  }

  /** A port is read as written: behind white space and a sign, in base 16, 8 or 10 after its prefix,
      up to the first character that is no digit. */
  lemma {:induction false} PortReads(blanks: string, sign: string, prefix: string, t: string, ds: seq<nat>, base: nat,
                                     r: string)
    requires (forall c | c in blanks :: Blank(c)) && (sign == "" || sign == "+" || sign == "-")
    requires WrittenWith(t, ds, base) && Prefixed(prefix, ds, base) && Stops(r, base)
    ensures var n: int := NumberOf(ds, base);
            ScanInt(blanks + (sign + (prefix + t + r))) == Some(if sign == "-" then -n else n)
  {
    var n := prefix + t + r;
    PrefixReads(prefix, t, ds, base, r);
    SignReads(sign, n, NumberOf(ds, base));
    if blanks != "" {
      assert blanks[0] in blanks && forall c | c in blanks[1..] :: c in blanks;
      PortReads(blanks[1..], sign, prefix, t, ds, base, r);
      assert (blanks + (sign + n))[1..] == blanks[1..] + (sign + n);
    } else {
      assert blanks + (sign + n) == sign + n;
    }
  }

  lemma SignReads(sign: string, n: string, v: int)
    requires sign == "" || sign == "+" || sign == "-"
    requires Unsigned(n) == Some(v) && n != "" && !Blank(n[0]) && n[0] != '+' && n[0] != '-'
    ensures ScanInt(sign + n) == Some(if sign == "-" then -v else v)
  {
    if sign == "" { assert sign + n == n; } else { assert (sign + n)[1..] == n; }
  }
}
