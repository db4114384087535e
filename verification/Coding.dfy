/**
 * The hand-written codings of src/http.c: the Base64 loop of `http_connect` (RFC 4648, section 4)
 * and the blank escapes of `http_encode` and `http_decode`.
 */
module Coding {
  import opened Pairs

  const MAX_STRING := 1024

  // ---------------------------------------------------------------- Base64

  /** One character of a 7-bit string; zero is the terminator. */
  type Ascii = b: int | 1 <= b <= 127 witness 1

  /** The 64 symbols of `base64_encode`. */
  function Symbol(v: int): char
    requires 0 <= v < 64
  {
    if v < 26 then 'A' + v as char
    else if v < 52 then 'a' + (v - 26) as char
    else if v < 62 then '0' + (v - 52) as char
    else if v == 62 then '+' else '/'
  }

  function Value(c: char): Option<int> {
    if 'A' <= c <= 'Z' then Some((c - 'A') as int)
    else if 'a' <= c <= 'z' then Some((c - 'a') as int + 26)
    else if '0' <= c <= '9' then Some((c - '0') as int + 52)
    else if c == '+' then Some(62)
    else if c == '/' then Some(63)
    else None
  }

  /** The byte at `k` of the zero-filled buffer that holds `text`. */
  function At(text: seq<Ascii>, k: int): int { if 0 <= k < |text| then text[k] else 0 }

  /** The four symbols of the group at `k`. */
  function Group(text: seq<Ascii>, k: int): string {
    var a, b, c := At(text, k), At(text, k + 1), At(text, k + 2);
    [Symbol(a / 4), Symbol(a % 4 * 16 + b / 16),
     if b == 0 then '=' else Symbol(b % 16 * 4 + c / 64),
     if c == 0 then '=' else Symbol(c % 64)]
  }

  function Base64From(text: seq<Ascii>, k: nat): string
    decreases |text| - k
  {
    if k >= |text| then "" else Group(text, k) + Base64From(text, k + 3)
  }

  /** One round of the loop in `http_connect`. */
  method WriteGroup(text: seq<Ascii>, auth: array<char>, i: nat, ghost front: string, ghost was: string)
    requires i * 4 + 4 <= auth.Length == |was| && |front| == i * 4 && auth[..] == front + was[i * 4..]
    modifies auth
    ensures auth[..] == (front + Group(text, i * 3)) + was[i * 4 + 4..]
  {
    var a, b, c := At(text, i * 3), At(text, i * 3 + 1), At(text, i * 3 + 2);
    auth[i * 4] := Symbol(a / 4);
    auth[i * 4 + 1] := Symbol(a % 4 * 16 + b / 16);
    auth[i * 4 + 2] := Symbol(b % 16 * 4 + c / 64);
    auth[i * 4 + 3] := Symbol(c % 64);
    if c == 0 { auth[i * 4 + 3] := '='; }
    if b == 0 { auth[i * 4 + 2] := '='; }
  }

  /** Between rounds: the first `i` groups are written and the rest of the buffer is unchanged. */
  ghost predicate Written(text: seq<Ascii>, auth: string, i: int, front: string, rest: string, goal: string,
                          was: string) {
    && 0 <= i && |front| == i * 4 <= |was| && front + rest == goal && rest == Base64From(text, i * 3)
    && auth == front + was[i * 4..]
  }

  lemma NextGroup(text: seq<Ascii>, i: nat, front: string, rest: string, goal: string)
    returns (g: string, later: string)
    requires i * 3 < |text| && front + rest == goal && rest == Base64From(text, i * 3)
    ensures g == Group(text, i * 3) && later == Base64From(text, i * 3 + 3)
    ensures (front + g) + later == goal && |front + g| == |front| + 4 <= |goal|
  {
    g, later := Group(text, i * 3), Base64From(text, i * 3 + 3);
    assert (front + g) + later == front + (g + later);
  }

  /** One round keeps what holds between rounds. */
  method NextRound(text: seq<Ascii>, auth: array<char>, i: nat, ghost front: string, ghost rest: string,
                   ghost goal: string, ghost was: string) returns (ghost front': string, ghost rest': string)
    requires i * 3 < |text| && |goal| <= |was| == auth.Length && Written(text, auth[..], i, front, rest, goal, was)
    modifies auth
    ensures Written(text, auth[..], i + 1, front', rest', goal, was)
  {
    ghost var g, later := NextGroup(text, i, front, rest, goal);
    WriteGroup(text, auth, i, front, was);
    front', rest' := front + g, later;
  }

  /** The loop of `http_connect`, writing into the request's `auth` buffer. */
  method Authorize(text: seq<Ascii>, auth: array<char>)
    requires auth.Length == MAX_STRING && |Base64From(text, 0)| < MAX_STRING
    modifies auth
    ensures auth[..] == Base64From(text, 0) + old(auth[|Base64From(text, 0)|..])
  {
    var i := 0;
    ghost var goal, was, front, rest := Base64From(text, 0), auth[..], "", Base64From(text, 0);
    while At(text, i * 3) != 0
      invariant Written(text, auth[..], i, front, rest, goal, was)
      decreases |text| - i * 3
    {
      front, rest := NextRound(text, auth, i, front, rest, goal, was);
      i := i + 1;
    }
    assert front + "" == front;
  }

  /** Decoding by the standard: every group of four symbols, padded by one or two signs at the end. */
  function Decode64(t: string): Option<seq<int>>
    decreases |t|
  {
    if t == "" then Some([])
    else if |t| < 4 then None
    else
      var a, b, c, d := Value(t[0]), Value(t[1]), Value(t[2]), Value(t[3]);
      if a.None? || b.None? then None
      else
        var x := a.value * 4 + b.value / 16;
        if t[2] == '=' then (if t[3] == '=' && |t| == 4 then Some([x]) else None)
        else if c.None? then None
        else
          var y := b.value % 16 * 16 + c.value / 4;
          if t[3] == '=' then (if |t| == 4 then Some([x, y]) else None)
          else if d.None? then None
          else
            match Decode64(t[4..])
            case None => None
            case Some(rest) => Some([x, y, c.value % 4 * 64 + d.value] + rest)
  }

  lemma SymbolValue(v: int)
    requires 0 <= v < 64
    ensures Value(Symbol(v)) == Some(v) && Symbol(v) != '='
  {
  }

  lemma Digits16(q: int, r: int)
    requires 0 <= q && 0 <= r < 16
    ensures (q * 16 + r) / 16 == q && (q * 16 + r) % 16 == r
  {
  }

  lemma Digits4(q: int, r: int)
    requires 0 <= q && 0 <= r < 4
    ensures (q * 4 + r) / 4 == q && (q * 4 + r) % 4 == r
  {
  }

  /** The bits that the group's symbols carry. */
  lemma GroupValues(a: int, b: int, c: int)
    requires 0 <= a < 128 && 0 <= b < 128 && 0 <= c < 128
    ensures var v, w := a % 4 * 16 + b / 16, b % 16 * 4 + c / 64;
            && 0 <= a / 4 < 64 && 0 <= v < 64 && 0 <= w < 64 && 0 <= c % 64 < 64
            && a / 4 * 4 + v / 16 == a && v % 16 * 16 + w / 4 == b && w % 4 * 64 + c % 64 == c
  {
    Digits16(a % 4, b / 16);
    Digits4(b % 16, c / 64);
  }

  /** The up to three bytes of the group at `k`. */
  function Three(text: seq<Ascii>, k: nat): seq<int>
    requires k < |text|
  {
    if k + 1 == |text| then [text[k]]
    else if k + 2 == |text| then [text[k], text[k + 1]]
    else [text[k], text[k + 1], text[k + 2]]
  }

  /** What `Decode64` gives for one group of symbols with values v, w, x, y. */
  lemma DecodeGroup(g: string, rest: string, v: int, w: int, x: int, y: int, n: int)
    requires |g| == 4 && 1 <= n <= 3 && Value(g[0]) == Some(v) && Value(g[1]) == Some(w)
    requires if n == 1 then g[2] == '=' else g[2] != '=' && Value(g[2]) == Some(x)
    requires if n < 3 then g[3] == '=' && rest == "" else g[3] != '=' && Value(g[3]) == Some(y)
    ensures var p, q, r := v * 4 + w / 16, w % 16 * 16 + x / 4, x % 4 * 64 + y;
            Decode64(g + rest) ==
            if n == 1 then Some([p]) else if n == 2 then Some([p, q])
            else match Decode64(rest) case None => None case Some(more) => Some([p, q, r] + more)
  {
    assert (g + rest)[4..] == rest;
  }

  lemma GroupSymbols(text: seq<Ascii>, k: nat, v: int, w: int, x: int, y: int)
    requires k < |text| && 0 <= v < 64 && 0 <= w < 64 && 0 <= x < 64 && 0 <= y < 64
    requires v == At(text, k) / 4 && w == At(text, k) % 4 * 16 + At(text, k + 1) / 16
    requires x == At(text, k + 1) % 16 * 4 + At(text, k + 2) / 64 && y == At(text, k + 2) % 64
    ensures var g := Group(text, k);
            && Value(g[0]) == Some(v) && Value(g[1]) == Some(w)
            && (if k + 1 == |text| then g[2] == '=' else g[2] != '=' && Value(g[2]) == Some(x))
            && (if k + 2 >= |text| then g[3] == '=' else g[3] != '=' && Value(g[3]) == Some(y))
  {
    SymbolValue(v);
    SymbolValue(w);
    SymbolValue(x);
    SymbolValue(y);
  }

  lemma GroupDecodes(text: seq<Ascii>, k: nat, rest: string)
    requires k < |text| && (|text| < k + 3 ==> rest == "")
    ensures Decode64(Group(text, k) + rest) ==
            if |text| < k + 3 then Some(Three(text, k))
            else match Decode64(rest) case None => None case Some(more) => Some(Three(text, k) + more)
  {
    var a, b, c := At(text, k), At(text, k + 1), At(text, k + 2);
    GroupValues(a, b, c);
    var v, w, x, y := a / 4, a % 4 * 16 + b / 16, b % 16 * 4 + c / 64, c % 64;
    GroupSymbols(text, k, v, w, x, y);
    DecodeGroup(Group(text, k), rest, v, w, x, y, if k + 3 <= |text| then 3 else |text| - k);
  }

  function Ints(text: seq<Ascii>): seq<int> { text }

  lemma SuffixOf(text: seq<Ascii>, k: nat)
    requires k < |text|
    ensures Ints(text)[k..] == if k + 3 <= |text| then Three(text, k) + Ints(text)[k + 3..] else Three(text, k)
  {
  }

  /** Decoding restores every 7-bit string, whatever padding its length needs. */
  lemma {:induction false} Base64RoundTrip(text: seq<Ascii>, k: nat)
    requires k <= |text|
    ensures Decode64(Base64From(text, k)) == Some(Ints(text)[k..])
    decreases |text| - k
  {
    if k == |text| {
      assert Ints(text)[k..] == [];
    } else {
      GroupDecodes(text, k, Base64From(text, k + 3));
      SuffixOf(text, k);
      if k + 3 <= |text| { Base64RoundTrip(text, k + 3); }
    }
  }

  // ---------------------------------------------------------------- blanks in paths

  /** Every blank becomes "%20". */
  function Escape(s: string): string {
    if s == "" then "" else (if s[0] == ' ' then "%20" else [s[0]]) + Escape(s[1..])
  }

  /** What `http_encode` writes from index `j` of its buffer on: it stops where the buffer ends. */
  function EncodeAt(s: string, j: nat): string {
    if s == "" || j >= MAX_STRING - 1 then ""
    else if s[0] != ' ' then [s[0]] + EncodeAt(s[1..], j + 1)
    else if j >= MAX_STRING - 3 then ""
    else "%20" + EncodeAt(s[1..], j + 3)
  }

  /** The loop of `http_encode`. */
  method HttpEncode(s: string) returns (t: string)
    ensures t == EncodeAt(s, 0)
  {
    t := "";
    var i := 0;
    assert s[0..] == s;
    while i < |s|
      invariant 0 <= i <= |s| && t + EncodeAt(s[i..], |t|) == EncodeAt(s, 0)
      decreases |s| - i
    {
      assert s[i..][1..] == s[i + 1..];
      if |t| >= MAX_STRING - 1 { return; }
      if s[i] == ' ' {
        if |t| >= MAX_STRING - 3 { return; }
        Reassociate(t, "%20", EncodeAt(s[i + 1..], |t| + 3));
        t := t + "%20";
      } else {
        Reassociate(t, [s[i]], EncodeAt(s[i + 1..], |t| + 1));
        t := t + [s[i]];
      }
      i := i + 1;
    }
  }

  /** The escaped string, unless it does not fit the buffer. */
  lemma {:induction false} EncodeFits(s: string, j: nat)
    ensures EncodeAt(s, j) == Escape(s) <==> s == "" || j + |Escape(s)| <= MAX_STRING - 1
    ensures |EncodeAt(s, j)| > 0 ==> j + |EncodeAt(s, j)| <= MAX_STRING - 1
    ensures ' ' !in EncodeAt(s, j)
  {
    if s != "" {
      var w := if s[0] == ' ' then 3 else 1;
      var rest := Escape(s[1..]);
      EncodeFits(s[1..], j + w);
      assert |Escape(s)| == w + |rest|;
      if j < MAX_STRING - 1 && !(s[0] == ' ' && j >= MAX_STRING - 3) {
        assert EncodeAt(s, j)[w..] == EncodeAt(s[1..], j + w);
        assert Escape(s)[w..] == rest;
      }
    }
  }

  lemma {:induction false} EncodeStable(s: string, j: nat)
    requires ' ' !in s && j + |s| <= MAX_STRING - 1
    ensures EncodeAt(s, j) == s
  {
    if s != "" {
      assert s[1..] == s[1..] && forall c | c in s[1..] :: c in s;
      EncodeStable(s[1..], j + 1);
      assert s == [s[0]] + s[1..];
    }
  }

  /** A path that was encoded once is not changed by encoding it again, cut short or not. */
  lemma EncodeTwice(s: string)
    ensures EncodeAt(EncodeAt(s, 0), 0) == EncodeAt(s, 0)
  {
    EncodeFits(s, 0);
    EncodeStable(EncodeAt(s, 0), 0);
  }

  // ---------------------------------------------------------------- decoding

  function Hex(c: char): Option<int> {
    if '0' <= c <= '9' then Some((c - '0') as int)
    else if 'a' <= c <= 'f' then Some((c - 'a') as int + 10)
    else if 'A' <= c <= 'F' then Some((c - 'A') as int + 10)
    else None
  }

  /** White space for `sscanf`. */
  predicate Blank(c: char) { c == ' ' || '\t' <= c <= '\r' }

  /** What `sscanf` reads: nothing but white space up to the end (its result is then EOF, which
      counts as true), something that is no number, or a number. */
  datatype Scan = End | NoMatch | Number(k: int)

  /** `sscanf(s, "%2x", &k)`: white space, then two characters of sign and hexadecimal digits; the
      number as the character it is stored in. */
  function ScanHex(s: string): (r: Scan)
    ensures r.Number? ==> 0 <= r.k < 256
  {
    if s == "" then End
    else if Blank(s[0]) then ScanHex(s[1..])
    else if s[0] == '+' || s[0] == '-' then
      if |s| == 1 || Hex(s[1]).None? then NoMatch
      else Number(if s[0] == '-' then (256 - Hex(s[1]).value) % 256 else Hex(s[1]).value)
    else if Hex(s[0]).None? then NoMatch
    else if |s| == 1 || Hex(s[1]).None? then Number(Hex(s[0]).value)
    else Number(Hex(s[0]).value * 16 + Hex(s[1]).value)
  }

  /** `http_decode`, where `k` is the number read last, if any. None stands for running past the
      end of the string or storing a number that was never read. */
  function Decode(s: string, k: Option<int>): Option<string>
    requires k.Some? ==> 0 <= k.value < 256
    decreases |s|
  {
    if s == "" then Some("")
    else if s[0] != '%' then Then(s[0], Decode(s[1..], k))
    else
      match ScanHex(s[1..])
      case NoMatch => Then('%', Decode(s[1..], k))
      case End => if |s| < 3 || k.None? then None else Then(k.value as char, Decode(s[3..], k))
      case Number(v) => if |s| < 3 then None else Then(v as char, Decode(s[3..], Some(v)))
  }

  function Then(c: char, r: Option<string>): Option<string> {
    match r case None => None case Some(t) => Some([c] + t)
  }

  /** A C string ends at its first zero character. */
  function Terminated(t: string): string {
    if t == "" || t[0] == 0 as char then "" else [t[0]] + Terminated(t[1..])
  }

  function Decoded(s: string): Option<string> {
    match Decode(s, None) case None => None case Some(t) => Some(Terminated(t))
  }

  /** The loop of `http_decode`, and the copy back. */
  method HttpDecode(s: string) returns (r: Option<string>)
    ensures r == Decoded(s)
  {
    BeforeNothing(Decode(s, None));
    var t := "";
    var i := 0;
    var k: Option<int> := None;
    assert s[0..] == s;
    while i < |s|
      invariant 0 <= i <= |s| && (k.Some? ==> 0 <= k.value < 256)
      invariant Decode(s, None) == Before(t, Decode(s[i..], k))
      decreases |s| - i
    {
      var c, step := s[i], 1;
      ghost var was := k;
      assert s[i..][1..] == s[i + 1..] && (i + 3 <= |s| ==> s[i..][3..] == s[i + 3..]);
      if c == '%' {
        var scan := ScanHex(s[i + 1..]);
        if scan.Number? { k := Some(scan.k); }
        if !scan.NoMatch? {
          if i + 3 > |s| || k.None? { return None; }
          c, step := k.value as char, 3;
        }
      }
      assert Decode(s[i..], was) == Then(c, Decode(s[i + step..], k));
      BeforeOne(t, c, Decode(s[i + step..], k));
      t := t + [c];
      i := i + step;
    }
    assert t + "" == t;
    r := Some(Terminated(t));
  }

  lemma BeforeNothing(r: Option<string>)
    ensures Before("", r) == r
  {
    if r.Some? { assert "" + r.value == r.value; }
  }

  lemma BeforeOne(t: string, c: char, r: Option<string>)
    ensures Before(t, Then(c, r)) == Before(t + [c], r)
  {
    if r.Some? { assert t + ([c] + r.value) == (t + [c]) + r.value; }
  }

  function Before(t: string, r: Option<string>): Option<string> {
    match r case None => None case Some(u) => Some(t + u)
  }

  // ---------------------------------------------------------------- what decoding restores

  /** The text behind a percent sign is not taken for a number, nor for the end of the string: it
      goes on, after white space other than blanks, with something else than hexadecimal digits. */
  predicate SafeAfter(r: string) {
    && r != ""
    && if Blank(r[0]) && r[0] != ' ' then SafeAfter(r[1..])
       else if r[0] == '+' || r[0] == '-' then |r| == 1 || Hex(r[1]).None?
       else Hex(r[0]).None?
  }

  /** Every percent sign of the string is safe. */
  predicate Restorable(s: string) {
    forall p | 0 <= p < |s| && s[p] == '%' :: SafeAfter(s[p + 1..])
  }

  lemma EscapeFirst(r: string)
    requires r != ""
    ensures r[0] == ' ' ==> Escape(r) == "%20" + Escape(r[1..]) && Escape(r)[3..] == Escape(r[1..])
    ensures r[0] != ' ' ==> Escape(r) == [r[0]] + Escape(r[1..]) && Escape(r)[1..] == Escape(r[1..])
  {
  }

  /** The encoded text is scanned as a number or as the end exactly if it is not safe. */
  lemma {:induction false} SafeIff(r: string)
    ensures ScanHex(Escape(r)).NoMatch? <==> SafeAfter(r)
  {
    if r != "" {
      EscapeFirst(r);
      if Blank(r[0]) && r[0] != ' ' {
        SafeIff(r[1..]);
      } else if (r[0] == '+' || r[0] == '-') && |r| > 1 {
        EscapeFirst(r[1..]);
        assert Escape(r)[1] == Escape(r[1..])[0];
      }
    }
  }

  lemma RestorableStep(s: string)
    requires s != ""
    ensures Restorable(s) <==> (s[0] == '%' ==> SafeAfter(s[1..])) && Restorable(s[1..])
  {
    if (s[0] == '%' ==> SafeAfter(s[1..])) && Restorable(s[1..]) {
      forall p | 0 <= p < |s| && s[p] == '%' ensures SafeAfter(s[p + 1..]) {
        if p > 0 { assert s[1..][p - 1] == '%' && s[1..][p..] == s[p + 1..]; }
      }
    }
    if Restorable(s) {
      forall p | 0 <= p < |s[1..]| && s[1..][p] == '%' ensures SafeAfter(s[1..][p + 1..]) {
        assert s[p + 1] == '%' && s[1..][p + 1..] == s[p + 2..];
      }
    }
  }

  /** One step of decoding an encoded string that starts with something else than an unsafe
      percent sign. */
  lemma DecodeStep(s: string, k: Option<int>)
    requires s != "" && (s[0] == '%' ==> SafeAfter(s[1..])) && (k.Some? ==> 0 <= k.value < 256)
    ensures Decode(Escape(s), k) == Then(s[0], Decode(Escape(s[1..]), if s[0] == ' ' then Some(32) else k))
  {
    EscapeFirst(s);
    SafeIff(s[1..]);
    if s[0] == ' ' { DecodeBlank(Escape(s[1..]), k); } else { DecodeOther(s[0], Escape(s[1..]), k); }
  }

  lemma DecodeBlank(r: string, k: Option<int>)
    requires k.Some? ==> 0 <= k.value < 256
    ensures Decode("%20" + r, k) == Then(' ', Decode(r, Some(32)))
  {
    var t := "%20" + r;
    assert t[1..] == "20" + r && t[3..] == r;
    assert ScanHex(t[1..]) == Number(32);
  }

  lemma DecodeOther(c: char, r: string, k: Option<int>)
    requires c == '%' ==> ScanHex(r).NoMatch?
    requires k.Some? ==> 0 <= k.value < 256
    ensures Decode([c] + r, k) == Then(c, Decode(r, k))
  {
    assert ([c] + r)[1..] == r;
  }

  /** The number that is stored after the unsafe percent sign that `s` starts with. */
  function LastRead(s: string, k: Option<int>): (r: Option<int>)
    requires s != "" && (k.Some? ==> 0 <= k.value < 256)
    ensures r.Some? ==> 0 <= r.value < 256
  {
    var scan := ScanHex(Escape(s[1..]));
    if scan.Number? then Some(scan.k) else k
  }

  /** What is left of the encoded string behind an unsafe percent sign and the two characters
      skipped after it, of which the second can be the first one of an escape. */
  function Skipped(s: string): string
    requires |s| >= 3
  {
    (if s[2] == ' ' then "20" else "") + Escape(s[3..])
  }

  lemma SkipsTwo(s: string)
    requires |s| >= 3 && s[0] == '%' && s[1] != ' '
    ensures |Escape(s)| >= 3 && Escape(s)[3..] == Skipped(s)
  {
    EscapeFirst(s);
    EscapeFirst(s[1..]);
    EscapeFirst(s[2..]);
    assert s[1..][1..] == s[2..] && s[2..][1..] == s[3..];
    DropThree(s[0], s[1], Escape(s[2..]), Escape(s));
  }

  lemma DropThree(c: char, d: char, e: string, t: string)
    requires e != "" && t == [c] + ([d] + e)
    ensures |t| >= 3 && t[3..] == e[1..]
  {
  }

  lemma DecodeUnsafe(s: string, k: Option<int>)
    requires s != "" && s[0] == '%' && !SafeAfter(s[1..]) && (k.Some? ==> 0 <= k.value < 256)
    ensures |s| < 3 ==> Decode(Escape(s), k) == None
    ensures |s| >= 3 ==> s[1] != ' '
    ensures var r := LastRead(s, k);
            |s| >= 3 ==> Decode(Escape(s), k) == if r.None? then None else Then(r.value as char, Decode(Skipped(s), r))
  {
    SafeIff(s[1..]);
    EscapeFirst(s);
    if |s| >= 3 {
      SkipsTwo(s);
    } else if |s| == 2 {
      EscapeFirst(s[1..]);
      assert Escape(s[1..][1..]) == "";
    }
  }

  lemma DecodeTail(r: string, k: Option<int>)
    requires k.Some? ==> 0 <= k.value < 256
    ensures Decode("20" + Escape(r), k) == Then('2', Then('0', Decode(Escape(r), k)))
  {
    var t := "20" + Escape(r);
    assert t[1..] == "0" + Escape(r) && t[1..][1..] == Escape(r);
  }

  /** Decoding never gives more characters than were encoded. */
  lemma {:induction false} DecodeShrinks(s: string, k: Option<int>)
    requires k.Some? ==> 0 <= k.value < 256
    ensures Decode(Escape(s), k).Some? ==> |Decode(Escape(s), k).value| <= |s|
    decreases |s|
  {
    if s != "" {
      if s[0] == '%' && !SafeAfter(s[1..]) {
        DecodeUnsafe(s, k);
        if |s| >= 3 {
          var r := LastRead(s, k);
          DecodeShrinks(s[3..], r);
          if s[2] == ' ' { DecodeTail(s[3..], r); } else { assert Skipped(s) == Escape(s[3..]); }
        }
      } else {
        DecodeStep(s, k);
        DecodeShrinks(s[1..], if s[0] == ' ' then Some(32) else k);
      }
    }
  }

  /** A number that is itself a percent sign takes two characters, and no other percent sign. */
  lemma PercentScan(e: string)
    requires ScanHex(e) == Number(37)
    ensures |e| >= 2 && e[0] != '%' && e[1] != '%'
  {
    if Blank(e[0]) { assert ScanHex(e[1..]) == Number(37) && e[1..] != ""; }
  }

  lemma PercentNumber(r: string)
    requires ScanHex(Escape(r)) == Number(37)
    ensures |r| >= 2 && r[0] != ' ' && r[1] != ' '
  {
    var e := Escape(r);
    PercentScan(e);
    EscapeFirst(r);
    assert e[1] == e[1..][0];
    EscapeFirst(r[1..]);
  }

  lemma ThenIs(c: char, r: Option<string>, s: string)
    requires s != ""
    ensures Then(c, r) == Some(s) <==> c == s[0] && r == Some(s[1..])
  {
    if r.Some? {
      assert ([c] + r.value)[1..] == r.value;
      assert s == [s[0]] + s[1..];
    }
  }

  lemma {:induction false} Restores(s: string, k: Option<int>)
    requires Restorable(s) && (k.Some? ==> 0 <= k.value < 256)
    ensures Decode(Escape(s), k) == Some(s)
  {
    if s != "" {
      RestorableStep(s);
      DecodeStep(s, k);
      var k' := if s[0] == ' ' then Some(32) else k;
      Restores(s[1..], k');
      ThenIs(s[0], Decode(Escape(s[1..]), k'), s);
    }
  }

  /** At the first unsafe percent sign the result goes wrong: either another character is stored,
      or the rest is too short. */
  lemma {:induction false} NotRestored(s: string, k: Option<int>)
    requires !Restorable(s) && (k == None || k == Some(32))
    ensures Decode(Escape(s), k) != Some(s)
  {
    RestorableStep(s);
    if s[0] == '%' && !SafeAfter(s[1..]) {
      DecodeUnsafe(s, k);
      var r := LastRead(s, k);
      if |s| >= 3 && r.Some? {
        ThenIs(r.value as char, Decode(Skipped(s), r), s);
        if r.value == 37 {
          PercentNumber(s[1..]);
          DecodeShrinks(s[3..], r);
          assert Skipped(s) == Escape(s[3..]);
        }
      }
    } else {
      DecodeStep(s, k);
      var k' := if s[0] == ' ' then Some(32) else k;
      NotRestored(s[1..], k');
      ThenIs(s[0], Decode(Escape(s[1..]), k'), s);
    }
  }

  lemma {:induction false} TerminatedPrefix(t: string)
    ensures |Terminated(t)| <= |t| && (|Terminated(t)| == |t| ==> Terminated(t) == t)
  {
    if t != "" && t[0] != 0 as char {
      TerminatedPrefix(t[1..]);
      assert t == [t[0]] + t[1..];
    }
  }

  lemma {:induction false} NotTerminated(s: string)
    requires 0 as char !in s
    ensures Terminated(s) == s
  {
    if s != "" {
      assert s[0] in s && forall c | c in s[1..] :: c in s;
      NotTerminated(s[1..]);
      assert s == [s[0]] + s[1..];
    }
  }

  /** Decoding undoes encoding, for a string that fits the buffers when encoded, if and only if
      every percent sign in it is safe. */
  lemma PathRoundTrip(s: string)
    requires 0 as char !in s && |Escape(s)| <= MAX_STRING - 1
    ensures Decoded(EncodeAt(s, 0)) == Some(s) <==> Restorable(s)
  {
    EncodeFits(s, 0);
    NotTerminated(s);
    if Restorable(s) { Restores(s, None); } else { NotRestored(s, None); }
    DecodeShrinks(s, None);
    var d := Decode(Escape(s), None);
    if d.Some? { TerminatedPrefix(d.value); }
  }

  // ---------------------------------------------------------------- hexadecimal escapes

  const LOWER_DIGITS := "0123456789abcdef"
  const UPPER_DIGITS := "0123456789ABCDEF"

  /** The character stands for the digit `d`, in either case. */
  predicate IsDigit(c: char, d: int) { 0 <= d < 16 && (c == LOWER_DIGITS[d] || c == UPPER_DIGITS[d]) }

  lemma HexIsDigit(c: char, d: int)
    ensures Hex(c) == Some(d) <==> IsDigit(c, d)
  {
    DigitTables(d);
  }

  lemma DigitTables(d: int)
    ensures 0 <= d < 10 ==> LOWER_DIGITS[d] == UPPER_DIGITS[d] == '0' + d as char
    ensures 10 <= d < 16 ==> LOWER_DIGITS[d] == 'a' + (d - 10) as char && UPPER_DIGITS[d] == 'A' + (d - 10) as char
  {
  }

  /** Every character of `s` is written as a percent sign and two hexadecimal digits. */
  ghost predicate PercentWritten(s: string, t: string) {
    && |t| == 3 * |s|
    && forall k | 0 <= k < |s| ::
         && t[3 * k] == '%' && IsDigit(t[3 * k + 1], s[k] as int / 16) && IsDigit(t[3 * k + 2], s[k] as int % 16)
  }

  lemma PercentStep(s: string, t: string)
    requires s != "" && PercentWritten(s, t) && s[0] as int < 128
    ensures |t| >= 3 && t[0] == '%' && ScanHex(t[1..]) == Number(s[0] as int) && PercentWritten(s[1..], t[3..])
  {
    HexIsDigit(t[1], s[0] as int / 16);
    HexIsDigit(t[2], s[0] as int % 16);
    assert t[1..][0] == t[1] && t[1..][1] == t[2];
    forall k | 0 <= k < |s| - 1
      ensures t[3..][3 * k] == '%' && IsDigit(t[3..][3 * k + 1], s[1..][k] as int / 16)
      ensures IsDigit(t[3..][3 * k + 2], s[1..][k] as int % 16)
    {
      assert t[3 * (k + 1)] == '%' && s[1..][k] == s[k + 1];
    }
  }

  lemma {:induction false} PercentDecodes(s: string, t: string, n: Option<int>)
    requires PercentWritten(s, t) && (forall c | c in s :: c as int < 128) && (n.Some? ==> 0 <= n.value < 256)
    ensures Decode(t, n) == Some(s)
  {
    if s != "" {
      assert s[0] in s && forall c | c in s[1..] :: c in s;
      PercentStep(s, t);
      PercentDecodes(s[1..], t[3..], Some(s[0] as int));
      ThenIs(s[0], Decode(t[3..], Some(s[0] as int)), s);
    }
  }

  /** Decoding reads percent escapes: it restores every 7-bit string of which each character is
      written as a percent sign and two hexadecimal digits, in either case. */
  lemma DecodesEscapes(s: string, t: string)
    requires PercentWritten(s, t) && forall c | c in s :: 0 < c as int < 128
    ensures Decoded(t) == Some(s)
  {
    PercentDecodes(s, t, None);
    NotTerminated(s);
  }

  /** A percent sign in front of digits: the code for another character. One in front of letters
      that are no digits is left alone. */
  lemma PercentExamples()
    ensures Decoded(EncodeAt("%41", 0)) == Some("A")
    ensures Decoded(EncodeAt("%zz", 0)) == Some("%zz")
  {
    EncodeStable("%41", 0);
    assert "%41"[1..] == "41" && "%41"[3..] == "";
    assert ScanHex("41") == Number(65) && 65 as char == 'A';
    assert ['A'] + "" == "A";
    assert Decode("%41", None) == Some("A");
    NotTerminated("A");
    var s := "%zz";
    assert Hex('z') == None && s[1..][0] == 'z';
    assert SafeAfter(s[1..]);
    EncodeStable(s, 0);
    PathRoundTrip(s);
  }
}
