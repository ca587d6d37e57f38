/** Percent-encoding of `rawurlencode` and of the object path built by `Request.Uri`.
    Go's `url.QueryEscape` works on the UTF-8 bytes of its input: it keeps the
    unreserved characters of section 2.3 of RFC 3986, writes a space as `+` and every
    other byte as `%XX` with upper-case hex digits. `rawurlencode` then turns `+`
    into `%20`, and `Uri` turns `%2F` back into `/`. */
module UrlEncode {
  import opened Strings

  /** The unreserved set of section 2.3 of RFC 3986. */
  predicate Unreserved(c: char) {
    ('A' <= c <= 'Z') || ('a' <= c <= 'z') || ('0' <= c <= '9') || c == '-' || c == '_' || c == '.' || c == '~'
  }

  /** The UTF-8 bytes of one character. */
  function Utf8(c: char): (bs: seq<int>)
    ensures 1 <= |bs| <= 4
    ensures forall i :: 0 <= i < |bs| ==> 0 <= bs[i] < 256
    ensures (c as int < 128) == (|bs| == 1)
    ensures |bs| == 1 ==> bs[0] == c as int
    ensures |bs| > 1 ==> forall i :: 0 <= i < |bs| ==> bs[i] >= 128
  {
    var n := c as int;
    if n < 0x80 then [n]
    else if n < 0x800 then [0xC0 + n / 64, 0x80 + n % 64]
    else if n < 0x1_0000 then [0xE0 + n / 4096, 0x80 + (n / 64) % 64, 0x80 + n % 64]
    else [0xF0 + n / 262144, 0x80 + (n / 4096) % 64, 0x80 + (n / 64) % 64, 0x80 + n % 64]
  }

  function HexDigit(d: int): (c: char)
    requires 0 <= d < 16
    ensures ('0' <= c <= '9') || ('A' <= c <= 'F')
  {
    "0123456789ABCDEF"[d]
  }

  /** `%XX` for one byte. */
  function Pct(b: int): (r: string)
    requires 0 <= b < 256
    ensures |r| == 3 && r[0] == '%' && Unreserved(r[1]) && Unreserved(r[2])
  {
    ['%', HexDigit(b / 16), HexDigit(b % 16)]
  }

  predicate Bytes(bs: seq<int>) {
    forall i :: 0 <= i < |bs| ==> 0 <= bs[i] < 256
  }

  function PctAll(bs: seq<int>): (r: string)
    requires Bytes(bs)
    ensures forall k :: 0 <= k < |r| ==> Unreserved(r[k]) || r[k] == '%'
  {
    if bs == [] then "" else Pct(bs[0]) + PctAll(bs[1..])
  }

  /** One character as `url.QueryEscape` writes it. */
  function QueryEscapeChar(c: char): string {
    if Unreserved(c) then [c] else if c == ' ' then "+" else PctAll(Utf8(c))
  }

  /** `url.QueryEscape`. */
  function QueryEscape(s: string): string {
    if s == [] then "" else QueryEscapeChar(s[0]) + QueryEscape(s[1..])
  }

  /** Reference definition: every byte outside the unreserved set as `%XX`. */
  function EncodeChar(c: char): (r: string)
    ensures forall k :: 0 <= k < |r| ==> Unreserved(r[k]) || r[k] == '%'
  {
    if Unreserved(c) then [c] else PctAll(Utf8(c))
  }

  function PercentEncode(s: string): (r: string)
    ensures forall k :: 0 <= k < |r| ==> Unreserved(r[k]) || r[k] == '%'
  {
    if s == [] then "" else EncodeChar(s[0]) + PercentEncode(s[1..])
  }

  /** Reference definition of an object path: as `PercentEncode`, but `/` stays `/`. */
  function PathChar(c: char): (r: string)
    ensures forall k :: 0 <= k < |r| ==> Unreserved(r[k]) || r[k] == '%' || r[k] == '/'
    ensures c == '/' <==> '/' in r
  {
    if c == '/' then "/" else EncodeChar(c)
  }

  function PathEncode(s: string): (r: string)
    ensures forall k :: 0 <= k < |r| ==> Unreserved(r[k]) || r[k] == '%' || r[k] == '/'
  {
    if s == [] then "" else PathChar(s[0]) + PathEncode(s[1..])
  }

  /** `rawurlencode`: `url.QueryEscape` with `+` replaced by `%20`. It is the reference
      percent-encoding, so it holds no `+` and no space. */
  function RawUrlEncode(s: string): (r: string)
    ensures r == PercentEncode(s)
    ensures forall k :: 0 <= k < |r| ==> r[k] != '+' && r[k] != ' '
  {
    RawUrlEncodeIsPercentEncode(s);
    Replace(QueryEscape(s), "+", "%20")
  }

  /** The object path stored by `Request.Uri`: encoded, `%2F` restored to `/`, and
      surrounding slashes trimmed. */
  function UriPath(uri: string): (r: string)
    ensures r == Trim(PathEncode(uri), '/')
    ensures forall k :: 0 <= k < |r| ==> Unreserved(r[k]) || r[k] == '%' || r[k] == '/'
    ensures |r| > 0 ==> r[0] != '/' && r[|r| - 1] != '/'
  {
    PercentEncodeSlashes(uri);
    TrimKeeps(PathEncode(uri), '/');
    Trim(Replace(RawUrlEncode(uri), "%2F", "/"), '/')
  }

  // ---- Replace on concatenations ----

  lemma {:induction false} ReplaceCharConcat(t: string, u: string, pat: string, rep: string)
    requires |pat| == 1
    ensures Replace(t + u, pat, rep) == Replace(t, pat, rep) + Replace(u, pat, rep)
    decreases |t|
  {
    if |t| > 0 {
      assert (t + u)[1..] == t[1..] + u;
      assert (t + u)[..1] == t[..1];
      ReplaceCharConcat(t[1..], u, pat, rep);
    } else {
      assert t + u == u;
    }
  }

  /** A character that cannot start the pattern is copied. */
  lemma ReplaceSkip(x: char, v: string, pat: string, rep: string)
    requires |pat| > 0 && x != pat[0]
    ensures Replace([x] + v, pat, rep) == [x] + Replace(v, pat, rep)
  {
    var s := [x] + v;
    assert s[1..] == v;
    if |s| < |pat| {
      assert Replace(v, pat, rep) == v;
    } else {
      assert s[..|pat|][0] == x;
    }
  }

  lemma {:induction false} ReplaceSkipAll(t: string, v: string, pat: string, rep: string)
    requires |pat| > 0 && pat[0] !in t
    ensures Replace(t + v, pat, rep) == t + Replace(v, pat, rep)
    decreases |t|
  {
    if |t| > 0 {
      ReplaceSkipAll(t[1..], v, pat, rep);
      ReplaceSkip(t[0], t[1..] + v, pat, rep);
      assert t + v == [t[0]] + (t[1..] + v);
      assert t == [t[0]] + t[1..];
    } else {
      assert t + v == v;
    }
  }

  /** On one character, replacing `+` by `%20` turns the query form into the reference form. */
  lemma RawUrlEncodeChar(c: char)
    ensures Replace(QueryEscapeChar(c), "+", "%20") == EncodeChar(c)
  {
    var t := QueryEscapeChar(c);
    if c == ' ' {
      assert t == "+";
      assert Replace(t, "+", "%20") == "%20" + Replace("", "+", "%20");
      assert EncodeChar(c) == Pct(32) + PctAll([]);
    } else {
      assert t == EncodeChar(c);
      assert '+' !in t;
      ReplaceSkipAll(t, "", "+", "%20");
      assert t + "" == t;
    }
  }

  lemma {:induction false} RawUrlEncodeIsPercentEncode(s: string)
    ensures Replace(QueryEscape(s), "+", "%20") == PercentEncode(s)
    decreases |s|
  {
    if s != [] {
      RawUrlEncodeIsPercentEncode(s[1..]);
      ReplaceCharConcat(QueryEscapeChar(s[0]), QueryEscape(s[1..]), "+", "%20");
      RawUrlEncodeChar(s[0]);
    }
  }

  lemma HexDigitTwoF(d: int)
    requires 0 <= d < 16
    ensures HexDigit(d) == '2' ==> d == 2
    ensures HexDigit(d) == 'F' ==> d == 15
  {
  }

  /** The `%XX` of any byte but `/` is copied by the `%2F` replacement. */
  lemma PctSkip(b: int, w: string)
    requires 0 <= b < 256 && b != 0x2F
    ensures Replace(Pct(b) + w, "%2F", "/") == Pct(b) + Replace(w, "%2F", "/")
  {
    var p := Pct(b);
    PctNotSlash(b);
    ReplaceSkip(p[2], w, "%2F", "/");
    ReplaceSkip(p[1], [p[2]] + w, "%2F", "/");
    ReplaceHead(p + w, "%2F", "/");
    assert (p + w)[1..] == [p[1]] + ([p[2]] + w);
    assert p == [p[0]] + [p[1]] + [p[2]];
  }

  /** `%XX` is `%2F` only for `/`. */
  lemma PctNotSlash(b: int)
    requires 0 <= b < 256 && b != 0x2F
    ensures Pct(b) != "%2F"
  {
    HexDigitTwoF(b / 16);
    HexDigitTwoF(b % 16);
    assert Pct(b)[1] != '2' || Pct(b)[2] != 'F';
  }

  /** Where the pattern does not start the string, its first character is copied. */
  lemma ReplaceHead(s: string, pat: string, rep: string)
    requires |pat| > 0 && |s| >= |pat| && s[..|pat|] != pat
    ensures Replace(s, pat, rep) == [s[0]] + Replace(s[1..], pat, rep)
  {
  }

  lemma ConcatAssoc(a: string, b: string, c: string)
    ensures a + (b + c) == (a + b) + c
  {
  }

  lemma {:induction false} PctAllSkip(bs: seq<int>, v: string)
    requires Bytes(bs)
    requires forall i :: 0 <= i < |bs| ==> bs[i] != 0x2F
    ensures Replace(PctAll(bs) + v, "%2F", "/") == PctAll(bs) + Replace(v, "%2F", "/")
    decreases |bs|
  {
    if bs != [] {
      var p, t := Pct(bs[0]), PctAll(bs[1..]);
      PctAllSkip(bs[1..], v);
      PctSkip(bs[0], t + v);
      ConcatAssoc(p, t, v);
      ConcatAssoc(p, t, Replace(v, "%2F", "/"));
    } else {
      assert PctAll(bs) + v == v;
    }
  }

  /** `%2F` in the percent-encoding comes only from `/`, so restoring it gives the path
      encoding. */
  lemma {:induction false} PercentEncodeSlashes(s: string)
    ensures Replace(PercentEncode(s), "%2F", "/") == PathEncode(s)
    decreases |s|
  {
    if s != [] {
      var c := s[0];
      var u := PercentEncode(s[1..]);
      PercentEncodeSlashes(s[1..]);
      assert PercentEncode(s) == EncodeChar(c) + u;
      if c == '/' {
        assert EncodeChar(c) == "%2F" by {
          assert Utf8(c) == [0x2F];
          assert PctAll([0x2F]) == Pct(0x2F) + PctAll([]);
        }
        assert (EncodeChar(c) + u)[..3] == "%2F";
        assert (EncodeChar(c) + u)[3..] == u;
      } else if Unreserved(c) {
        ReplaceSkip(c, u, "%2F", "/");
      } else {
        var bs := Utf8(c);
        assert forall i :: 0 <= i < |bs| ==> bs[i] != 0x2F;
        PctAllSkip(bs, u);
      }
    }
  }
}
