/** The bucket operations of bucket/bucket.go: parsing `bucket/path`, the option
    arguments, the requests each operation builds, the checks on what comes back, the
    paginated listing and the bulk deletion. */
module Bucket {
  import opened Errors
  import opened Strings
  import opened Enum
  import opened Where
  import opened UrlEncode
  import R = Response
  import Q = Request

  /** A bucket name and an object path inside it (`uri`, empty for the bucket itself). */
  datatype Bucket = Bucket(name: string, uri: string)

  // ---- mapTrim and New ----

  /** `mapTrim`: every piece with surrounding spaces cut, blank pieces dropped. */
  function TrimAll(strs: seq<string>): (r: seq<string>)
    ensures |r| <= |strs|
    ensures forall i :: 0 <= i < |r| ==> r[i] != "" && r[i][0] != ' ' && r[i][|r[i]| - 1] != ' '
    decreases |strs|
  {
    if strs == [] then []
    else
      var t := Trim(strs[|strs| - 1], ' ');
      TrimAll(strs[..|strs| - 1]) + (if t != "" then [t] else [])
  }

  /** `mapTrim` as its loop runs. */
  method MapTrim(strs: seq<string>) returns (news: seq<string>)
    ensures news == TrimAll(strs)
  {
    news := [];
    for i := 0 to |strs|
      invariant news == TrimAll(strs[..i])
    {
      assert strs[..i + 1][..i] == strs[..i];
      var str := Trim(strs[i], ' ');
      if str != "" {
        news := news + [str];
      }
    }
    assert strs[..|strs|] == strs;
  }

  /** Every piece is blank exactly when nothing is left. */
  lemma {:induction false} TrimAllEmpty(strs: seq<string>)
    ensures TrimAll(strs) == [] <==> forall i :: 0 <= i < |strs| ==> Trim(strs[i], ' ') == ""
    decreases |strs|
  {
    if strs != [] {
      TrimAllEmpty(strs[..|strs| - 1]);
      assert forall i :: 0 <= i < |strs| - 1 ==> strs[..|strs| - 1][i] == strs[i];
    }
  }

  /** A character no piece holds is held by no trimmed piece either. */
  lemma {:induction false} TrimAllFree(strs: seq<string>, c: char)
    requires forall i :: 0 <= i < |strs| ==> c !in strs[i]
    ensures forall i :: 0 <= i < |TrimAll(strs)| ==> c !in TrimAll(strs)[i]
    decreases |strs|
  {
    if strs != [] {
      TrimAllFree(strs[..|strs| - 1], c);
      TrimKeeps(strs[|strs| - 1], ' ');
    }
  }

  /** No piece of a split holds the separator. */
  lemma {:induction false} SplitPieces(s: string, sep: char)
    ensures forall i :: 0 <= i < |Split(s, sep)| ==> sep !in Split(s, sep)[i]
    decreases |s|
  {
    if |s| > 0 {
      SplitPieces(s[1..], sep);
    }
  }

  /** The segments `New` keeps. */
  function Dirs(name: string): (dirs: seq<string>)
    ensures forall i :: 0 <= i < |dirs| ==> dirs[i] != "" && '/' !in dirs[i]
  {
    SplitPieces(name, '/');
    TrimAllFree(Split(name, '/'), '/');
    TrimAll(Split(name, '/'))
  }

  /** `New`: the first non-blank segment is the bucket, the others joined by `/` the path. */
  function New(name: string): (r: Result<Bucket>)
    ensures r.Fail? <==> Dirs(name) == []
    ensures r.Fail? ==> r.error == BadBucketPath
    ensures r.Ok? ==> r.value.name == Dirs(name)[0] && r.value.uri == Join(Dirs(name)[1..], '/')
  {
    var dirs := Dirs(name);
    if |dirs| <= 0 then Fail(BadBucketPath) else Ok(Bucket(dirs[0], Join(dirs[1..], '/')))
  }

  /** Every `/`-segment is blank. */
  predicate AllBlank(pieces: seq<string>) {
    forall i :: 0 <= i < |pieces| ==> Trim(pieces[i], ' ') == ""
  }

  /** `New` fails exactly when every `/`-segment is blank. */
  lemma NewFailsIffBlank(name: string)
    ensures New(name).Fail? <==> AllBlank(Split(name, '/'))
  {
    TrimAllEmpty(Split(name, '/'));
  }

  /** The bucket name is one non-blank segment without surrounding spaces, and the path
      splits back into the other non-blank segments, in order. */
  lemma NewParts(name: string)
    requires New(name).Ok?
    ensures var b := New(name).value;
      b.name != "" && '/' !in b.name && b.name[0] != ' ' && b.name[|b.name| - 1] != ' '
    ensures var b := New(name).value;
      |Dirs(name)| > 1 ==> Split(b.uri, '/') == Dirs(name)[1..]
    ensures |Dirs(name)| == 1 ==> New(name).value.uri == ""
  {
    var dirs := Dirs(name);
    if |dirs| > 1 {
      SplitJoin(dirs[1..], '/');
    }
  }

  // ---- Option arguments ----

  /** The variadic arguments: an `Acl`, a `Loc`, an `int`, or anything else. */
  datatype Arg = AclArg(acl: int) | LocArg(loc: int) | IntArg(n: int) | OtherArg

  /** The ACL an argument list selects: the last `Acl`, or private. */
  function LastAcl(args: seq<Arg>): int
    decreases |args|
  {
    if args == [] then AclPrivate
    else if args[|args| - 1].AclArg? then args[|args| - 1].acl
    else LastAcl(args[..|args| - 1])
  }

  /** The location an argument list selects: the last `Loc`, or none. */
  function LastLoc(args: seq<Arg>): int
    decreases |args|
  {
    if args == [] then LocNano
    else if args[|args| - 1].LocArg? then args[|args| - 1].loc
    else LastLoc(args[..|args| - 1])
  }

  /** The cache value an argument list selects: the last positive `int`, printed, or "". */
  function CacheOf(args: seq<Arg>): string
    decreases |args|
  {
    if args == [] then ""
    else if args[|args| - 1].IntArg? && args[|args| - 1].n > 0 then Decimal(args[|args| - 1].n)
    else CacheOf(args[..|args| - 1])
  }

  /** The option loop of `copy` and `Put`. */
  method WriteOptions(args: seq<Arg>) returns (acl: int, cache: string)
    ensures acl == LastAcl(args) && cache == CacheOf(args)
  {
    acl := AclPrivate;
    cache := "";
    for i := 0 to |args|
      invariant acl == LastAcl(args[..i]) && cache == CacheOf(args[..i])
    {
      assert args[..i + 1][..i] == args[..i];
      if args[i].AclArg? {
        acl := args[i].acl;
      }
      if args[i].IntArg? && args[i].n > 0 {
        cache := Decimal(args[i].n);
      }
    }
    assert args[..|args|] == args;
  }

  /** The option loop of `Create`. */
  method CreateOptions(args: seq<Arg>) returns (acl: int, loc: int)
    ensures acl == LastAcl(args) && loc == LastLoc(args)
  {
    acl := AclPrivate;
    loc := LocNano;
    for i := 0 to |args|
      invariant acl == LastAcl(args[..i]) && loc == LastLoc(args[..i])
    {
      assert args[..i + 1][..i] == args[..i];
      if args[i].AclArg? {
        acl := args[i].acl;
      }
      if args[i].LocArg? {
        loc := args[i].loc;
      }
    }
    assert args[..|args|] == args;
  }

  /** The last `Acl` wins, whatever follows it. */
  lemma {:induction false} LastAclWins(args: seq<Arg>, i: int)
    requires 0 <= i < |args| && args[i].AclArg?
    requires forall j :: i < j < |args| ==> !args[j].AclArg?
    ensures LastAcl(args) == args[i].acl
    decreases |args|
  {
    if i < |args| - 1 {
      LastAclWins(args[..|args| - 1], i);
    }
  }

  /** Without an `Acl` the ACL is private. */
  lemma {:induction false} LastAclDefault(args: seq<Arg>)
    requires forall j :: 0 <= j < |args| ==> !args[j].AclArg?
    ensures LastAcl(args) == AclPrivate
    decreases |args|
  {
    if args != [] {
      LastAclDefault(args[..|args| - 1]);
    }
  }

  /** The last `Loc` wins, whatever follows it. */
  lemma {:induction false} LastLocWins(args: seq<Arg>, i: int)
    requires 0 <= i < |args| && args[i].LocArg?
    requires forall j :: i < j < |args| ==> !args[j].LocArg?
    ensures LastLoc(args) == args[i].loc
    decreases |args|
  {
    if i < |args| - 1 {
      LastLocWins(args[..|args| - 1], i);
    }
  }

  /** The last positive `int` sets the cache; zero and negative ones are skipped. */
  lemma {:induction false} CacheWins(args: seq<Arg>, i: int)
    requires 0 <= i < |args| && args[i].IntArg? && args[i].n > 0
    requires forall j :: i < j < |args| ==> !(args[j].IntArg? && args[j].n > 0)
    ensures CacheOf(args) == Decimal(args[i].n)
    decreases |args|
  {
    if i < |args| - 1 {
      CacheWins(args[..|args| - 1], i);
    }
  }

  /** Without a positive `int` there is no cache value. */
  lemma {:induction false} CacheDefault(args: seq<Arg>)
    requires forall j :: 0 <= j < |args| ==> !(args[j].IntArg? && args[j].n > 0)
    ensures CacheOf(args) == ""
    decreases |args|
  {
    if args != [] {
      CacheDefault(args[..|args| - 1]);
    }
  }

  // ---- The request each operation builds ----

  /** The builder chain of one operation, in the order `Build` applies it: `Bucket`, `Uri`,
      `Method`, then the `SetAmzHeader`, `SetHeader` and `Parameter` calls, then `SetXML`.
      An empty `uri` stands for no `Uri` call (which is what `Uri("")` amounts to). */
  datatype Call = Call(
    verb: int,
    bucket: string,
    uri: string,
    amz: seq<(string, string)>,
    headers: seq<(string, string)>,
    params: seq<(string, string)>,
    xml: Option<string>)

  /** The remote service: a built request, signed, sent and answered. It stands for
      `Build`, `Request.Response` and the HTTP exchange outside the model. */
  type Service = Call -> R.Envelope

  /** The amz headers after a run of `SetAmzHeader` calls. */
  function AmzAfter(m: map<string, string>, kvs: seq<(string, string)>): map<string, string>
    decreases |kvs|
  {
    if kvs == [] then m
    else var kv := kvs[|kvs| - 1]; AmzAfter(m, kvs[..|kvs| - 1])[kv.0 := Q.AmzValue(kv.0, kv.1)]
  }

  /** The plain headers after a run of `SetHeader` calls. */
  function HeadersAfter(m: map<string, string>, kvs: seq<(string, string)>): map<string, string>
    decreases |kvs|
  {
    if kvs == [] then m
    else
      var kv := kvs[|kvs| - 1];
      var prev := HeadersAfter(m, kvs[..|kvs| - 1]);
      if kv.1 != "" then prev[kv.0 := kv.1] else prev
  }

  /** The parameters after a run of `Parameter` calls. */
  function ParamsAfter(m: map<string, string>, kvs: seq<(string, string)>): map<string, string>
    decreases |kvs|
  {
    if kvs == [] then m
    else
      var kv := kvs[|kvs| - 1];
      var prev := ParamsAfter(m, kvs[..|kvs| - 1]);
      if kv.0 != "" then prev[kv.0 := kv.1] else prev
  }

  /** A run of `SetAmzHeader` calls. */
  method ApplyAmz(r: Q.Request, kvs: seq<(string, string)>)
    modifies r`amzHeaders
    ensures r.amzHeaders == AmzAfter(old(r.amzHeaders), kvs)
  {
    ghost var m := r.amzHeaders;
    for i := 0 to |kvs|
      invariant r.amzHeaders == AmzAfter(m, kvs[..i])
    {
      assert kvs[..i + 1][..i] == kvs[..i];
      r.SetAmzHeader(kvs[i].0, kvs[i].1);
    }
    assert kvs[..|kvs|] == kvs;
  }

  /** A run of `SetHeader` calls. */
  method ApplyHeaders(r: Q.Request, kvs: seq<(string, string)>)
    modifies r`headers
    ensures r.headers == HeadersAfter(old(r.headers), kvs)
    ensures old(r.Valid()) ==> r.Valid()
  {
    ghost var m := r.headers;
    ghost var valid := r.Valid();
    for i := 0 to |kvs|
      invariant r.headers == HeadersAfter(m, kvs[..i])
      invariant valid ==> r.Valid()
    {
      assert kvs[..i + 1][..i] == kvs[..i];
      r.SetHeader(kvs[i].0, kvs[i].1);
    }
    assert kvs[..|kvs|] == kvs;
  }

  /** A run of `Parameter` calls. */
  method ApplyParams(r: Q.Request, kvs: seq<(string, string)>)
    modifies r`parameters
    ensures r.parameters == ParamsAfter(old(r.parameters), kvs)
    ensures old(r.Valid()) ==> r.Valid()
  {
    ghost var m := r.parameters;
    ghost var valid := r.Valid();
    for i := 0 to |kvs|
      invariant r.parameters == ParamsAfter(m, kvs[..i])
      invariant valid ==> r.Valid()
    {
      assert kvs[..i + 1][..i] == kvs[..i];
      r.Parameter(kvs[i].0, kvs[i].1);
    }
    assert kvs[..|kvs|] == kvs;
  }

  /** Runs the builder chain of `c` on a new request. */
  method Build(c: Call, signer: string -> string, date: string) returns (r: Q.Request)
    ensures fresh(r) && r.Valid() && r.sign == signer
    ensures r.verb == c.verb && r.bucket == Lower(c.bucket)
    ensures r.uri == if c.uri != "" then UriPath(c.uri) else ""
    ensures r.amzHeaders == AmzAfter(map[], c.amz)
    ensures r.parameters == ParamsAfter(map[], c.params)
    ensures var base := HeadersAfter(NewHeaders(date)["Host" := Q.HostFor(Lower(c.bucket))], c.headers);
      r.headers == if c.xml.Some? then base["Content-Type" := "application/xml"] else base
    ensures r.data == (if c.xml.Some? then Some(Q.Data(c.xml.value, Q.ByteLength(c.xml.value))) else None)
    ensures r.file == None && !r.useSSL
  {
    r := Start(c, signer, date);
    ApplyAmz(r, c.amz);
    ApplyHeaders(r, c.headers);
    ApplyParams(r, c.params);
    if c.xml.Some? {
      r.SetXML(c.xml.value);
    }
  }

  /** The first links of the chain: a new request with the bucket, the path and the verb. */
  method Start(c: Call, signer: string -> string, date: string) returns (r: Q.Request)
    ensures fresh(r) && r.Valid() && r.sign == signer
    ensures r.verb == c.verb && r.bucket == Lower(c.bucket)
    ensures r.uri == if c.uri != "" then UriPath(c.uri) else ""
    ensures r.amzHeaders == map[] && r.parameters == map[]
    ensures r.headers == NewHeaders(date)["Host" := Q.HostFor(Lower(c.bucket))]
    ensures r.data == None && r.file == None && !r.useSSL
  {
    r := new Q.Request(signer, date);
    r.Bucket(c.bucket);
    r.Uri(c.uri);
    r.Method(c.verb);
  }

  /** The headers `Request.New` starts with. */
  function NewHeaders(date: string): map<string, string> {
    map["Host" := Q.Host, "Date" := date, "Content-MD5" := "", "Content-Type" := ""]
  }

  // ---- Records of model/model.go ----

  /** A listed object (`model.File`). */
  datatype Entry = Entry(key: string, time: nat, md5: string, size: nat)

  /** The metadata of an object (`model.FileMeta`). */
  datatype FileMeta = FileMeta(contentLength: nat, time: nat, md5: string, contentType: string)

  const Uint64Modulus: int := 0x1_0000_0000_0000_0000

  /** Go's `uint64(n)` conversion of an `int64`: wrap-around modulo 2^64. */
  function ToUint64(n: int): (r: nat)
    ensures r < Uint64Modulus
    ensures 0 <= n < Uint64Modulus ==> r == n
    ensures -Uint64Modulus <= n < 0 ==> r == n + Uint64Modulus
  {
    n % Uint64Modulus
  }

  /** A parser of timestamps with a layout, giving Unix seconds (`time.Parse` and `Unix`). */
  type TimeParser = (string, string) -> Decoded<int>

  const ListingLayout: string := "2006-01-02T15:04:05.999Z"
  const HttpDateLayout: string := "Mon, 02 Jan 2006 15:04:05 GMT"

  /** The body `encoding/xml` writes before a document. */
  const XmlHeader: string := "<?xml version=\"1.0\" encoding=\"UTF-8\"?>\n"

  /** The location document of `Create`, as `xml.MarshalIndent` with a two-space indent
      writes it. */
  function CreateXml(loc: int): string {
    XmlHeader + "<CreateBucketConfiguration>\n  <LocationConstraint>" + LocStr(loc) + "</LocationConstraint>\n</CreateBucketConfiguration>"
  }

  // ---- The requests of the operations ----

  /** `Delete` of a whole bucket. */
  function DeleteCall(b: Bucket): Call {
    Call(MethodDelete, b.name, "", [], [], [], None)
  }

  /** `Del`, `Meta` and `File`: one request on the object path. */
  function ObjectCall(b: Bucket, verb: int): Call {
    Call(verb, b.name, b.uri, [], [], [], None)
  }

  /** `copy`: a PUT on the destination naming the source. */
  function CopyCall(src: Bucket, dest: Bucket, acl: int, cache: string): Call {
    Call(MethodPut, dest.name, dest.uri,
      [("x-amz-acl", AclStr(acl)), ("x-amz-copy-source", "/" + src.name + "/" + src.uri), ("x-amz-metadata-directive", "COPY")],
      [("Cache-Control", cache)], [], None)
  }

  /** `Create`: a PUT on the bucket, with the location document unless no location is set. */
  function CreateCall(b: Bucket, acl: int, loc: int): Call {
    Call(MethodPut, b.name, "", [("x-amz-acl", AclStr(acl))], [], [],
      if loc != LocNano then Some(CreateXml(loc)) else None)
  }

  /** The status set of the two deletions. */
  const DeleteStatuses: seq<seq<nat>> := [[200, 204]]

  /** `Delete`: the bucket's DELETE, accepted with 200 or 204. */
  function Delete(b: Bucket, service: Service): (err: Option<Error>)
    ensures err.None? <==> service(DeleteCall(b)).error.None? && service(DeleteCall(b)).status in [200, 204]
  {
    R.Verdict(Some(service(DeleteCall(b))), DeleteStatuses)
  }

  /** `Del`: no request without an object path; otherwise its DELETE, accepted with 200 or 204. */
  function Del(b: Bucket, service: Service): (err: Option<Error>)
    ensures b.uri == "" ==> err == Some(NoPath)
    ensures b.uri != "" ==>
      (err.None? <==> service(ObjectCall(b, MethodDelete)).error.None? && service(ObjectCall(b, MethodDelete)).status in [200, 204])
  {
    if b.uri == "" then Some(NoPath)
    else R.Verdict(Some(service(ObjectCall(b, MethodDelete))), DeleteStatuses)
  }

  /** `File`: no request without an object path; otherwise the GET's envelope when it is a
      success. */
  function File(b: Bucket, service: Service): (r: Result<R.Envelope>)
    ensures b.uri == "" ==> r == Fail(NoPath)
    ensures b.uri != "" && r.Ok? ==> r.value == service(ObjectCall(b, MethodGet)) && r.value.error.None? && r.value.status == 200
    ensures b.uri != "" && r.Fail? ==> Some(r.error) == R.Verdict(Some(service(ObjectCall(b, MethodGet))), [])
  {
    if b.uri == "" then Fail(NoPath)
    else
      var env := service(ObjectCall(b, MethodGet));
      match R.Verdict(Some(env), [])
      case Some(e) => Fail(e)
      case None => Ok(env)
  }

  // ---- Meta ----

  predicate AllDigits(s: string) {
    forall i :: 0 <= i < |s| ==> '0' <= s[i] <= '9'
  }

  /** `strconv.ParseInt(s, 10, 64)`: an optional sign, at least one digit, within int64. */
  function ParseInt64(s: string): (r: Option<int>)
    ensures r.Some? ==> -0x8000_0000_0000_0000 <= r.value < 0x8000_0000_0000_0000
  {
    var neg := |s| > 0 && s[0] == '-';
    var digits := if |s| > 0 && (s[0] == '-' || s[0] == '+') then s[1..] else s;
    if |digits| == 0 || !AllDigits(digits) then None
    else
      var m: int := ParseDecimal(digits);
      var v := if neg then -m else m;
      if -0x8000_0000_0000_0000 <= v < 0x8000_0000_0000_0000 then Some(v) else None
  }

  /** The printed form of an int64 reads back. */
  lemma ParseInt64Decimal(n: nat)
    requires n < 0x8000_0000_0000_0000
    ensures ParseInt64(Decimal(n)) == Some(n)
    ensures ParseInt64("-" + Decimal(n)) == Some(0 - n)
  {
    DecimalRoundTrip(n);
    var d := Decimal(n);
    assert ('0' <= d[0] <= '9');
    assert ("-" + d)[1..] == d;
  }

  /** The header checks of `Meta` as evidently intended: each check in the order the code
      makes them, each missing header named as itself. */
  function MetaOfHeaders(h: map<string, string>, parseTime: TimeParser): (r: Result<FileMeta>)
    ensures r.Ok? <==>
      && "Content-Length" in h && ParseInt64(h["Content-Length"]).Some? && ParseInt64(h["Content-Length"]).value >= 0
      && "Last-Modified" in h && parseTime(HttpDateLayout, h["Last-Modified"]).Parsed?
      && "Etag" in h && "Content-Type" in h
    ensures r.Ok? ==>
      && r.value.contentLength == ParseInt64(h["Content-Length"]).value
      && r.value.time == ToUint64(parseTime(HttpDateLayout, h["Last-Modified"]).value)
      && r.value.md5 == Trim(h["Etag"], '"')
      && r.value.contentType == h["Content-Type"]
    ensures r.Fail? && r.error.MissingHeader? ==> r.error.name !in h
  {
    if "Content-Length" !in h then Fail(MissingHeader("Content-Length"))
    else match ParseInt64(h["Content-Length"])
    case None => Fail(BadContentLength(h["Content-Length"]))
    case Some(n) =>
      if n < 0 then Fail(NegativeContentLength(n))
      else if "Last-Modified" !in h then Fail(MissingHeader("Last-Modified"))
      else match parseTime(HttpDateLayout, h["Last-Modified"])
      case Malformed(cause) => Fail(BadLastModified(cause))
      case Parsed(t) =>
        if "Etag" !in h then Fail(MissingHeader("Etag"))
        else if "Content-Type" !in h then Fail(MissingHeader("Content-Type"))
        else Ok(FileMeta(n, ToUint64(t), Trim(h["Etag"], '"'), h["Content-Type"]))
  }

  /** The header checks of `Meta` as the code writes them: Content-Length, Last-Modified,
      Etag, then Content-Type, whose absence is reported as a missing Etag. It agrees with
      the intended checks everywhere else. */
  function MetaOfHeadersAsWritten(h: map<string, string>, parseTime: TimeParser): (r: Result<FileMeta>)
    ensures MetaOfHeaders(h, parseTime) != Fail(MissingHeader("Content-Type")) ==> r == MetaOfHeaders(h, parseTime)
    ensures MetaOfHeaders(h, parseTime) == Fail(MissingHeader("Content-Type")) ==> r == Fail(MissingHeader("Etag"))
  {
    if "Content-Length" !in h then Fail(MissingHeader("Content-Length"))
    else match ParseInt64(h["Content-Length"])
    case None => Fail(BadContentLength(h["Content-Length"]))
    case Some(n) =>
      if n < 0 then Fail(NegativeContentLength(n))
      else if "Last-Modified" !in h then Fail(MissingHeader("Last-Modified"))
      else match parseTime(HttpDateLayout, h["Last-Modified"])
      case Malformed(cause) => Fail(BadLastModified(cause))
      case Parsed(t) =>
        if "Etag" !in h then Fail(MissingHeader("Etag"))
        else if "Content-Type" !in h then Fail(MissingHeader("Etag"))
        else Ok(FileMeta(n, ToUint64(t), Trim(h["Etag"], '"'), h["Content-Type"]))
  }

  /** With an Etag present and no Content-Type, the code as written names the Etag. */
  lemma MetaMisreportsContentType(parseTime: TimeParser)
    requires parseTime(HttpDateLayout, "Sun, 06 Nov 1994 08:49:37 GMT").Parsed?
    ensures var h := map["Content-Length" := "0", "Last-Modified" := "Sun, 06 Nov 1994 08:49:37 GMT", "Etag" := "\"x\""];
      "Etag" in h && MetaOfHeadersAsWritten(h, parseTime) == Fail(MissingHeader("Etag"))
  {
    var h := map["Content-Length" := "0", "Last-Modified" := "Sun, 06 Nov 1994 08:49:37 GMT", "Etag" := "\"x\""];
    assert ParseInt64("0") == Some(0) by {
      assert AllDigits("0");
    }
    assert h["Content-Length"] == "0" && h["Last-Modified"] == "Sun, 06 Nov 1994 08:49:37 GMT";
    assert "Etag" in h && "Content-Type" !in h;
  }

  /** `Meta` as the code writes it: no request without an object path; the HEAD must
      succeed and its headers pass the checks as written. */
  function Meta(b: Bucket, service: Service, parseTime: TimeParser): (r: Result<FileMeta>)
    ensures b.uri == "" ==> r == Fail(NoPath)
    ensures b.uri != "" && R.Verdict(Some(service(ObjectCall(b, MethodHead))), []).Some? ==>
      r == Fail(R.Verdict(Some(service(ObjectCall(b, MethodHead))), []).value)
    ensures b.uri != "" && R.Verdict(Some(service(ObjectCall(b, MethodHead))), []).None? ==>
      r == MetaOfHeadersAsWritten(service(ObjectCall(b, MethodHead)).headers, parseTime)
  {
    if b.uri == "" then Fail(NoPath)
    else
      var env := service(ObjectCall(b, MethodHead));
      match R.Verdict(Some(env), [])
      case Some(e) => Fail(e)
      case None => MetaOfHeadersAsWritten(env.headers, parseTime)
  }

  /** `Meta` as evidently intended: the same request, with each missing header named as
      itself. */
  function MetaIntended(b: Bucket, service: Service, parseTime: TimeParser): (r: Result<FileMeta>)
    ensures b.uri == "" ==> r == Fail(NoPath)
    ensures b.uri != "" && R.Verdict(Some(service(ObjectCall(b, MethodHead))), []).Some? ==>
      r == Fail(R.Verdict(Some(service(ObjectCall(b, MethodHead))), []).value)
    ensures b.uri != "" && R.Verdict(Some(service(ObjectCall(b, MethodHead))), []).None? ==>
      r == MetaOfHeaders(service(ObjectCall(b, MethodHead)).headers, parseTime)
  {
    if b.uri == "" then Fail(NoPath)
    else
      var env := service(ObjectCall(b, MethodHead));
      match R.Verdict(Some(env), [])
      case Some(e) => Fail(e)
      case None => MetaOfHeaders(env.headers, parseTime)
  }

  /** The code and the intended `Meta` differ only where a missing Content-Type is reported
      as a missing Etag. */
  lemma MetaDiffersOnlyOnContentType(b: Bucket, service: Service, parseTime: TimeParser)
    ensures MetaIntended(b, service, parseTime) != Fail(MissingHeader("Content-Type")) ==>
      Meta(b, service, parseTime) == MetaIntended(b, service, parseTime)
    ensures b.uri == "" || R.Verdict(Some(service(ObjectCall(b, MethodHead))), []).Some? ==>
      Meta(b, service, parseTime) == MetaIntended(b, service, parseTime)
    ensures (b.uri != "" && R.Verdict(Some(service(ObjectCall(b, MethodHead))), []).None? &&
             MetaIntended(b, service, parseTime) == Fail(MissingHeader("Content-Type"))) ==>
      Meta(b, service, parseTime) == Fail(MissingHeader("Etag"))
  {
  }

  // ---- Create and copy ----

  /** `Create`: the options, then the PUT on the bucket. */
  method Create(b: Bucket, args: seq<Arg>, service: Service) returns (err: Option<Error>)
    ensures err == R.Verdict(Some(service(CreateCall(b, LastAcl(args), LastLoc(args)))), [])
  {
    var acl, loc := CreateOptions(args);
    var env := service(CreateCall(b, acl, loc));
    err := R.Verdict(Some(env), []);
  }

  /** `copy`: the destination is checked first, then the source, then the options are read
      and the PUT is sent. */
  method Copy(src: Option<Bucket>, dest: Option<Bucket>, args: seq<Arg>, service: Service) returns (err: Option<Error>)
    ensures dest.None? ==> err == Some(DestBucket)
    ensures dest.Some? && dest.value.uri == "" ==> err == Some(DestNoPath)
    ensures dest.Some? && dest.value.uri != "" && src.None? ==> err == Some(SrcBucket)
    ensures dest.Some? && dest.value.uri != "" && src.Some? && src.value.uri == "" ==> err == Some(SrcNoPath)
    ensures dest.Some? && dest.value.uri != "" && src.Some? && src.value.uri != "" ==>
      err == R.Verdict(Some(service(CopyCall(src.value, dest.value, LastAcl(args), CacheOf(args)))), [])
  {
    if dest.None? {
      return Some(DestBucket);
    }
    if dest.value.uri == "" {
      return Some(DestNoPath);
    }
    if src.None? {
      return Some(SrcBucket);
    }
    if src.value.uri == "" {
      return Some(SrcNoPath);
    }
    var acl, cache := WriteOptions(args);
    var env := service(CopyCall(src.value, dest.value, acl, cache));
    err := R.Verdict(Some(env), []);
  }

  /** The bucket `S3.Bucket` gives for a name: `New`'s result, nil on failure. */
  function Lookup(name: string): (r: Option<Bucket>)
    ensures r.Some? <==> New(name).Ok?
    ensures r.Some? ==> r.value == New(name).value
  {
    match New(name)
    case Ok(b) => Some(b)
    case Fail(_) => None
  }

  /** `CopyTo`: the options given are not passed on, so the copy is private with no cache. */
  method CopyTo(b: Bucket, dest: string, args: seq<Arg>, service: Service) returns (err: Option<Error>)
    ensures Lookup(dest).None? ==> err == Some(DestBucket)
    ensures Lookup(dest).Some? && Lookup(dest).value.uri != "" && b.uri != "" ==>
      err == R.Verdict(Some(service(CopyCall(b, Lookup(dest).value, AclPrivate, ""))), [])
  {
    err := Copy(Some(b), Lookup(dest), [], service);
  }

  /** `CopyFrom`: the options given are not passed on either. */
  method CopyFrom(b: Bucket, src: string, args: seq<Arg>, service: Service) returns (err: Option<Error>)
    ensures b.uri == "" ==> err == Some(DestNoPath)
    ensures b.uri != "" && Lookup(src).None? ==> err == Some(SrcBucket)
    ensures b.uri != "" && Lookup(src).Some? && Lookup(src).value.uri != "" ==>
      err == R.Verdict(Some(service(CopyCall(Lookup(src).value, b, AclPrivate, ""))), [])
  {
    err := Copy(Lookup(src), Some(b), [], service);
  }

  // ---- Files: the paginated listing ----

  /** One listed object as the decoder gives it. */
  datatype Content = Content(key: string, time: string, etag: string, size: nat)

  /** One decoded listing page. */
  datatype Page = Page(isTruncated: bool, nextMarker: Option<string>, contents: seq<Content>)

  /** The XML decoder of a listing body. */
  type PageDecoder = seq<R.Byte> -> Decoded<Page>

  /** The options of a listing, each nil when not given. */
  datatype Filter = Filter(prefix: Option<string>, exclude: Option<string>, limit: Option<nat>)

  /** The options and first marker `Files` takes from its optional `Where`. */
  function FilterOf(w: Option<Where>): Filter {
    match w
    case None => Filter(None, None, None)
    case Some(x) => Filter(x.PrefixStr(), x.ExcludeStr(), x.LimitNum())
  }

  function FirstMarker(w: Option<Where>): Option<string> {
    match w
    case None => None
    case Some(x) => x.NextKeyStr()
  }

  function Param(key: string, val: Option<string>): seq<(string, string)> {
    if val.Some? then [(key, val.value)] else []
  }

  /** The GET of one page: `prefix`, `marker`, `delimiter` and `max-keys`, each when set. */
  function ListCall(name: string, f: Filter, marker: Option<string>): Call {
    var limit := if f.limit.Some? then Some(Decimal(f.limit.value)) else None;
    Call(MethodGet, name, "", [], [],
      Param("prefix", f.prefix) + Param("marker", marker) + Param("delimiter", f.exclude) + Param("max-keys", limit),
      None)
  }

  /** A page request is a GET of the bucket that carries each listing option exactly when it
      is set, and nothing else. */
  lemma ListCallParams(name: string, f: Filter, marker: Option<string>)
    ensures var c := ListCall(name, f, marker);
      c.verb == MethodGet && c.bucket == name && c.uri == "" && c.xml == None && |c.params| <= 4
    ensures forall v :: ("prefix", v) in ListCall(name, f, marker).params <==> f.prefix == Some(v)
    ensures forall v :: ("marker", v) in ListCall(name, f, marker).params <==> marker == Some(v)
    ensures forall v :: ("delimiter", v) in ListCall(name, f, marker).params <==> f.exclude == Some(v)
    ensures forall v :: ("max-keys", v) in ListCall(name, f, marker).params <==> f.limit.Some? && v == Decimal(f.limit.value)
    ensures forall k, v :: (k, v) in ListCall(name, f, marker).params ==> k in ["prefix", "marker", "delimiter", "max-keys"]
  {
  }

  /** One content as a listed object: Unix time as uint64, quotes cut from the ETag. */
  function EntryOf(c: Content, t: int): (e: Entry)
    ensures e.key == c.key && e.size == c.size && e.md5 == Trim(c.etag, '"')
  {
    Entry(c.key, ToUint64(t), Trim(c.etag, '"'), c.size)
  }

  /** The objects of a page, or the first timestamp that does not parse. */
  function Convert(cs: seq<Content>, parseTime: TimeParser): (r: Decoded<seq<Entry>>)
    ensures r.Parsed? ==> |r.value| == |cs|
    decreases |cs|
  {
    if cs == [] then Parsed([])
    else
      var c := cs[|cs| - 1];
      match Convert(cs[..|cs| - 1], parseTime)
      case Malformed(cause) => Malformed(cause)
      case Parsed(es) =>
        match parseTime(ListingLayout, c.time)
        case Malformed(cause) => Malformed(cause)
        case Parsed(t) => Parsed(es + [EntryOf(c, t)])
  }

  /** A converted page lists the objects of the page in order, each with its ETag unquoted. */
  lemma {:induction false} ConvertEntries(cs: seq<Content>, parseTime: TimeParser)
    ensures Convert(cs, parseTime).Parsed? ==> forall i :: 0 <= i < |cs| ==>
      parseTime(ListingLayout, cs[i].time).Parsed? &&
      Convert(cs, parseTime).value[i] == EntryOf(cs[i], parseTime(ListingLayout, cs[i].time).value)
    decreases |cs|
  {
    if cs != [] && Convert(cs, parseTime).Parsed? {
      var init := cs[..|cs| - 1];
      ConvertEntries(init, parseTime);
      var es := Convert(init, parseTime).value;
      assert Convert(cs, parseTime).value == es + [EntryOf(cs[|cs| - 1], parseTime(ListingLayout, cs[|cs| - 1].time).value)];
      assert forall i :: 0 <= i < |init| ==> init[i] == cs[i];
    }
  }

  /** The marker after a page: the last key, replaced by `NextMarker` when the page has one. */
  function NextMarker(page: Page): (m: Option<string>)
    ensures page.nextMarker.Some? ==> m == page.nextMarker
    ensures page.nextMarker.None? && |page.contents| > 0 ==> m == Some(page.contents[|page.contents| - 1].key)
    ensures page.nextMarker.None? && |page.contents| == 0 ==> m == None
  {
    if page.nextMarker.Some? then page.nextMarker
    else if |page.contents| > 0 then Some(page.contents[|page.contents| - 1].key)
    else None
  }

  /** What a listing gives: the page requests sent, the objects and the error. */
  datatype Listing = Listing(calls: seq<Call>, files: seq<Entry>, error: Option<Error>)

  /** The outcome of one page: the loop ends with these objects and this error, or goes on
      from this marker. */
  datatype Step = Stop(files: seq<Entry>, error: Option<Error>) | More(files: seq<Entry>, next: string)

  /** One turn of the listing loop, from the objects so far and the marker. */
  function PageStep(name: string, f: Filter, service: Service, decode: PageDecoder, parseTime: TimeParser,
                    files: seq<Entry>, marker: Option<string>): Step
  {
    var env := service(ListCall(name, f, marker));
    match R.Verdict(Some(env), [])
    case Some(e) => Stop(files, Some(e))
    case None =>
      if Q.Lookup(env.headers, "Content-Type") != "application/xml" then Stop(files, Some(NotXml))
      else match decode(env.bodyBytes)
      case Malformed(cause) => Stop(files, Some(XmlFailed(cause)))
      case Parsed(page) => PageEnd(f, parseTime, files, page)
  }

  /** The end of a turn, on a decoded page: the objects are added and the loop goes on
      only without a limit, with a marker and on a truncated page. */
  function PageEnd(f: Filter, parseTime: TimeParser, files: seq<Entry>, page: Page): Step {
    match Convert(page.contents, parseTime)
    case Malformed(cause) => Stop([], Some(TimeFailed(cause)))
    case Parsed(es) =>
      var next := NextMarker(page);
      if f.limit.Some? || next.None? || !page.isTruncated then Stop(files + es, None)
      else More(files + es, next.value)
  }

  /** A turn of the loop as a function of the objects so far and the marker. */
  type Turn = (seq<Entry>, Option<string>) -> Step

  /** The turns of the listing of bucket `name` with options `f`. */
  function Turns(name: string, f: Filter, service: Service, decode: PageDecoder, parseTime: TimeParser): (t: Turn)
    ensures forall fs, m :: t(fs, m) == PageStep(name, f, service, decode, parseTime, fs, m)
  {
    (fs: seq<Entry>, m: Option<string>) => PageStep(name, f, service, decode, parseTime, fs, m)
  }

  /** The listing loop from a state (objects so far, marker), for at most `fuel` pages. */
  function ListFrom(name: string, f: Filter, turn: Turn, files: seq<Entry>, marker: Option<string>, fuel: nat): (l: Listing)
    ensures |l.calls| <= fuel
    decreases fuel
  {
    if fuel == 0 then Listing([], files, Some(OutOfFuel))
    else
      var call := ListCall(name, f, marker);
      match turn(files, marker)
      case Stop(fs, e) => Listing([call], fs, e)
      case More(fs, next) => Prepend([call], ListFrom(name, f, turn, fs, Some(next), fuel - 1))
  }

  /** One turn of the loop of `Files`, as the code runs it. */
  method ListPage(name: string, f: Filter, service: Service, decode: PageDecoder, parseTime: TimeParser,
              files: seq<Entry>, marker: Option<string>) returns (step: Step)
    ensures step == PageStep(name, f, service, decode, parseTime, files, marker)
  {
    var env := service(ListCall(name, f, marker));
    var verdict := R.Verdict(Some(env), []);
    if verdict.Some? {
      return Stop(files, verdict);
    }
    if Q.Lookup(env.headers, "Content-Type") != "application/xml" {
      return Stop(files, Some(NotXml));
    }
    var decoded := decode(env.bodyBytes);
    if decoded.Malformed? {
      return Stop(files, Some(XmlFailed(decoded.cause)));
    }
    step := EndPage(f, parseTime, files, decoded.value);
  }

  /** The content loop and the stop test of one turn. */
  method EndPage(f: Filter, parseTime: TimeParser, files: seq<Entry>, page: Page) returns (step: Step)
    ensures step == PageEnd(f, parseTime, files, page)
  {
    var entries := ConvertPage(page.contents, parseTime);
    if entries.Malformed? {
      return Stop([], Some(TimeFailed(entries.cause)));
    }
    var nextKey: Option<string> := None;
    if |page.contents| > 0 {
      nextKey := Some(page.contents[|page.contents| - 1].key);
    }
    if page.nextMarker.Some? {
      nextKey := page.nextMarker;
    }
    assert nextKey == NextMarker(page);
    if f.limit.Some? || nextKey.None? || !page.isTruncated {
      return Stop(files + entries.value, None);
    }
    step := More(files + entries.value, nextKey.value);
  }

  /** The content loop of `Files` over one page. */
  method ConvertPage(cs: seq<Content>, parseTime: TimeParser) returns (r: Decoded<seq<Entry>>)
    ensures r == Convert(cs, parseTime)
  {
    var es: seq<Entry> := [];
    for i := 0 to |cs|
      invariant Convert(cs[..i], parseTime) == Parsed(es)
    {
      assert cs[..i + 1][..i] == cs[..i];
      match parseTime(ListingLayout, cs[i].time)
      case Malformed(cause) =>
        MalformedSticks(cs, i + 1, parseTime);
        return Malformed(cause);
      case Parsed(t) =>
        es := es + [EntryOf(cs[i], t)];
    }
    assert cs[..|cs|] == cs;
    r := Parsed(es);
  }

  /** A failure in a prefix is the failure of the whole page. */
  lemma {:induction false} MalformedSticks(cs: seq<Content>, i: nat, parseTime: TimeParser)
    requires i <= |cs| && Convert(cs[..i], parseTime).Malformed?
    ensures Convert(cs, parseTime) == Convert(cs[..i], parseTime)
    decreases |cs| - i
  {
    if i < |cs| {
      assert cs[..i + 1][..i] == cs[..i];
      MalformedSticks(cs, i + 1, parseTime);
    } else {
      assert cs[..i] == cs;
    }
  }

  /** `Files`: pages are requested until one is the last, each from the marker the previous
      one left. */
  method Files(b: Bucket, w: Option<Where>, service: Service, decode: PageDecoder, parseTime: TimeParser, fuel: nat)
    returns (calls: seq<Call>, files: seq<Entry>, err: Option<Error>)
    ensures Listing(calls, files, err)
         == ListFrom(b.name, FilterOf(w), Turns(b.name, FilterOf(w), service, decode, parseTime), [], FirstMarker(w), fuel)
  {
    var f := FilterOf(w);
    ghost var turn := Turns(b.name, f, service, decode, parseTime);
    var nextKey := FirstMarker(w);
    ghost var goal := ListFrom(b.name, f, turn, [], nextKey, fuel);
    calls, files := [], [];
    var left := fuel;
    while true
      invariant goal == Prepend(calls, ListFrom(b.name, f, turn, files, nextKey, left))
      decreases left
    {
      if left == 0 {
        return calls, files, Some(OutOfFuel);
      }
      var call := ListCall(b.name, f, nextKey);
      var step := ListPage(b.name, f, service, decode, parseTime, files, nextKey);
      assert step == turn(files, nextKey);
      if step.Stop? {
        ListFromStop(b.name, f, turn, files, nextKey, left, step);
        assert calls + [call] == calls + [call] + [];
        return calls + [call], step.files, step.error;
      }
      var rem := left - 1;
      ListFromMore(b.name, f, turn, files, nextKey, left, step, rem);
      PrependTwice(calls, [call], ListFrom(b.name, f, turn, step.files, Some(step.next), rem));
      calls := calls + [call];
      files, nextKey := step.files, Some(step.next);
      left := rem;
    }
  }

  /** The listing with the requests sent before it. */
  function Prepend(calls: seq<Call>, l: Listing): Listing {
    Listing(calls + l.calls, l.files, l.error)
  }

  lemma PrependTwice(a: seq<Call>, b: seq<Call>, l: Listing)
    ensures Prepend(a, Prepend(b, l)) == Prepend(a + b, l)
  {
    assert a + (b + l.calls) == (a + b) + l.calls;
  }

  /** A turn of `ListFrom` that stops ends it. */
  lemma ListFromStop(name: string, f: Filter, turn: Turn, files: seq<Entry>, marker: Option<string>, fuel: nat, step: Step)
    requires fuel > 0 && step == turn(files, marker) && step.Stop?
    ensures ListFrom(name, f, turn, files, marker, fuel) == Listing([ListCall(name, f, marker)], step.files, step.error)
  {
  }

  /** A turn of `ListFrom` that goes on continues from the new marker with one page less. */
  lemma ListFromMore(name: string, f: Filter, turn: Turn, files: seq<Entry>, marker: Option<string>, fuel: nat, step: Step, rem: nat)
    requires rem == fuel - 1 && step == turn(files, marker) && step.More?
    ensures ListFrom(name, f, turn, files, marker, fuel)
         == Prepend([ListCall(name, f, marker)], ListFrom(name, f, turn, step.files, Some(step.next), rem))
  {
  }

  // ---- Properties of the listing ----

  /** A turn goes on exactly when the request succeeds with an XML answer, the page decodes,
      its timestamps parse, no limit is set, the page is truncated and a marker is left; it
      then goes on from that marker. */
  lemma PageStepMore(name: string, f: Filter, service: Service, decode: PageDecoder, parseTime: TimeParser,
                     files: seq<Entry>, marker: Option<string>)
    ensures var env := service(ListCall(name, f, marker));
      PageStep(name, f, service, decode, parseTime, files, marker).More? <==>
        && env.error.None? && env.status == 200
        && Q.Lookup(env.headers, "Content-Type") == "application/xml"
        && decode(env.bodyBytes).Parsed?
        && Convert(decode(env.bodyBytes).value.contents, parseTime).Parsed?
        && f.limit.None? && decode(env.bodyBytes).value.isTruncated
        && NextMarker(decode(env.bodyBytes).value).Some?
    ensures var env := service(ListCall(name, f, marker));
      var step := PageStep(name, f, service, decode, parseTime, files, marker);
      step.More? ==> Some(step.next) == NextMarker(decode(env.bodyBytes).value)
  {
  }

  /** The outcomes of one turn: a rejected status, a non-XML answer and bad XML keep the
      objects so far with the error; a bad timestamp gives no object; otherwise the page's
      objects, unquoted, are appended in order. */
  lemma PageStepOutcomes(name: string, f: Filter, service: Service, decode: PageDecoder, parseTime: TimeParser,
                         files: seq<Entry>, marker: Option<string>)
    ensures var env := service(ListCall(name, f, marker));
      R.Verdict(Some(env), []).Some? ==>
        PageStep(name, f, service, decode, parseTime, files, marker) == Stop(files, R.Verdict(Some(env), []))
    ensures var env := service(ListCall(name, f, marker));
      (R.Verdict(Some(env), []).None? && Q.Lookup(env.headers, "Content-Type") != "application/xml") ==>
        PageStep(name, f, service, decode, parseTime, files, marker) == Stop(files, Some(NotXml))
    ensures var env := service(ListCall(name, f, marker));
      (R.Verdict(Some(env), []).None? && Q.Lookup(env.headers, "Content-Type") == "application/xml" &&
       decode(env.bodyBytes).Malformed?) ==>
        PageStep(name, f, service, decode, parseTime, files, marker) == Stop(files, Some(XmlFailed(decode(env.bodyBytes).cause)))
    ensures var env := service(ListCall(name, f, marker));
      var step := PageStep(name, f, service, decode, parseTime, files, marker);
      (R.Verdict(Some(env), []).None? && Q.Lookup(env.headers, "Content-Type") == "application/xml" &&
       decode(env.bodyBytes).Parsed?) ==>
        match Convert(decode(env.bodyBytes).value.contents, parseTime)
        case Malformed(cause) => step == Stop([], Some(TimeFailed(cause)))
        case Parsed(es) => step.files == files + es && (step.Stop? ==> step.error == None)
  {
  }

  /** `fs` starts with `files`. */
  predicate Extends(files: seq<Entry>, fs: seq<Entry>) {
    |files| <= |fs| && fs[..|files|] == files
  }

  /** A result that drops every object because a timestamp did not parse. */
  predicate Dropped(fs: seq<Entry>, error: Option<Error>) {
    fs == [] && error.Some? && error.value.TimeFailed?
  }

  /** The end of a turn appends the page's objects, or drops everything. */
  lemma PageEndKeeps(f: Filter, parseTime: TimeParser, files: seq<Entry>, page: Page)
    ensures var step := PageEnd(f, parseTime, files, page);
      Extends(files, step.files) || (step.Stop? && Dropped(step.files, step.error))
  {
    match Convert(page.contents, parseTime)
    case Malformed(_) =>
    case Parsed(es) =>
      assert (files + es)[..|files|] == files;
  }

  /** Within a turn the objects found so far are kept, except that a timestamp that does not
      parse drops them all. */
  lemma PageStepKeeps(name: string, f: Filter, service: Service, decode: PageDecoder, parseTime: TimeParser,
                      files: seq<Entry>, marker: Option<string>)
    ensures var step := PageStep(name, f, service, decode, parseTime, files, marker);
      Extends(files, step.files) || (step.Stop? && Dropped(step.files, step.error))
  {
    var env := service(ListCall(name, f, marker));
    assert files[..|files|] == files;
    if R.Verdict(Some(env), []).None? && Q.Lookup(env.headers, "Content-Type") == "application/xml" && decode(env.bodyBytes).Parsed? {
      PageEndKeeps(f, parseTime, files, decode(env.bodyBytes).value);
    }
  }

  /** Every turn keeps the objects so far or drops them all. */
  ghost predicate KeepsFiles(turn: Turn) {
    forall fs, m :: Extends(fs, turn(fs, m).files) || (turn(fs, m).Stop? && Dropped(turn(fs, m).files, turn(fs, m).error))
  }

  lemma TurnsKeepFiles(name: string, f: Filter, service: Service, decode: PageDecoder, parseTime: TimeParser)
    ensures KeepsFiles(Turns(name, f, service, decode, parseTime))
  {
    var t := Turns(name, f, service, decode, parseTime);
    forall fs: seq<Entry>, m: Option<string>
      ensures Extends(fs, t(fs, m).files) || (t(fs, m).Stop? && Dropped(t(fs, m).files, t(fs, m).error))
    {
      PageStepKeeps(name, f, service, decode, parseTime, fs, m);
    }
  }

  /** The objects of earlier pages stay in the result, unless a timestamp fails to parse, in
      which case the result holds no object at all. */
  lemma {:induction false} ListFromKeeps(name: string, f: Filter, turn: Turn, files: seq<Entry>, marker: Option<string>, fuel: nat)
    requires KeepsFiles(turn)
    ensures var l := ListFrom(name, f, turn, files, marker, fuel);
      Extends(files, l.files) || Dropped(l.files, l.error)
    decreases fuel
  {
    if fuel == 0 {
      assert files[..|files|] == files;
    } else {
      var step := turn(files, marker);
      if step.More? {
        var rest := ListFrom(name, f, turn, step.files, Some(step.next), fuel - 1);
        ListFromKeeps(name, f, turn, step.files, Some(step.next), fuel - 1);
        if Extends(step.files, rest.files) {
          assert rest.files[..|files|] == step.files[..|files|];
        }
      }
    }
  }

  /** What `Files` returns keeps every object it listed before the last page, unless a
      timestamp did not parse. */
  lemma FilesKeep(name: string, f: Filter, service: Service, decode: PageDecoder, parseTime: TimeParser,
                  files: seq<Entry>, marker: Option<string>, fuel: nat)
    ensures var l := ListFrom(name, f, Turns(name, f, service, decode, parseTime), files, marker, fuel);
      Extends(files, l.files) || Dropped(l.files, l.error)
  {
    TurnsKeepFiles(name, f, service, decode, parseTime);
    ListFromKeeps(name, f, Turns(name, f, service, decode, parseTime), files, marker, fuel);
  }

  /** The first request starts from the given marker; a turn that goes on makes the next
      request start from the marker it left; a turn that stops is the only request. */
  lemma {:induction false} ListFromCalls(name: string, f: Filter, turn: Turn, files: seq<Entry>, marker: Option<string>, fuel: nat)
    requires fuel > 0
    ensures var l := ListFrom(name, f, turn, files, marker, fuel);
      |l.calls| >= 1 && l.calls[0] == ListCall(name, f, marker)
    ensures var step := turn(files, marker);
      var l := ListFrom(name, f, turn, files, marker, fuel);
      step.More? && fuel > 1 ==> |l.calls| >= 2 && l.calls[1] == ListCall(name, f, Some(step.next))
    ensures turn(files, marker).Stop? ==> ListFrom(name, f, turn, files, marker, fuel).calls == [ListCall(name, f, marker)]
    decreases fuel
  {
    var step := turn(files, marker);
    if step.More? && fuel > 1 {
      ListFromCalls(name, f, turn, step.files, Some(step.next), fuel - 1);
    }
  }

  /** With a limit, a listing is one request, and that request asks for at most `limit` keys. */
  lemma LimitOneCall(name: string, f: Filter, service: Service, decode: PageDecoder, parseTime: TimeParser,
                     files: seq<Entry>, marker: Option<string>, fuel: nat)
    requires f.limit.Some? && fuel > 0
    ensures ListFrom(name, f, Turns(name, f, service, decode, parseTime), files, marker, fuel).calls == [ListCall(name, f, marker)]
    ensures ("max-keys", Decimal(f.limit.value)) in ListCall(name, f, marker).params
  {
    PageStepMore(name, f, service, decode, parseTime, files, marker);
    ListFromCalls(name, f, Turns(name, f, service, decode, parseTime), files, marker, fuel);
    var ps := ListCall(name, f, marker).params;
    assert ps[|ps| - 1] == ("max-keys", Decimal(f.limit.value));
  }

  // ---- Clean ----

  /** `s3.Bucket(path).Del()`: a path `New` refuses gives a nil bucket, whose `Del` fails. */
  function DelPath(path: string, service: Service): Option<Error> {
    match New(path)
    case Fail(_) => Some(BadBucket)
    case Ok(t) => Del(t, service)
  }

  /** A blank path is refused without a request; any other deletes the object it names. */
  lemma DelPathOf(path: string, service: Service)
    ensures AllBlank(Split(path, '/')) ==> DelPath(path, service) == Some(BadBucket)
    ensures !AllBlank(Split(path, '/')) ==> New(path).Ok? && DelPath(path, service) == Del(New(path).value, service)
  {
    NewFailsIffBlank(path);
  }

  /** The path of every listed object: `name/key`. */
  function ObjectPaths(name: string, files: seq<Entry>): (paths: seq<string>)
    ensures |paths| == |files|
    ensures forall i :: 0 <= i < |files| ==> paths[i] == name + "/" + files[i].key
  {
    seq(|files|, i requires 0 <= i < |files| => name + "/" + files[i].key)
  }

  /** The errors of deleting the paths one after the other with `del`, each tagged with its
      path. */
  function DeleteErrors(paths: seq<string>, del: string -> Option<Error>): (errs: seq<Error>)
    ensures |errs| <= |paths|
    decreases |paths|
  {
    if paths == [] then []
    else
      var last := paths[|paths| - 1];
      DeleteErrors(paths[..|paths| - 1], del)
        + (match del(last) case None => [] case Some(e) => [DeleteFailed(last, e)])
  }

  /** No error is reported exactly when every deletion succeeds. */
  lemma {:induction false} DeleteErrorsNone(paths: seq<string>, del: string -> Option<Error>)
    ensures DeleteErrors(paths, del) == [] <==> forall i :: 0 <= i < |paths| ==> del(paths[i]).None?
    decreases |paths|
  {
    if paths != [] {
      var init := paths[..|paths| - 1];
      DeleteErrorsNone(init, del);
      assert forall i :: 0 <= i < |init| ==> init[i] == paths[i];
    }
  }

  /** Every reported error names a path of the list and carries the error its deletion gave. */
  lemma {:induction false} DeleteErrorsTagged(paths: seq<string>, del: string -> Option<Error>)
    ensures forall j :: 0 <= j < |DeleteErrors(paths, del)| ==>
      var e := DeleteErrors(paths, del)[j];
      e.DeleteFailed? && e.path in paths && del(e.path) == Some(e.inner)
    decreases |paths|
  {
    if paths != [] {
      var init := paths[..|paths| - 1];
      DeleteErrorsTagged(init, del);
      assert forall x :: x in init ==> x in paths;
    }
  }

  /** The positions of the paths whose deletion fails. */
  ghost function FailingIndices(paths: seq<string>, del: string -> Option<Error>): set<int> {
    set i | 0 <= i < |paths| && del(paths[i]).Some?
  }

  /** Every failing deletion is reported, with its path and its error. */
  lemma {:induction false} DeleteErrorsComplete(paths: seq<string>, del: string -> Option<Error>)
    ensures forall i :: 0 <= i < |paths| && del(paths[i]).Some? ==>
      DeleteFailed(paths[i], del(paths[i]).value) in DeleteErrors(paths, del)
    decreases |paths|
  {
    if paths != [] {
      var n := |paths| - 1;
      var init := paths[..n];
      DeleteErrorsComplete(init, del);
      forall i | 0 <= i < |paths| && del(paths[i]).Some?
        ensures DeleteFailed(paths[i], del(paths[i]).value) in DeleteErrors(paths, del)
      {
        if i < n {
          assert init[i] == paths[i];
        }
      }
    }
  }

  /** One error per failing deletion: as many errors as failing positions. */
  lemma {:induction false} DeleteErrorsCount(paths: seq<string>, del: string -> Option<Error>)
    ensures |DeleteErrors(paths, del)| == |FailingIndices(paths, del)|
    decreases |paths|
  {
    if paths != [] {
      var n := |paths| - 1;
      var init := paths[..n];
      DeleteErrorsCount(init, del);
      assert forall i :: 0 <= i < n ==> init[i] == paths[i];
      var tail: set<int> := if del(paths[n]).Some? then {n} else {};
      assert FailingIndices(paths, del) == FailingIndices(init, del) + tail;
      assert n !in FailingIndices(init, del);
    }
  }

  /** The errors come in the order of the paths: those of a list followed by those of the
      next. */
  lemma {:induction false} DeleteErrorsAppend(a: seq<string>, b: seq<string>, del: string -> Option<Error>)
    ensures DeleteErrors(a + b, del) == DeleteErrors(a, del) + DeleteErrors(b, del)
    decreases |b|
  {
    if b == [] {
      assert a + b == a;
    } else {
      var n := |b| - 1;
      assert (a + b)[..|a + b| - 1] == a + b[..n];
      assert (a + b)[|a + b| - 1] == b[n];
      DeleteErrorsAppend(a, b[..n], del);
    }
  }

  /** `Clean`: the listing, then one deletion per object, its errors collected; a listing
      error is the only error. */
  method Clean(b: Bucket, service: Service, decode: PageDecoder, parseTime: TimeParser, fuel: nat)
    returns (errs: seq<Error>)
    ensures var l := ListFrom(b.name, FilterOf(None), Turns(b.name, FilterOf(None), service, decode, parseTime), [], None, fuel);
      errs == if l.error.Some? then [l.error.value] else DeleteErrors(ObjectPaths(b.name, l.files), p => DelPath(p, service))
  {
    var calls, files, err := Files(b, None, service, decode, parseTime, fuel);
    if err.Some? {
      return [err.value];
    }
    var ins := Paths(b.name, files);
    errs := DeleteAll(ins, p => DelPath(p, service));
  }

  /** The paths `Clean` feeds to its workers, in the order of the listing. */
  method Paths(name: string, files: seq<Entry>) returns (ins: seq<string>)
    ensures ins == ObjectPaths(name, files)
  {
    ins := [];
    for i := 0 to |files|
      invariant |ins| == i
      invariant forall j :: 0 <= j < i ==> ins[j] == name + "/" + files[j].key
    {
      ins := ins + [name + "/" + files[i].key];
    }
  }

  /** The workers of `Clean`, run one after the other. */
  method DeleteAll(ins: seq<string>, del: string -> Option<Error>) returns (errs: seq<Error>)
    ensures errs == DeleteErrors(ins, del)
  {
    errs := [];
    for i := 0 to |ins|
      invariant errs == DeleteErrors(ins[..i], del)
    {
      assert ins[..i + 1][..i] == ins[..i];
      var e := del(ins[i]);
      if e.Some? {
        errs := errs + [DeleteFailed(ins[i], e.value)];
      }
    }
    assert ins[..|ins|] == ins;
  }
}
