/** The request builder of request/request.go and the inputs of its signature: the
    wire query, the signed (canonical) resource, the string to sign and the header set
    that is sent, plus the parts of `send` that decide what happens with an answer. */
module Request {
  import opened Errors
  import opened Strings
  import opened UrlEncode
  import opened Enum
  import R = Response

  const Host: string := "s3.amazonaws.com"

  /** The sub-resources the signed resource keeps, in the order it keeps them. */
  const SubResourceKeys: seq<string> := ["acl", "location", "torrent", "logging"]

  /** The plain headers whose values the string to sign carries, in that order. */
  const SignedHeaderKeys: seq<string> := ["Content-MD5", "Content-Type", "Date"]

  /** An in-memory body and its length in bytes. */
  datatype Data = Data(str: string, size: nat)
  /** A file body: its path and the length the caller declares. */
  datatype FileRef = FileRef(path: string, size: nat)
  datatype Payload = NoBody | Text(data: Data) | Upload(file: FileRef)

  /** What one HTTP exchange gives back: a failure of the transport (including opening
      the upload file), or a status, the multi-valued headers and the body. */
  datatype Answer =
    | Failed(cause: string)
    | Answered(status: int, raw: map<string, seq<string>>, body: seq<R.Byte>, text: string)

  /** The HTTP exchange, outside the model: method, url, headers and body in, answer out. */
  type Exchange = (string, string, map<string, string>, Payload) -> Answer

  /** The body `send` uses: the file when one is set, else the in-memory data. */
  function PayloadOf(data: Option<Data>, file: Option<FileRef>): (p: Payload)
    ensures file.Some? ==> p == Upload(file.value)
    ensures file.None? && data.Some? ==> p == Text(data.value)
    ensures p == NoBody <==> file.None? && data.None?
  {
    if file.Some? then Upload(file.value) else if data.Some? then Text(data.value) else NoBody
  }

  /** The pattern `^x-amz-.*$`: the prefix, and no line break after it (Go's `.` does not
      match `\n`, and `$` is the end of the text). */
  predicate IsAmzKey(key: string) {
    |key| >= 6 && key[..6] == "x-amz-" && '\n' !in key[6..]
  }

  /** The value `SetAmzHeader` stores: an `x-amz-` key keeps it, any other key gets it
      with `x-amz-meta-` in front. The key itself is never rewritten. */
  function AmzValue(key: string, val: string): string {
    if IsAmzKey(key) then val else "x-amz-meta-" + val
  }

  lemma AmzValueExamples()
    ensures AmzValue("x-amz-acl", "public-read") == "public-read"
    ensures AmzValue("foo", "v") == "x-amz-meta-v"
  {
    assert "x-amz-acl"[..6] == "x-amz-";
  }

  /** The `Host` header for a bucket name. */
  function HostFor(bucket: string): string {
    if bucket != "" then bucket + "." + Host else Host
  }

  /** One `key=value` query item with the value percent-encoded. */
  function Item(key: string, val: string): (r: string)
    ensures r == key + "=" + PercentEncode(val)
  {
    key + "=" + RawUrlEncode(val)
  }

  /** The items of `keys` present in `params`, in the order of `keys`. */
  function SubItems(params: map<string, string>, keys: seq<string>): (r: seq<string>)
    ensures |r| <= |keys|
    decreases |keys|
  {
    if keys == [] then []
    else
      var last := keys[|keys| - 1];
      SubItems(params, keys[..|keys| - 1]) + (if last in params then [Item(last, params[last])] else [])
  }

  /** The signed resource: `/bucket/uri` or `/uri`, and `?` with the present
      sub-resources when there are any. */
  function ResourceOf(bucket: string, uri: string, params: map<string, string>): string {
    var sepQuery := Join(SubItems(params, SubResourceKeys), '&');
    if bucket == "" && sepQuery == "" then "/" + uri
    else if bucket != "" && sepQuery == "" then "/" + bucket + "/" + uri
    else if bucket != "" then "/" + bucket + "/" + uri + "?" + sepQuery
    else "/" + uri + "?" + sepQuery
  }

  /** `SubItems` reads `params` only at `keys`. */
  lemma {:induction false} SubItemsOnlyKeys(p: map<string, string>, q: map<string, string>, keys: seq<string>)
    requires forall i :: 0 <= i < |keys| ==> (keys[i] in p <==> keys[i] in q)
    requires forall i :: 0 <= i < |keys| && keys[i] in p ==> p[keys[i]] == q[keys[i]]
    ensures SubItems(p, keys) == SubItems(q, keys)
    decreases |keys|
  {
    if keys != [] {
      SubItemsOnlyKeys(p, q, keys[..|keys| - 1]);
    }
  }

  /** Only the sub-resources reach the signed resource: dropping every other parameter
      changes nothing. */
  lemma ResourceIgnoresOtherParameters(bucket: string, uri: string, params: map<string, string>)
    ensures ResourceOf(bucket, uri, params)
         == ResourceOf(bucket, uri, map k | k in params && k in SubResourceKeys :: params[k])
  {
    var w := map k | k in params && k in SubResourceKeys :: params[k];
    SubItemsOnlyKeys(params, w, SubResourceKeys);
  }

  /** Setting a parameter that is not a sub-resource leaves the signed resource as it was. */
  lemma ResourceUnchangedByParameter(bucket: string, uri: string, params: map<string, string>, key: string, val: string)
    requires key !in SubResourceKeys
    ensures ResourceOf(bucket, uri, params[key := val]) == ResourceOf(bucket, uri, params)
  {
    SubItemsOnlyKeys(params[key := val], params, SubResourceKeys);
  }

  /** The item of one key when it is present. */
  function SubItem(params: map<string, string>, key: string): seq<string> {
    if key in params then [Item(key, params[key])] else []
  }

  lemma SubItemsSnoc(p: map<string, string>, ks: seq<string>, k: string)
    ensures SubItems(p, ks + [k]) == SubItems(p, ks) + SubItem(p, k)
  {
    assert (ks + [k])[..|ks|] == ks;
    assert (ks + [k])[|ks|] == k;
  }

  /** The signed sub-resources: the present ones among the four, in the fixed order. */
  lemma SubItemsWhitelist(p: map<string, string>)
    ensures SubItems(p, SubResourceKeys)
         == SubItem(p, "acl") + SubItem(p, "location") + SubItem(p, "torrent") + SubItem(p, "logging")
  {
    var k1: seq<string> := ["acl"];
    var k2 := k1 + ["location"];
    var k3 := k2 + ["torrent"];
    var k4 := k3 + ["logging"];
    assert k4 == SubResourceKeys;
    SubItemsSnoc(p, [], "acl");
    assert [] + ["acl"] == k1;
    SubItemsSnoc(p, k1, "location");
    SubItemsSnoc(p, k2, "torrent");
    SubItemsSnoc(p, k3, "logging");
  }

  /** The four items of a parameter map that holds every sub-resource. */
  function AllSubItems(p: map<string, string>): seq<string>
    requires "acl" in p && "location" in p && "torrent" in p && "logging" in p
  {
    [Item("acl", p["acl"]), Item("location", p["location"]), Item("torrent", p["torrent"]), Item("logging", p["logging"])]
  }

  lemma SubItemsOfAll(p: map<string, string>)
    requires "acl" in p && "location" in p && "torrent" in p && "logging" in p
    ensures SubItems(p, SubResourceKeys) == AllSubItems(p)
  {
    SubItemsWhitelist(p);
  }

  /** The whole whitelist is signed in its fixed order, whatever else is set. */
  lemma ResourceWithAllSubResources(bucket: string, uri: string, p: map<string, string>)
    requires bucket != ""
    requires "acl" in p && "location" in p && "torrent" in p && "logging" in p
    ensures ResourceOf(bucket, uri, p) == "/" + bucket + "/" + uri + "?" + Join(AllSubItems(p), '&')
  {
    SubItemsOfAll(p);
    var xs := AllSubItems(p);
    JoinStartsWith(xs, '&');
    assert |xs[0]| > 0;
  }

  /** `{prefix: x}` signs `/b/k`; `{acl: ""}` signs `/b/k?acl=`; an empty uri signs `/b/`. */
  lemma ResourceExamples()
    ensures ResourceOf("b", "k", map["prefix" := "x"]) == "/b/k"
    ensures ResourceOf("b", "k", map["acl" := ""]) == "/b/k?acl="
    ensures ResourceOf("b", "", map[]) == "/b/"
    ensures ResourceOf("", "k", map[]) == "/k"
  {
    SubItemsWhitelist(map["prefix" := "x"]);
    SubItemsWhitelist(map["acl" := ""]);
    SubItemsWhitelist(map[]);
    assert PercentEncode("") == "";
    assert Item("acl", "") == "acl=";
  }

  // ---- The wire query ----

  /** `queries` holds one item per parameter, in the (unspecified) order `order` of the
      map's keys. */
  ghost predicate QueryInOrder(queries: seq<string>, order: seq<string>, params: map<string, string>) {
    && |order| == |queries|
    && (forall i :: 0 <= i < |order| ==> order[i] in params && queries[i] == Item(order[i], params[order[i]]))
    && (forall i, j :: 0 <= i < j < |order| ==> order[i] != order[j])
    && (forall k :: k in params ==> k in order)
  }

  /** The uri with the query, when there is one. */
  function WireUri(uri: string, queries: seq<string>): string {
    var query := Join(queries, '&');
    if query != "" then uri + "?" + query else uri
  }

  function Url(useSSL: bool, host: string, wireUri: string): string {
    (if useSSL then "https" else "http") + "://" + host + "/" + wireUri
  }

  lemma {:induction false} JoinStartsWith(xs: seq<string>, sep: char)
    requires |xs| > 0
    ensures |Join(xs, sep)| >= |xs[0]| && Join(xs, sep)[..|xs[0]|] == xs[0]
  {
    if |xs| > 1 {
      var j := Join(xs, sep);
      assert j == xs[0] + ([sep] + Join(xs[1..], sep));
    }
  }

  /** The wire uri carries `?` exactly when some parameter is set. */
  lemma WireUriQuery(uri: string, queries: seq<string>, order: seq<string>, params: map<string, string>)
    requires QueryInOrder(queries, order, params)
    ensures |params| == 0 ==> WireUri(uri, queries) == uri
    ensures |params| > 0 ==> WireUri(uri, queries) == uri + "?" + Join(queries, '&')
  {
    if |params| > 0 {
      JoinStartsWith(queries, '&');
      assert |queries[0]| > 0;
    }
  }

  // ---- Headers and the string to sign ----

  /** The entries of a map whose value is not empty. */
  function NonEmpty(m: map<string, string>): (r: map<string, string>)
    ensures forall k :: k in r <==> k in m && m[k] != ""
    ensures forall k :: k in r ==> r[k] == m[k]
  {
    map k | k in m && m[k] != "" :: m[k]
  }

  /** The header set `makeHeader` returns: the non-empty amz headers, overlaid by the
      non-empty plain headers, and the Authorization value. */
  function SentHeaders(amz: map<string, string>, headers: map<string, string>, auth: string): map<string, string> {
    (NonEmpty(amz) + NonEmpty(headers))["Authorization" := auth]
  }

  /** The values of `keys` that `headers` holds, in the order of `keys`. */
  function Present(headers: map<string, string>, keys: seq<string>): (r: seq<string>)
    ensures |r| <= |keys|
    decreases |keys|
  {
    if keys == [] then []
    else
      var last := keys[|keys| - 1];
      Present(headers, keys[..|keys| - 1]) + (if last in headers then [headers[last]] else [])
  }

  /** The three signed plain headers are always there (`New` puts them in), so their
      values come in that order. */
  lemma PresentSigned(headers: map<string, string>)
    requires forall k :: k in SignedHeaderKeys ==> k in headers
    ensures Present(headers, SignedHeaderKeys) == [headers["Content-MD5"], headers["Content-Type"], headers["Date"]]
  {
    var ks := SignedHeaderKeys;
    assert ks[..2][..1][..0] == [];
    assert ks[..1] == ["Content-MD5"] && ks[..2] == ["Content-MD5", "Content-Type"];
  }

  /** The signed line of one amz header. */
  function AmzLine(key: string, val: string): string {
    Lower(key) + ":" + val
  }

  function AmzTokens(key: string, val: string): seq<string> {
    if val != "" then [AmzLine(key, val)] else []
  }

  /** The amz lines of the keys `ks`, in some order of the keys. */
  ghost function AmzLines(m: map<string, string>, ks: set<string>): seq<string>
    requires ks <= m.Keys
    decreases ks
  {
    if ks == {} then []
    else var k :| k in ks; AmzTokens(k, m[k]) + AmzLines(m, ks - {k})
  }

  /** Any key can be taken first: the multiset of lines does not depend on the order. */
  lemma {:induction false} AmzLinesRemove(m: map<string, string>, ks: set<string>, k: string)
    requires ks <= m.Keys && k in ks
    ensures multiset(AmzLines(m, ks)) == multiset(AmzTokens(k, m[k])) + multiset(AmzLines(m, ks - {k}))
    decreases ks
  {
    var j :| j in ks && AmzLines(m, ks) == AmzTokens(j, m[j]) + AmzLines(m, ks - {j});
    if j != k {
      AmzLinesRemove(m, ks - {j}, k);
      AmzLinesRemove(m, ks - {k}, j);
      assert ks - {j} - {k} == ks - {k} - {j};
    }
  }

  /** The amz lines of the string to sign: the non-empty amz headers, lower-cased key,
      sorted ascending. */
  ghost function CanonicalAmz(m: map<string, string>): (r: seq<string>)
    ensures Sorted(r)
  {
    Sort(AmzLines(m, m.Keys))
  }

  lemma {:induction false} AmzLinesMembers(m: map<string, string>, ks: set<string>)
    requires ks <= m.Keys
    ensures forall k :: k in ks && m[k] != "" ==> AmzLine(k, m[k]) in AmzLines(m, ks)
    ensures forall x :: x in AmzLines(m, ks) ==> exists k :: k in ks && m[k] != "" && x == AmzLine(k, m[k])
    decreases ks
  {
    if ks != {} {
      var j :| j in ks && AmzLines(m, ks) == AmzTokens(j, m[j]) + AmzLines(m, ks - {j});
      AmzLinesMembers(m, ks - {j});
      forall k | k in ks && m[k] != "" ensures AmzLine(k, m[k]) in AmzLines(m, ks) {
        if k == j {
          assert AmzTokens(j, m[j]) == [AmzLine(k, m[k])];
        } else {
          assert k in ks - {j};
        }
      }
      forall x | x in AmzLines(m, ks) ensures exists k :: k in ks && m[k] != "" && x == AmzLine(k, m[k]) {
        if x in AmzTokens(j, m[j]) {
          assert m[j] != "" && x == AmzLine(j, m[j]);
        } else {
          assert x in AmzLines(m, ks - {j});
          var k :| k in ks - {j} && m[k] != "" && x == AmzLine(k, m[k]);
          assert k in ks;
        }
      }
    }
  }

  /** Every non-empty amz header signs one line, and nothing else is signed as one. */
  lemma CanonicalAmzMembers(m: map<string, string>)
    ensures forall k :: k in m && m[k] != "" ==> AmzLine(k, m[k]) in CanonicalAmz(m)
    ensures forall x :: x in CanonicalAmz(m) ==> exists k :: k in m && m[k] != "" && x == AmzLine(k, m[k])
  {
    AmzLinesMembers(m, m.Keys);
    var l := AmzLines(m, m.Keys);
    assert forall x :: x in l <==> x in multiset(l);
    assert forall x :: x in CanonicalAmz(m) <==> x in multiset(CanonicalAmz(m));
  }

  /** The string to sign: the method, the three signed plain headers, the sorted amz
      lines and the resource, joined by newlines. */
  ghost function StringToSign(verb: int, headers: map<string, string>, amz: map<string, string>, resource: string): string {
    Join([MethodStr(verb)] + Present(headers, SignedHeaderKeys) + CanonicalAmz(amz) + [resource], '\n')
  }

  /** On a request as `New` builds it, the string to sign starts with the method and the
      Content-MD5, Content-Type and Date values, empty or not. */
  lemma StringToSignForm(verb: int, headers: map<string, string>, amz: map<string, string>, resource: string)
    requires forall k :: k in SignedHeaderKeys ==> k in headers
    ensures StringToSign(verb, headers, amz, resource)
         == Join([MethodStr(verb), headers["Content-MD5"], headers["Content-Type"], headers["Date"]] + CanonicalAmz(amz) + [resource], '\n')
  {
    PresentSigned(headers);
    assert [MethodStr(verb)] + Present(headers, SignedHeaderKeys)
        == [MethodStr(verb), headers["Content-MD5"], headers["Content-Type"], headers["Date"]];
  }

  /** The headers sent: Authorization always; any other key exactly when it has a non-empty
      plain or amz value, the plain one winning. */
  lemma SentHeadersContents(amz: map<string, string>, headers: map<string, string>, auth: string)
    ensures "Authorization" in SentHeaders(amz, headers, auth) && SentHeaders(amz, headers, auth)["Authorization"] == auth
    ensures forall k :: k != "Authorization" ==>
      (k in SentHeaders(amz, headers, auth) <==> (k in headers && headers[k] != "") || (k in amz && amz[k] != ""))
    ensures forall k :: k != "Authorization" && k in headers && headers[k] != "" ==> SentHeaders(amz, headers, auth)[k] == headers[k]
    ensures forall k :: k != "Authorization" && k in amz && amz[k] != "" && (k !in headers || headers[k] == "") ==>
      SentHeaders(amz, headers, auth)[k] == amz[k]
  {
  }

  // ---- What send does with an answer ----

  /** `send` follows an answer with status 307 that names a `Location`. */
  function RedirectTarget(env: R.Envelope): (r: Option<string>)
    ensures r.Some? <==> env.status == 307 && "Location" in env.headers
  {
    if env.status == 307 && "Location" in env.headers then Some(env.headers["Location"]) else None
  }

  /** The envelope `send` leaves, hop by hop, for at most `fuel` exchanges: a transport
      failure is recorded on a cleared envelope; an answer is recorded and, when it is a
      redirect, the same headers go to the new location on a reset envelope. */
  function Deliver(exchange: Exchange, verb: string, payload: Payload, url: string,
                   hs: map<string, string>, fuel: nat): R.Envelope
    decreases fuel
  {
    if fuel == 0 then R.Cleared.(error := Some(OutOfFuel))
    else match exchange(verb, url, hs, payload)
      case Failed(cause) => R.Cleared.(error := Some(Transport(cause)))
      case Answered(status, raw, body, text) =>
        var env := R.Envelope(status % 0x1_0000, body, text, None, R.Collapse(raw));
        match RedirectTarget(env)
        case None => env
        case Some(location) => Deliver(exchange, verb, payload, location, hs, fuel - 1)
  }

  /** A transport failure takes precedence: no status is recorded with it. */
  lemma DeliverFailure(exchange: Exchange, verb: string, payload: Payload, url: string,
                       hs: map<string, string>, fuel: nat)
    requires fuel > 0 && exchange(verb, url, hs, payload).Failed?
    ensures Deliver(exchange, verb, payload, url, hs, fuel).error.Some?
    ensures Deliver(exchange, verb, payload, url, hs, fuel).status == 0
  {
  }

  // ---- The redirect callback of the HTTP client ----

  type Header = map<string, seq<string>>

  datatype Decision = Refuse(error: Error) | Follow(header: Header)

  /** `CheckRedirect`: refuse once 10 requests are in the chain; otherwise the next request
      gets the headers of the first one. */
  function CheckRedirect(next: Header, vias: seq<Header>): (d: Decision)
    ensures d.Refuse? <==> |vias| >= 10
    ensures d.Refuse? ==> d.error == TooManyRedirects
    ensures |vias| == 0 ==> d == Follow(next)
    ensures 0 < |vias| < 10 ==> d == Follow(vias[0])
  {
    if |vias| >= 10 then Refuse(TooManyRedirects)
    else if |vias| == 0 then Follow(next)
    else Follow(vias[0])
  }

  /** The client facing a server that answers every request with a redirect: the headers of
      the requests sent, and the error the chain ends with. */
  function RedirectForever(vias: seq<Header>, nextHdr: Header): (seq<Header>, Error)
    requires |vias| >= 1
    decreases 10 - |vias|
  {
    match CheckRedirect(nextHdr, vias)
    case Refuse(e) => (vias, e)
    case Follow(h) => RedirectForever(vias + [h], nextHdr)
  }

  lemma {:induction false} RedirectForeverFrom(vias: seq<Header>, first: Header, nextHdr: Header)
    requires 1 <= |vias| <= 10
    requires forall i :: 0 <= i < |vias| ==> vias[i] == first
    ensures |RedirectForever(vias, nextHdr).0| == 10
    ensures forall i :: 0 <= i < 10 ==> RedirectForever(vias, nextHdr).0[i] == first
    ensures RedirectForever(vias, nextHdr).1 == TooManyRedirects
    decreases 10 - |vias|
  {
    if |vias| < 10 {
      RedirectForeverFrom(vias + [vias[0]], first, nextHdr);
    }
  }

  /** Against a server that always redirects, the chain stops with "too many redirects"
      after exactly 10 requests, each carrying the first request's headers. */
  lemma RedirectBound(first: Header, nextHdr: Header)
    ensures |RedirectForever([first], nextHdr).0| == 10
    ensures forall i :: 0 <= i < 10 ==> RedirectForever([first], nextHdr).0[i] == first
    ensures RedirectForever([first], nextHdr).1 == TooManyRedirects
  {
    RedirectForeverFrom([first], first, nextHdr);
  }

  // ---- Lengths and lookups ----

  /** `len` of a Go string: its length in UTF-8 bytes. */
  function ByteLength(s: string): (n: nat)
    ensures n >= |s|
    ensures (forall i :: 0 <= i < |s| ==> s[i] as int < 128) ==> n == |s|
  {
    if s == [] then 0 else |Utf8(s[0])| + ByteLength(s[1..])
  }

  /** A Go map lookup: the zero value for a missing key. */
  function Lookup(m: map<string, string>, key: string): (v: string)
    ensures key in m ==> v == m[key]
    ensures key !in m ==> v == ""
  {
    if key in m then m[key] else ""
  }

  class Request {
    /** The signer of the instance the request belongs to. */
    const sign: string -> string
    var verb: int
    var uri: string
    var bucket: string
    var data: Option<Data>
    var file: Option<FileRef>
    var parameters: map<string, string>
    var useSSL: bool
    var headers: map<string, string>
    var amzHeaders: map<string, string>

    /** What every builder keeps: no empty parameter key, and the four headers `New`
        puts in are still there. */
    ghost predicate Valid()
      reads this
    {
      && "" !in parameters
      && "Host" in headers
      && (forall k :: k in SignedHeaderKeys ==> k in headers)
    }

    /** The request `New` returns, dated `date` (the current time in GMT, formatted). */
    constructor (signer: string -> string, date: string)
      ensures Valid()
      ensures sign == signer && verb == MethodGet && uri == "" && bucket == ""
      ensures data == None && file == None && parameters == map[] && !useSSL && amzHeaders == map[]
      ensures headers == map["Host" := Host, "Date" := date, "Content-MD5" := "", "Content-Type" := ""]
    {
      sign := signer;
      verb := MethodGet;
      uri := "";
      bucket := "";
      data := None;
      file := None;
      parameters := map[];
      useSSL := false;
      headers := map["Host" := Host, "Date" := date, "Content-MD5" := "", "Content-Type" := ""];
      amzHeaders := map[];
    }

    /** `New`: no request without an instance to sign it. */
    static method New(signer: Option<string -> string>, date: string) returns (r: Request?)
      ensures r == null <==> signer.None?
      ensures r != null ==> fresh(r) && r.Valid() && r.sign == signer.value
      ensures r != null ==> r.verb == MethodGet && r.uri == "" && r.bucket == "" && r.data == None && r.file == None
      ensures r != null ==> r.parameters == map[] && !r.useSSL && r.amzHeaders == map[]
      ensures r != null ==> r.headers == map["Host" := Host, "Date" := date, "Content-MD5" := "", "Content-Type" := ""]
    {
      if signer.None? {
        return null;
      }
      r := new Request(signer.value, date);
    }

    /** `SetHeader`: an empty value is ignored. */
    method SetHeader(key: string, val: string)
      modifies this`headers
      ensures headers == if val != "" then old(headers)[key := val] else old(headers)
      ensures old(Valid()) ==> Valid()
    {
      if val != "" {
        headers := headers[key := val];
      }
    }

    /** `SetAmzHeader`: every value is stored, an empty one too; see `AmzValue`. */
    method SetAmzHeader(key: string, val: string)
      modifies this`amzHeaders
      ensures amzHeaders == old(amzHeaders)[key := AmzValue(key, val)]
    {
      amzHeaders := amzHeaders[key := AmzValue(key, val)];
    }

    /** `SetXML`: the body and its byte length, and the XML content type. */
    method SetXML(str: string)
      modifies this`data, this`headers
      ensures data == Some(Data(str, ByteLength(str)))
      ensures headers == old(headers)["Content-Type" := "application/xml"]
      ensures old(Valid()) ==> Valid()
    {
      data := Some(Data(str, ByteLength(str)));
      SetHeader("Content-Type", "application/xml");
    }

    method SetFile(path: string, size: nat)
      modifies this`file
      ensures file == Some(FileRef(path, size))
    {
      file := Some(FileRef(path, size));
    }

    /** `Parameter`: an empty key is ignored. */
    method Parameter(key: string, val: string)
      modifies this`parameters
      ensures parameters == if key != "" then old(parameters)[key := val] else old(parameters)
      ensures old(Valid()) ==> Valid()
    {
      if key != "" {
        parameters := parameters[key := val];
      }
    }

    /** `Uri`: the encoded path; an empty argument leaves the path as it was. */
    method Uri(path: string)
      modifies this`uri
      ensures uri == if path != "" then UriPath(path) else old(uri)
    {
      if path != "" {
        uri := UriPath(path);
      }
    }

    /** `Bucket`: the lower-cased name, and the virtual-host `Host` header. */
    method Bucket(name: string)
      modifies this`bucket, this`headers
      ensures bucket == Lower(name)
      ensures headers == old(headers)["Host" := HostFor(Lower(name))]
      ensures old(Valid()) ==> Valid()
    {
      bucket := Lower(name);
      if bucket != "" {
        headers := headers["Host" := bucket + "." + Host];
      } else {
        headers := headers["Host" := Host];
      }
    }

    method Method(m: int)
      modifies this`verb
      ensures verb == m
    {
      verb := m;
    }

    method UseSSL(on: bool)
      modifies this`useSSL
      ensures useSSL == on
    {
      useSSL := on;
    }

    /** The wire query of `Response`: one item per parameter, in map order. */
    method BuildQuery() returns (queries: seq<string>, ghost order: seq<string>)
      ensures QueryInOrder(queries, order, parameters)
    {
      queries := [];
      order := [];
      var params := parameters;
      var todo := params.Keys;
      while todo != {}
        invariant todo <= params.Keys
        invariant |order| == |queries|
        invariant forall i :: 0 <= i < |order| ==> order[i] in params && order[i] !in todo
        invariant forall i :: 0 <= i < |order| ==> queries[i] == Item(order[i], params[order[i]])
        invariant forall i, j :: 0 <= i < j < |order| ==> order[i] != order[j]
        invariant forall k :: k in params ==> k in order || k in todo
        decreases todo
      {
        var key :| key in todo;
        var item := Item(key, params[key]);
        queries := queries + [item];
        order := order + [key];
        todo := todo - {key};
      }
    }

    /** The signed resource of `Response`: the sub-resource scan and the four cases. */
    method BuildResource() returns (resource: string)
      ensures resource == ResourceOf(bucket, uri, parameters)
    {
      var sepQueries: seq<string> := [];
      var keys := SubResourceKeys;
      for i := 0 to |keys|
        invariant sepQueries == SubItems(parameters, keys[..i])
      {
        assert keys[..i + 1][..i] == keys[..i];
        if keys[i] in parameters {
          sepQueries := sepQueries + [Item(keys[i], parameters[keys[i]])];
        }
      }
      assert keys[..|keys|] == keys;
      var sepQuery := Join(sepQueries, '&');
      if bucket == "" && sepQuery == "" {
        resource := "/" + uri;
      } else if bucket != "" && sepQuery == "" {
        resource := "/" + bucket + "/" + uri;
      } else if bucket != "" {
        resource := "/" + bucket + "/" + uri + "?" + sepQuery;
      } else {
        resource := "/" + uri + "?" + sepQuery;
      }
    }

    /** One `range` loop of `makeHeader`: the non-empty entries of `m` written over `h`. */
    static method Overlay(h: map<string, string>, m: map<string, string>) returns (r: map<string, string>)
      ensures r == h + NonEmpty(m)
    {
      r := h;
      var todo := m.Keys;
      ghost var done: set<string> := {};
      while todo != {}
        invariant todo + done == m.Keys && todo !! done
        invariant r == h + map k | k in done && m[k] != "" :: m[k]
        decreases todo
      {
        var key :| key in todo;
        if m[key] != "" {
          r := r[key := m[key]];
        }
        todo := todo - {key};
        done := done + {key};
      }
    }

    /** The first tokens of the string to sign: the method and the signed header values. */
    method SignedTokens() returns (tokens: seq<string>)
      ensures tokens == [MethodStr(verb)] + Present(headers, SignedHeaderKeys)
    {
      tokens := [MethodStr(verb)];
      var keys := SignedHeaderKeys;
      for i := 0 to |keys|
        invariant tokens == [MethodStr(verb)] + Present(headers, keys[..i])
      {
        assert keys[..i + 1][..i] == keys[..i];
        if keys[i] in headers {
          tokens := tokens + [headers[keys[i]]];
        }
      }
      assert keys[..|keys|] == keys;
    }

    /** The amz lines in map order, then sorted. */
    static method SortedAmz(amz: map<string, string>) returns (amzs: seq<string>)
      ensures amzs == CanonicalAmz(amz)
    {
      amzs := [];
      var todo := amz.Keys;
      while todo != {}
        invariant todo <= amz.Keys
        invariant multiset(amzs) + multiset(AmzLines(amz, todo)) == multiset(AmzLines(amz, amz.Keys))
        decreases todo
      {
        var key :| key in todo;
        AmzLinesRemove(amz, todo, key);
        if amz[key] != "" {
          amzs := amzs + [Lower(key) + ":" + amz[key]];
        }
        todo := todo - {key};
      }
      assert AmzLines(amz, {}) == [];
      SortByMultiset(amzs, AmzLines(amz, amz.Keys));
      if |amzs| > 0 {
        amzs := Sort(amzs);
      }
    }

    /** `makeHeader`: the non-empty headers to send and the Authorization value signed
        over the string to sign. */
    method MakeHeader(resource: string) returns (sent: map<string, string>)
      ensures sent == SentHeaders(amzHeaders, headers, sign(StringToSign(verb, headers, amzHeaders, resource)))
    {
      var h := Overlay(map[], amzHeaders);
      h := Overlay(h, headers);
      assert h == NonEmpty(amzHeaders) + NonEmpty(headers);
      var tokens := SignedTokens();
      var amzs := SortedAmz(amzHeaders);
      sent := h["Authorization" := sign(Join(tokens + amzs + [resource], '\n'))];
    }

    /** `send`: one exchange, and a new one at the `Location` of a 307 answer, with the
        same headers, on the reset envelope. */
    method Send(exchange: Exchange, url: string, hs: map<string, string>, resp: R.Response, fuel: nat)
      requires resp.Snapshot() == R.Cleared
      modifies resp
      ensures resp.Snapshot() == Deliver(exchange, MethodStr(verb), PayloadOf(data, file), url, hs, fuel)
      decreases fuel
    {
      if fuel == 0 {
        resp.GG(OutOfFuel);
        return;
      }
      var payload := PayloadOf(data, file);
      var answer := exchange(MethodStr(verb), url, hs, payload);
      match answer {
        case Failed(cause) =>
          resp.GG(Transport(cause));
        case Answered(status, raw, body, text) =>
          resp.Record(status, raw, body, text);
          if resp.statusCode != 307 || "Location" !in resp.headers {
            return;
          }
          var location := resp.headers["Location"];
          resp.Reset();
          Send(exchange, location, hs, resp, fuel - 1);
      }
    }

    /** `Response`: the wire url with the query, the signed resource and headers, and the
        envelope `send` leaves. */
    method Response(exchange: Exchange, fuel: nat)
      returns (resp: R.Response, url: string, queries: seq<string>, ghost order: seq<string>, sent: map<string, string>)
      ensures fresh(resp)
      ensures QueryInOrder(queries, order, parameters)
      ensures url == Url(useSSL, Lookup(headers, "Host"), WireUri(uri, queries))
      ensures sent == SentHeaders(amzHeaders, headers, sign(StringToSign(verb, headers, amzHeaders, ResourceOf(bucket, uri, parameters))))
      ensures resp.Snapshot() == Deliver(exchange, MethodStr(verb), PayloadOf(data, file), url, sent, fuel)
    {
      resp := new R.Response();
      queries, order := BuildQuery();
      var wire := uri;
      var query := Join(queries, '&');
      if query != "" {
        wire := uri + "?" + query;
      }
      var resource := BuildResource();
      var protocol := "http";
      if useSSL {
        protocol := "https";
      }
      url := protocol + "://" + Lookup(headers, "Host") + "/" + wire;
      sent := MakeHeader(resource);
      Send(exchange, url, sent, resp, fuel);
    }
  }
}
