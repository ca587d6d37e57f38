/** The client object of s3.go: the registry of instances by credentials, the
    `Authorization` signature, and the service-level calls `Test`, `Info`, `Buckets` and
    `Bucket` that go to the bucket-less root of the service. */
module S3 {
  import opened Errors
  import opened Strings
  import opened Enum
  import R = Response
  import Q = Request
  import B = Bucket

  // ---- The registry ----

  /** The MD5 digest of a string, as lower-case hex (`md5.Sum` and `hex.EncodeToString`). */
  type Digest = string -> string

  /** The registry key of a pair of credentials: the digest of `access_secret`. */
  function Key(digest: Digest, access: string, secret: string): string {
    digest(access + "_" + secret)
  }

  /** The key reads the credentials only through the text `access_secret`. */
  lemma KeyOfText(digest: Digest, a1: string, s1: string, a2: string, s2: string)
    requires a1 + "_" + s1 == a2 + "_" + s2
    ensures Key(digest, a1, s1) == Key(digest, a2, s2)
  {
  }

  /** So `("a_b", "c")` and `("a", "b_c")` have one key, and share one instance. */
  lemma KeyCollision(digest: Digest)
    ensures Key(digest, "a_b", "c") == Key(digest, "a", "b_c")
    ensures ("a_b", "c") != ("a", "b_c")
  {
    KeyOfText(digest, "a_b", "c", "a", "b_c");
  }

  /** An instance (`S3`): its credentials never change. */
  class Client {
    const access: string
    const secret: string

    constructor (access: string, secret: string)
      ensures this.access == access && this.secret == secret
    {
      this.access := access;
      this.secret := secret;
    }
  }

  /** The package-level `_instances` map. */
  class Registry {
    const digest: Digest
    var instances: map<string, Client>

    /** Every instance sits under the key of the credentials it was made with. */
    ghost predicate Valid()
      reads this, instances.Values
    {
      forall k :: k in instances ==> k == Key(digest, instances[k].access, instances[k].secret)
    }

    constructor (digest: Digest)
      ensures Valid() && this.digest == digest && instances == map[]
    {
      this.digest := digest;
      instances := map[];
    }

    /** `Instance`: the instance already under the key of the credentials, or a new one
        added under it; no entry is ever replaced or removed. */
    method Instance(access: string, secret: string) returns (c: Client)
      requires Valid()
      modifies this`instances
      ensures Valid()
      ensures Key(digest, access, secret) in instances && c == instances[Key(digest, access, secret)]
      ensures Key(digest, access, secret) in old(instances) ==> instances == old(instances)
      ensures Key(digest, access, secret) !in old(instances) ==>
        fresh(c) && c.access == access && c.secret == secret &&
        instances == old(instances)[Key(digest, access, secret) := c]
      ensures forall k :: k in old(instances) ==> k in instances && instances[k] == old(instances)[k]
    {
      var key := Key(digest, access, secret);
      if key in instances {
        return instances[key];
      }
      c := new Client(access, secret);
      instances := instances[key := c];
    }
  }

  // ---- The signature ----

  /** The HMAC-SHA1 of a text under a key, base64-encoded. */
  type Mac = (string, string) -> string

  /** `Signature`: empty for a nil instance, else `AWS access:mac`, the mac being that of
      the string to sign under the secret. */
  function Signature(s: Client?, str: string, mac: Mac): (sig: string)
    ensures s == null <==> sig == ""
  {
    if s == null then "" else "AWS " + s.access + ":" + mac(s.secret, str)
  }

  /** The signer a request of an instance uses. */
  function Signer(s: Client?, mac: Mac): string -> string {
    str => Signature(s, str, mac)
  }

  /** Reads an `Authorization` value back: the access key up to the first `:`, then
      the mac. */
  function ParseAuthorization(h: string): Option<(string, string)> {
    if |h| >= 4 && h[..4] == "AWS " then
      var parts := Split(h[4..], ':');
      Some((parts[0], Join(parts[1..], ':')))
    else None
  }

  /** The signature of an instance whose access key has no `:` reads back as that key
      and the mac of the string to sign. */
  lemma SignatureRoundTrip(s: Client, str: string, mac: Mac)
    requires ':' !in s.access
    ensures ParseAuthorization(Signature(s, str, mac)) == Some((s.access, mac(s.secret, str)))
  {
    var m := mac(s.secret, str);
    var sig := Signature(s, str, mac);
    assert sig[..4] == "AWS ";
    assert sig[4..] == s.access + [':'] + m;
    SplitAt(s.access, m, ':');
    JoinSplit(m, ':');
  }

  // ---- The root of the service ----

  /** The headers `Request.New` starts with. */
  function RootHeaders(date: string): map<string, string> {
    map["Host" := Q.Host, "Date" := date, "Content-MD5" := "", "Content-Type" := ""]
  }

  /** The url of the root over TLS. */
  const RootUrl: string := "https://" + Q.Host + "/"

  /** The headers the root request sends: `Host`, `Date` and `Authorization`. */
  ghost function RootSent(signer: string -> string, date: string): map<string, string> {
    Q.SentHeaders(map[], RootHeaders(date), signer(Q.StringToSign(MethodGet, RootHeaders(date), map[], "/")))
  }

  /** The envelope of `New(s3).Method(GET).UseSSL(true).Response()`. */
  ghost function RootEnvelope(exchange: Q.Exchange, signer: string -> string, date: string, fuel: nat): R.Envelope {
    Q.Deliver(exchange, "GET", Q.NoBody, RootUrl, RootSent(signer, date), fuel)
  }

  /** The request to the root: a GET of `/` over TLS with no parameters, signed over the
      resource `/`. */
  method Root(signer: string -> string, exchange: Q.Exchange, date: string, fuel: nat) returns (env: R.Envelope)
    ensures env == RootEnvelope(exchange, signer, date, fuel)
  {
    var req := new Q.Request(signer, date);
    req.Method(MethodGet);
    req.UseSSL(true);
    assert req.verb == MethodGet && req.useSSL && req.uri == "" && req.bucket == "";
    assert req.headers == RootHeaders(date) && req.amzHeaders == map[] && req.parameters == map[];
    assert req.data == None && req.file == None;
    var resp, url, queries, order, sent := req.Response(exchange, fuel);
    assert |order| == 0;
    RootParts(date);
    assert url == RootUrl;
    assert sent == RootSent(signer, date);
    env := resp.Snapshot();
  }

  /** The url, the resource, the verb and the payload of the root request. */
  lemma RootParts(date: string)
    ensures Q.Url(true, Q.Lookup(RootHeaders(date), "Host"), Q.WireUri("", [])) == RootUrl
    ensures Q.ResourceOf("", "", map[]) == "/"
    ensures MethodStr(MethodGet) == "GET"
    ensures Q.PayloadOf(None, None) == Q.NoBody
  {
    MethodNames();
    NoSubItems(Q.SubResourceKeys);
  }

  lemma {:induction false} NoSubItems(keys: seq<string>)
    ensures Q.SubItems(map[], keys) == []
    decreases |keys|
  {
    if keys != [] {
      NoSubItems(keys[..|keys| - 1]);
    }
  }

  /** `Test` on an envelope: no error and status 200. */
  function Passes(env: R.Envelope): (ok: bool)
    ensures ok <==> R.Verdict(Some(env), []) == None
  {
    env.error.None? && env.status == 200
  }

  /** `Test`: whether the root answers 200 without error, which is whether it passes
      `IsSuccess` with the default set. */
  method Test(s: Client?, mac: Mac, exchange: Q.Exchange, date: string, fuel: nat) returns (ok: bool)
    ensures ok <==> R.Verdict(Some(RootEnvelope(exchange, Signer(s, mac), date, fuel)), []) == None
  {
    var env := Root(Signer(s, mac), exchange, date, fuel);
    ok := Passes(env);
  }

  // ---- Info ----

  /** The owner and one bucket of the service document, as the XML decoder gives them. */
  datatype Owner = Owner(id: string, displayName: string)
  datatype Listed = Listed(name: string, date: string)
  datatype ServiceDoc = ServiceDoc(owner: Owner, buckets: seq<Listed>)

  /** The XML decoder of the root's body. */
  type InfoDecoder = seq<R.Byte> -> Decoded<ServiceDoc>

  /** Records of model/model.go: `BucketInfoOwner`, `BucketInfoBucket`, `BucketInfo`. */
  datatype InfoOwner = InfoOwner(id: string, name: string)
  datatype InfoBucket = InfoBucket(name: string, time: nat)
  datatype BucketInfo = BucketInfo(owner: InfoOwner, buckets: seq<InfoBucket>)

  /** The buckets of a document with their creation dates in Unix seconds as uint64, or
      the first date that does not parse. */
  function Stamps(ls: seq<Listed>, parseTime: B.TimeParser): (r: Decoded<seq<InfoBucket>>)
    ensures r.Parsed? ==> |r.value| == |ls|
    decreases |ls|
  {
    if ls == [] then Parsed([])
    else
      var l := ls[|ls| - 1];
      match Stamps(ls[..|ls| - 1], parseTime)
      case Malformed(cause) => Malformed(cause)
      case Parsed(bs) =>
        match parseTime(B.ListingLayout, l.date)
        case Malformed(cause) => Malformed(cause)
        case Parsed(t) => Parsed(bs + [InfoBucket(l.name, B.ToUint64(t))])
  }

  /** `Info` on the root's envelope: `IsSuccess`, then the Content-Type, then the XML,
      then every creation date, in that order. */
  function InfoOf(env: R.Envelope, decode: InfoDecoder, parseTime: B.TimeParser): Result<BucketInfo> {
    match R.Verdict(Some(env), [])
    case Some(e) => Fail(e)
    case None =>
      if Q.Lookup(env.headers, "Content-Type") != "application/xml" then Fail(NotXml)
      else match decode(env.bodyBytes)
      case Malformed(cause) => Fail(XmlFailed(cause))
      case Parsed(doc) =>
        match Stamps(doc.buckets, parseTime)
        case Malformed(cause) => Fail(TimeFailed(cause))
        case Parsed(bs) => Ok(BucketInfo(InfoOwner(doc.owner.id, doc.owner.displayName), bs))
  }

  /** Every creation date of the document parses. */
  predicate StampsOk(ls: seq<Listed>, parseTime: B.TimeParser) {
    forall i :: 0 <= i < |ls| ==> parseTime(B.ListingLayout, ls[i].date).Parsed?
  }

  /** Every bucket of the document is kept, in order, with its parsed date. */
  lemma {:induction false} StampsEntries(ls: seq<Listed>, parseTime: B.TimeParser)
    ensures Stamps(ls, parseTime).Parsed? <==> StampsOk(ls, parseTime)
    ensures Stamps(ls, parseTime).Parsed? ==> forall i :: 0 <= i < |ls| ==>
      Stamps(ls, parseTime).value[i] == InfoBucket(ls[i].name, B.ToUint64(parseTime(B.ListingLayout, ls[i].date).value))
    decreases |ls|
  {
    if ls != [] {
      var init := ls[..|ls| - 1];
      StampsEntries(init, parseTime);
      forall i | 0 <= i < |init| ensures init[i] == ls[i] {
      }
    }
  }

  /** `Info` succeeds exactly when the root passes `IsSuccess`, answers XML that decodes
      and every creation date parses. */
  lemma InfoOkIff(env: R.Envelope, decode: InfoDecoder, parseTime: B.TimeParser)
    ensures InfoOf(env, decode, parseTime).Ok? <==>
      && env.error.None? && env.status == 200
      && Q.Lookup(env.headers, "Content-Type") == "application/xml"
      && decode(env.bodyBytes).Parsed?
      && StampsOk(decode(env.bodyBytes).value.buckets, parseTime)
  {
    if decode(env.bodyBytes).Parsed? {
      StampsEntries(decode(env.bodyBytes).value.buckets, parseTime);
    }
  }

  /** A successful `Info` gives the owner and the buckets of the document, in order. */
  lemma InfoKeepsOrder(env: R.Envelope, decode: InfoDecoder, parseTime: B.TimeParser)
    requires InfoOf(env, decode, parseTime).Ok?
    ensures decode(env.bodyBytes).Parsed?
    ensures var doc := decode(env.bodyBytes).value;
      var info := InfoOf(env, decode, parseTime).value;
      && StampsOk(doc.buckets, parseTime)
      && info.owner == InfoOwner(doc.owner.id, doc.owner.displayName)
      && |info.buckets| == |doc.buckets|
      && forall i :: 0 <= i < |doc.buckets| ==>
           info.buckets[i].name == doc.buckets[i].name &&
           info.buckets[i].time == B.ToUint64(parseTime(B.ListingLayout, doc.buckets[i].date).value)
  {
    StampsEntries(decode(env.bodyBytes).value.buckets, parseTime);
  }

  /** The failures of `Info`: the error of `IsSuccess`, a non-XML answer, bad XML and a
      bad date, checked in that order. */
  lemma InfoFailures(env: R.Envelope, decode: InfoDecoder, parseTime: B.TimeParser)
    ensures R.Verdict(Some(env), []).Some? ==> InfoOf(env, decode, parseTime) == Fail(R.Verdict(Some(env), []).value)
    ensures R.Verdict(Some(env), []).None? && Q.Lookup(env.headers, "Content-Type") != "application/xml" ==>
      InfoOf(env, decode, parseTime) == Fail(NotXml)
    ensures (R.Verdict(Some(env), []).None? && Q.Lookup(env.headers, "Content-Type") == "application/xml" &&
             decode(env.bodyBytes).Malformed?) ==> InfoOf(env, decode, parseTime) == Fail(XmlFailed(decode(env.bodyBytes).cause))
  {
  }

  /** The date loop of `Info` over the decoded buckets. */
  method StampAll(ls: seq<Listed>, parseTime: B.TimeParser) returns (r: Decoded<seq<InfoBucket>>)
    ensures r == Stamps(ls, parseTime)
  {
    var bs: seq<InfoBucket> := [];
    for i := 0 to |ls|
      invariant Stamps(ls[..i], parseTime) == Parsed(bs)
    {
      assert ls[..i + 1][..i] == ls[..i];
      match parseTime(B.ListingLayout, ls[i].date)
      case Malformed(cause) =>
        StampsFailSticks(ls, i + 1, parseTime);
        return Malformed(cause);
      case Parsed(t) =>
        bs := bs + [InfoBucket(ls[i].name, B.ToUint64(t))];
    }
    assert ls[..|ls|] == ls;
    r := Parsed(bs);
  }

  /** A date that fails in a prefix is the failure of the whole document. */
  lemma {:induction false} StampsFailSticks(ls: seq<Listed>, i: nat, parseTime: B.TimeParser)
    requires i <= |ls| && Stamps(ls[..i], parseTime).Malformed?
    ensures Stamps(ls, parseTime) == Stamps(ls[..i], parseTime)
    decreases |ls| - i
  {
    if i < |ls| {
      assert ls[..i + 1][..i] == ls[..i];
      StampsFailSticks(ls, i + 1, parseTime);
    } else {
      assert ls[..i] == ls;
    }
  }

  /** The checks of `Info` on the root's envelope, as the code runs them. */
  method InfoOfEnvelope(env: R.Envelope, decode: InfoDecoder, parseTime: B.TimeParser) returns (r: Result<BucketInfo>)
    ensures r == InfoOf(env, decode, parseTime)
  {
    var verdict := R.Verdict(Some(env), []);
    if verdict.Some? {
      return Fail(verdict.value);
    }
    if Q.Lookup(env.headers, "Content-Type") != "application/xml" {
      return Fail(NotXml);
    }
    var decoded := decode(env.bodyBytes);
    if decoded.Malformed? {
      return Fail(XmlFailed(decoded.cause));
    }
    var stamps := StampAll(decoded.value.buckets, parseTime);
    if stamps.Malformed? {
      return Fail(TimeFailed(stamps.cause));
    }
    r := Ok(BucketInfo(InfoOwner(decoded.value.owner.id, decoded.value.owner.displayName), stamps.value));
  }

  /** `Info`: the root request and its checks. */
  method Info(s: Client?, mac: Mac, exchange: Q.Exchange, decode: InfoDecoder, parseTime: B.TimeParser,
              date: string, fuel: nat) returns (r: Result<BucketInfo>)
    ensures r == InfoOf(RootEnvelope(exchange, Signer(s, mac), date, fuel), decode, parseTime)
  {
    var env := Root(Signer(s, mac), exchange, date, fuel);
    r := InfoOfEnvelope(env, decode, parseTime);
  }

  // ---- Buckets and Bucket ----

  /** The names of the buckets `Info` found, in its order. */
  method Names(bs: seq<InfoBucket>) returns (names: seq<string>)
    ensures |names| == |bs|
    ensures forall i :: 0 <= i < |bs| ==> names[i] == bs[i].name
  {
    names := [];
    for i := 0 to |bs|
      invariant |names| == i
      invariant forall j :: 0 <= j < i ==> names[j] == bs[j].name
    {
      names := names + [bs[i].name];
    }
  }

  /** `Buckets`: the names in the order of `Info`, or no name and the error of `Info`
      wrapped. */
  method Buckets(s: Client?, mac: Mac, exchange: Q.Exchange, decode: InfoDecoder, parseTime: B.TimeParser,
                 date: string, fuel: nat) returns (names: seq<string>, err: Option<Error>)
    ensures var info := InfoOf(RootEnvelope(exchange, Signer(s, mac), date, fuel), decode, parseTime);
      && (info.Fail? ==> names == [] && err == Some(InfoFailed(info.error)))
      && (info.Ok? ==>
            && err == None && |names| == |info.value.buckets|
            && forall i :: 0 <= i < |names| ==> names[i] == info.value.buckets[i].name)
  {
    var info := Info(s, mac, exchange, decode, parseTime, date, fuel);
    if info.Fail? {
      return [], Some(InfoFailed(info.error));
    }
    names := Names(info.value.buckets);
    err := None;
  }

  /** `Bucket`: a blank name gives no bucket; any other gives the bucket `New` parses. */
  lemma BucketOfName(name: string)
    ensures B.AllBlank(Split(name, '/')) <==> B.Lookup(name) == None
    ensures B.Lookup(name).Some? ==> B.Lookup(name).value == B.New(name).value
  {
    B.NewFailsIffBlank(name);
  }
}
