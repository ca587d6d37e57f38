# Golang-S3 client core in Dafny

This project models the core of a small Go client for Amazon S3 (the `s3` package and its
`request`, `response`, `bucket` and `enum` sub-packages). It covers the logic that runs
before and after each HTTP call:

- **Request builder** (`Request.Request`). It keeps the method, bucket, uri, parameters,
  plain headers and amz headers, with in-place setters. From them it computes:
  - the wire url and query;
  - the signed resource, which keeps only the `acl`, `location`, `torrent` and `logging`
    sub-resources, in that order;
  - the newline-joined string to sign, with the amz lines sorted;
  - the headers that are sent.

  Uri encoding is percent-encoding in the style of section 2.1 of RFC 3986. It keeps the
  unreserved set of section 2.3, writes a space as `%20` and keeps `/`. It is
  `url.QueryEscape` followed by the `+` → `%20` and `%2F` → `/` rewrites, and it is proved
  equal to that byte-wise definition.
- **Response envelope** (`Response.Response`): status, headers, body and error. It has
  `New`, `Reset` and `GG`, the copy of one HTTP answer (the header collapse and the 16-bit
  status), and the status-set check `IsSuccess`.
- **Bucket operations** (`Bucket`):
  - parsing a `bucket/path` string;
  - the last-wins option loops;
  - the request each operation builds;
  - `Delete`/`Del` with `{200, 204}`;
  - the header checks of `Meta`, as written and as intended;
  - `File` and `copy`;
  - the paginated listing `Files`;
  - `Clean`, run sequentially.
- **Client** (`S3`):
  - the registry of instances by credential key;
  - the `AWS access:mac` signature;
  - `Test`, `Info`, `Buckets` and `Bucket` on the service root.
- **Small total functions**: the stringers of `Acl`, `Loc` and `Method`, and the accessors of
  `Where`.

Foreign code is passed in as function-typed parameters. This covers the HTTP exchange, the
opened-and-answered request of a bucket operation, the XML decoders, `time.Parse`, MD5 and
hex, HMAC-SHA1 and base64, and `time.Now` (given as the `date` string).

`SetAmzHeader` keeps the key and puts `x-amz-meta-` in front of the value
(request/request.go:104); the model follows the code (`Request.AmzValue`,
`Request.Request.SetAmzHeader`).

## Model

| member | source | states |
|---|---|---|
| Enum.AclNames | enum/acl.go:23-41 | each of the eight constants gives its canned-ACL name; `ACL_PRIVATE` gives `private` |
| Enum.AclStr | enum/acl.go:39-40 | the result is never empty, and every value outside the declared range gives `private` |
| Enum.AclRoundTrip | enum/acl.go:12-41 | every declared ACL is read back from its name, so the name determines the constant |
| Enum.AclDistinct | enum/acl.go:12-41 | the eight constants have eight distinct names |
| Enum.LocStr | enum/loc.go:41-95 | the name is empty exactly for `LOC_NANO` and undeclared values |
| Enum.LocRoundTrip | enum/loc.go:12-95 | every declared location is read back from its name |
| Enum.LocDistinct | enum/loc.go:12-95 | the 25 non-`LOC_NANO` constants have 25 distinct names |
| Enum.LocEuName | enum/loc.go:65-66 | `LOC_EU` gives `EU` |
| Enum.MethodStr | enum/method.go:20-33 | the verb is one of the five method names; `GET` for `METHOD_GET` and every undeclared value |
| Enum.MethodNames | enum/method.go:21-31 | HEAD, POST, PUT, DELETE and GET give their own names |
| Enum.MethodDistinct | enum/method.go:12-33 | the five constants have five distinct names |
| Where.Where.PrefixStr | where.go:17-22 | nil exactly when the prefix is empty; otherwise the prefix |
| Where.Where.NextKeyStr | where.go:23-28 | nil exactly when the marker is empty; otherwise the marker |
| Where.Where.ExcludeStr | where.go:29-34 | nil exactly when the delimiter is empty; otherwise the delimiter |
| Where.Where.LimitNum | where.go:35-40 | nil exactly when the limit is 0; otherwise the limit |
| Where.AccessorsRoundTrip | where.go:16-40 | the four accessors lose nothing: the filter is rebuilt from what they give |
| Response.Response.constructor | request/response/response.go:24-27 | `New` gives status 0, empty bodies, no error and no headers |
| Response.Response.Reset | request/response/response.go:36-46 | every field is back to its cleared value, whatever it was, so a second reset changes nothing |
| Response.Response.GG | request/response/response.go:28-35 | the error is recorded; status, bodies and headers are unchanged |
| Response.Response.GGNil | request/response/response.go:29-31 | on a nil envelope, a fresh envelope holding only the error |
| Response.Response.IsSuccess | request/response/response.go:48-74 | the loop over the accepted set returns the verdict of `Verdict` |
| Response.ErrorTakesPrecedence | request/response/response.go:53-55 | a recorded error is returned verbatim, whatever the status |
| Response.AcceptedSet | request/response/response.go:57-60 | the default accepted set is `{200}`; a caller-given set replaces it |
| Response.SuccessIff | request/response/response.go:53-66 | success exactly when no error is recorded and the status is accepted; otherwise the recorded error or the status-set error |
| Response.NoContentNeedsExplicitSet | request/response/response.go:57-66 | 204 passes with `{200, 204}` and is rejected with the default set |
| Response.NilEnvelopeFails | request/response/response.go:49-51 | a nil envelope always gives an error |
| Errors.StatusMessage | request/response/response.go:68-73 | the message is the prefix and then every accepted code in order, split back by `、` |
| Response.Collapse | request/request.go:322-326 | a header is kept exactly when it has a value, and then with its first value |
| Response.Response.Record | request/request.go:321-328 | status cut to 16 bits, headers overlaid by the collapsed answer headers, bodies set, error kept |
| Request.Request.constructor | request/request.go:56-82 | GET, no bucket or uri, no body, no parameters, no amz headers; Host, Date and empty Content-MD5 and Content-Type headers |
| Request.Request.New | request/request.go:56-82 | no request without an instance; otherwise a fresh request with the instance's signer, GET, no bucket, uri, body, parameters or amz headers, no TLS, and the headers Host, Date (`date`) and empty Content-MD5 and Content-Type |
| Request.Request.SetHeader | request/request.go:84-89 | stores or overwrites the key only when the value is non-empty; nothing else changes |
| Request.Request.SetAmzHeader | request/request.go:90-108 | stores `AmzValue(key, val)` under the key itself; no other key changes |
| Request.AmzValueExamples | request/request.go:95-105 | `x-amz-acl` keeps its value; `foo` stores `x-amz-meta-` plus the value |
| Request.Request.SetXML | request/request.go:109-114 | the body is the text with its UTF-8 length, and Content-Type becomes `application/xml` |
| Request.Request.SetFile | request/request.go:115-120 | the upload file is recorded |
| Request.Request.Parameter | request/request.go:121-129 | an empty key is ignored; otherwise only that key is set |
| Request.Request.Uri | request/request.go:175-182 | an empty path leaves the uri; otherwise the uri is the slash-trimmed path encoding |
| UrlEncode.UriPath | request/request.go:180 | the encoded uri holds only unreserved characters, `%` and `/`, and neither starts nor ends with `/` |
| UrlEncode.RawUrlEncode | request/request.go:53-55 | the result is the byte-wise percent-encoding and never holds `+` or a space |
| UrlEncode.RawUrlEncodeIsPercentEncode | request/request.go:53-55 | `QueryEscape` with each `+` replaced by `%20` equals the byte-wise percent-encoding |
| UrlEncode.PercentEncodeSlashes | request/request.go:180 | replacing `%2F` by `/` in the percent-encoding gives the encoding that keeps `/` |
| Request.Request.Bucket | request/request.go:183-196 | the bucket is lower-cased; Host is `name.s3.amazonaws.com`, or `s3.amazonaws.com` for an empty name |
| Request.Request.Method | request/request.go:197-203 | the verb is set |
| Request.Request.UseSSL | request/request.go:204-210 | the TLS flag is set |
| Request.Request.BuildQuery | request/request.go:140-143 | one `key=encode(value)` item per parameter, each key once, in the map's order |
| Request.WireUriQuery | request/request.go:145-147 | no parameter means no `?`; otherwise `?` and the items joined by `&` |
| Request.Request.BuildResource | request/request.go:149-166 | the loop over the whitelist gives `ResourceOf` |
| Request.ResourceIgnoresOtherParameters | request/request.go:149-166 | only the four sub-resources reach the signed resource |
| Request.ResourceUnchangedByParameter | request/request.go:149-166 | setting any other parameter leaves the signed resource as it was |
| Request.SubItemsWhitelist | request/request.go:150-154 | the present sub-resources appear in the order acl, location, torrent, logging |
| Request.ResourceWithAllSubResources | request/request.go:162-163 | with a bucket and all four sub-resources: `/bucket/uri?` and the four items in order |
| Request.ResourceExamples | request/request.go:157-166 | `{prefix:x}` gives `/b/k`, `{acl:""}` gives `/b/k?acl=`, an empty uri gives `/b/`, no bucket gives `/k` |
| Request.Request.Overlay | request/request.go:218-227 | the map overlaid with the non-empty entries of another |
| Request.Request.SignedTokens | request/request.go:229-234 | the method, then the present Content-MD5, Content-Type and Date values in that order |
| Request.PresentSigned | request/request.go:229-234 | on a request from `New` the three values are always there, empty or not |
| Request.Request.SortedAmz | request/request.go:236-248 | the loop and sort give the sorted lines `lower(key):value` of the non-empty amz headers |
| Request.CanonicalAmzMembers | request/request.go:236-241 | a line is in the canonical list exactly when it is the line of a non-empty amz header |
| Strings.SortedUnique | request/request.go:243-244 | two sorted lists with the same elements are equal, so the sorted amz lines do not depend on map order |
| Request.StringToSignForm | request/request.go:229-250 | the string to sign is the method, Content-MD5, Content-Type, Date, the sorted amz lines and the resource, joined by newlines |
| Request.Request.MakeHeader | request/request.go:212-252 | the sent headers are `SentHeaders` with `Authorization` signed over the string to sign |
| Request.SentHeadersContents | request/request.go:218-227 | a sent header is a non-empty plain or amz header, the plain one winning, plus `Authorization` |
| Request.Request.Send | request/request.go:254-340 | the envelope is `Deliver`: a failure on a cleared envelope, or the answer, and a 307 with a Location goes again on the reset envelope |
| Request.DeliverFailure | request/request.go:311-314 | a transport failure leaves an error and no status |
| Request.RedirectTarget | request/request.go:330-337 | a redirect is followed exactly when the status is 307 and a Location is present |
| Request.CheckRedirect | request/request.go:292-308 | the redirect callback refuses with too many redirects exactly when ten requests are in the chain; otherwise the next request follows with the first request's headers, or its own when the chain is empty |
| Request.RedirectBound | request/request.go:292-308 | against a server that always redirects, the client sends ten requests with the first request's headers and then refuses |
| Request.Request.Response | request/request.go:130-174 | the url with the query, the headers signed over the resource, and the envelope `send` leaves |
| Bucket.MapTrim | bucket/bucket.go:53-62 | the loop gives `TrimAll`: the space-trimmed non-empty pieces in order |
| Bucket.New | bucket/bucket.go:126-132 | fails exactly when no piece is left; otherwise the name is the first piece and the uri joins the rest with `/` |
| Bucket.NewFailsIffBlank | bucket/bucket.go:126-130 | `New` fails exactly when every `/`-segment is blank |
| Bucket.NewParts | bucket/bucket.go:126-132 | the name is non-empty, has no `/` and no outer spaces, and the uri splits back into the remaining segments |
| Bucket.WriteOptions | bucket/bucket.go:110-121 | the option loop of `copy` and `Put` gives the last ACL and the last positive cache |
| Bucket.CreateOptions | bucket/bucket.go:146-156 | the option loop of `Create` gives the last ACL and the last location |
| Bucket.LastAclWins | bucket/bucket.go:113-116 | the last `Acl` argument wins |
| Bucket.LastAclDefault | bucket/bucket.go:110 | without an `Acl` argument the ACL is private |
| Bucket.LastLocWins | bucket/bucket.go:153-155 | the last `Loc` argument wins |
| Bucket.CacheWins | bucket/bucket.go:118-120 | the last positive `int` argument sets the cache |
| Bucket.CacheDefault | bucket/bucket.go:111 | without a positive `int` argument the cache is empty |
| Bucket.Build | bucket/bucket.go:123 | the builder chain `New(s3).Bucket(..).Uri(..).Method(..)` and its setters give a valid request with the lower-cased bucket, the encoded uri, the verb, the amz headers, headers and parameters set in call order, and the XML body when there is one |
| Bucket.Create | bucket/bucket.go:141-179 | the verdict of the PUT with the chosen ACL and, unless no location is set, the location document |
| Bucket.Delete | bucket/bucket.go:180-187 | success exactly when the DELETE has no error and answers 200 or 204 |
| Bucket.Del | bucket/bucket.go:332-342 | no uri is an error before any request; otherwise success exactly on 200 or 204 |
| Bucket.File | bucket/bucket.go:404-420 | no uri is an error before any request; otherwise the envelope when it passes `IsSuccess`, else its error |
| Bucket.Copy | bucket/bucket.go:95-124 | the destination is checked, then the source, then the PUT with the chosen options is sent |
| Bucket.CopyTo | bucket/bucket.go:456-458 | the options given are not passed on: the copy is private with no cache |
| Bucket.CopyFrom | bucket/bucket.go:459-461 | the options given are not passed on either |
| Bucket.Lookup | s3.go:129-132 | `S3.Bucket`: some bucket exactly when `New` succeeds, and then that bucket |
| S3.BucketOfName | s3.go:129-132 | a blank name gives a nil bucket; any other gives the bucket `New` parses |
| Bucket.ParseInt64 | bucket/bucket.go:359 | a parsed value is within int64 |
| Bucket.ParseInt64Decimal | bucket/bucket.go:359 | the decimal text of a number in range, with or without `-`, parses back to it |
| Bucket.ToUint64 | bucket/bucket.go:265 | `uint64(n)` of an int64 is the identity on non-negatives and adds 2^64 to negatives |
| Bucket.MetaOfHeaders | bucket/bucket.go:357-402 | the checks as evidently intended: succeeds exactly when Content-Length is a non-negative integer, Last-Modified parses and Etag and Content-Type are present; the ETag is unquoted; a missing header is named correctly |
| Bucket.MetaOfHeadersAsWritten | bucket/bucket.go:357-402 | the checks in the code's order, as written: the same result as `MetaOfHeaders` everywhere, except that a missing Content-Type is reported as a missing Etag |
| Bucket.MetaMisreportsContentType | bucket/bucket.go:394 | with every header but Content-Type present, the code reports Etag missing although Etag is there |
| Bucket.Meta | bucket/bucket.go:343-402 | no uri is an error before any request; then the error of `IsSuccess` on the HEAD; then the header checks as written (`MetaOfHeadersAsWritten`) |
| Bucket.MetaIntended | bucket/bucket.go:343-402 | the same request and checks with each missing header named as itself (`MetaOfHeaders`) |
| Bucket.MetaDiffersOnlyOnContentType | bucket/bucket.go:390-395 | `Meta` and `MetaIntended` agree except on a successful HEAD without Content-Type, where `Meta` reports a missing Etag |
| Bucket.EntryOf | bucket/bucket.go:263-268 | a listed object keeps key and size, and its ETag loses its quotes |
| Bucket.ConvertEntries | bucket/bucket.go:256-271 | a converted page lists every content in order, each with its parsed time |
| Bucket.ConvertPage | bucket/bucket.go:256-262 | the content loop gives `Convert`: the first bad timestamp, or every object |
| Bucket.NextMarker | bucket/bucket.go:255-275 | the marker is `NextMarker` when present, else the last key, else none |
| Bucket.ListPage | bucket/bucket.go:206-279 | one turn of the loop as the code runs it gives `PageStep` |
| Bucket.PageStepOutcomes | bucket/bucket.go:221-269 | a bad status, a non-XML answer or bad XML keep the objects so far with the error; a bad timestamp gives no object; otherwise the page's objects are appended |
| Bucket.PageStepMore | bucket/bucket.go:255-279 | the loop goes on exactly when the page is good, no limit is set, it is truncated and a marker is left, and then from that marker |
| Bucket.Files | bucket/bucket.go:188-283 | the loop gives `ListFrom` over the page turns, from the marker of the filter |
| Bucket.ListCallParams | bucket/bucket.go:206-219 | a page request is a GET of the bucket; it carries `prefix`, `marker`, `delimiter` and `max-keys` each exactly when that option is set, with its value, and no other parameter |
| Bucket.LimitOneCall | bucket/bucket.go:217-219 | with a limit the listing is one request, and that request sends `max-keys` |
| Bucket.ListFromCalls | bucket/bucket.go:205-212 | the first request starts at the given marker and the next at the marker the page left |
| Bucket.FilesKeep | bucket/bucket.go:255-271 | the objects of earlier pages stay first in the result, unless a timestamp fails, and then there is no object |
| Bucket.DelPathOf | bucket/bucket.go:484 | `s3.Bucket(path).Del()`: a path `New` refuses is an error of a nil bucket; otherwise the `Del` of the parsed bucket |
| Bucket.ObjectPaths | bucket/bucket.go:493-495 | one `name/key` path per listed object, in order |
| Bucket.DeleteErrorsNone | bucket/bucket.go:499-504 | no error exactly when every deletion succeeds |
| Bucket.DeleteErrorsTagged | bucket/bucket.go:484-485 | each error names a listed path and wraps the error of its deletion |
| Bucket.DeleteErrorsComplete | bucket/bucket.go:484-485 | every failing deletion is reported with its path and its error |
| Bucket.DeleteErrorsCount | bucket/bucket.go:499-504 | there are exactly as many errors as failing positions in the path list |
| Bucket.DeleteErrorsAppend | bucket/bucket.go:493-504 | the errors come in path order: those of a list followed by those of the next |
| Bucket.DeleteAll | bucket/bucket.go:478-504 | the deletion of every path, one after another, gives `DeleteErrors`: one `DeleteFailed` per failing path, in order |
| Bucket.Clean | bucket/bucket.go:462-508 | a listing failure is the only error; otherwise the errors of deleting every listed object |
| S3.Registry.Instance | s3.go:42-54 | the instance under the key of the credentials; a new one is added only when the key is new, and no entry is replaced or removed |
| S3.KeyCollision | s3.go:43-51 | `("a_b","c")` and `("a","b_c")` have the same key, so they share the first instance |
| S3.Signature | s3.go:58-64 | empty exactly for a nil instance |
| S3.SignatureRoundTrip | s3.go:58-64 | `AWS access:mac` reads back as the access key and the mac of the string under the secret |
| S3.Root | s3.go:66 | the root request is a signed GET of `https://s3.amazonaws.com/` with resource `/` |
| S3.Passes | s3.go:67 | no error and status 200 is the same as passing `IsSuccess` with the default set |
| S3.Test | s3.go:65-68 | true exactly when the root's envelope passes `IsSuccess` |
| S3.StampsEntries | s3.go:96-107 | every date parses exactly when the conversion succeeds, and then every bucket is kept in order with its time |
| S3.InfoOkIff | s3.go:69-110 | `Info` succeeds exactly when the status passes, the answer is XML, it decodes and every date parses |
| S3.InfoFailures | s3.go:72-94 | the status error, then non-XML, then the XML error, in that order |
| S3.InfoKeepsOrder | s3.go:96-109 | on success, the owner and the buckets in the order of the document |
| S3.StampAll | s3.go:96-107 | the date loop gives `Stamps` |
| S3.InfoOfEnvelope | s3.go:72-109 | the checks as the code runs them give `InfoOf` |
| S3.Info | s3.go:69-110 | `InfoOf` on the root's envelope |
| S3.Names | s3.go:123-125 | the name of every bucket, in order |
| S3.Buckets | s3.go:111-128 | the bucket names in the order of `Info`, or no name and the wrapped error of `Info` |

## Left out

- I/O stays outside the model:
  - the `net/http` client, TLS, and opening and reading the upload file;
  - `Put` and `Save`: file status and path resolution, MD5 and content sniffing of the file, writing to disk and `chmod`;
  - `getFileMD5`, `getFileContentType` and the `_exts` MIME table.
  The option loop of `Put` is the same as that of `copy` (`Bucket.WriteOptions`).
- Foreign primitives are parameters:
  - HMAC-SHA1 with base64 (`S3.Mac`);
  - MD5 with hex (`S3.Digest`);
  - `time.Parse` (`Bucket.TimeParser`);
  - `time.Now` (the `date` string);
  - the XML decoders (`Bucket.PageDecoder`, `S3.InfoDecoder`);
  - the XML marshalling of the location document, whose text is written out (`Bucket.CreateXml`).
- A bucket operation's request is opened, signed and answered by an oracle (`Bucket.Service`). `Bucket.Build` shows the builder chain it stands for. The service root in `S3` goes through `Request.Request.Response` itself.
- Goroutines, the `WaitGroup` and the channels of `Clean` are left out: the deletions run one after another.
  - In the source, the order of the errors depends on scheduling. The model gives them in listing order.
  - `cpus[0] == 0` with a non-empty listing blocks forever there. The model ignores the worker count.
- The registry is single-threaded; the source's unsynchronised map access is not modelled.
- Nil receivers are not modelled for `Bucket` methods and request setters: the model always has an object. For the same reason, the `info == nil` branch of `Buckets` cannot arise. A nil `S3` instance is modelled only where its behaviour is defined, in `Signature` (empty) and `Request.New` (no request).
- What `net/http` does by itself sits inside the `Exchange` oracle: the `User-Agent` header, the identity transfer encoding, the declared content length of an upload, and the redirects the client follows before `send` sees an answer. `Request.RedirectBound` models the callback that limits those redirects (request/request.go:292-308).
- Go map iteration order is a nondeterministic choice. The wire query is specified by `QueryInOrder`, up to the order of keys.
- Bucket.Files, Request.Request.Send: the Go loops have no bound; the model gives them `fuel` and ends with `OutOfFuel` when it runs out.
- Request.Request.Bucket: Go's `strings.ToLower` (request/request.go:187) is Unicode-aware; the model lower-cases ASCII letters only (`Strings.Lower`).
- Request.Request.SortedAmz: the amz line keys are lower-cased the same ASCII-only way (`Request.AmzLine`, request/request.go:239), so the string to sign differs from Go's for a non-ASCII amz key.
- Error messages are structured `Error` values. The texts are not rendered, except the status-set message (`Errors.StatusMessage`).
- `String()` of a bucket and `GetS3Interface`/`GetWhereInterface` have no logic and are not modelled. The `model` records become datatypes (`Bucket.Entry`, `Bucket.FileMeta`, `S3.BucketInfo`).
- The difference between a nil slice and an empty slice is not modelled. A bad timestamp in `Files` gives an empty sequence where the Go code gives nil.

## Findings

| source | as written | input that shows it | evidently intended | confidence | as-written member | corrected member |
|---|---|---|---|---|---|---|
| bucket/bucket.go:394 | a missing Content-Type is reported as a missing Etag | HEAD answer with Content-Length `0`, a parsable Last-Modified and Etag `"x"`, but no Content-Type | report Content-Type as the missing header | not executed | Bucket.Meta (shown by Bucket.MetaMisreportsContentType and Bucket.MetaDiffersOnlyOnContentType) | Bucket.MetaIntended |
