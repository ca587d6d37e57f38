/** The enumerations of the client: canned ACLs, bucket locations and HTTP methods.
    Each Go enumeration is an `int` type with `iota` constants and a `Str` method
    whose `switch` has a default case, so every `int` has a string; the model keeps
    the `int` domain and the default cases. */
module Enum {

  // Canned ACLs, in the order of their `iota` values.
  const AclPrivate: int := 0
  const AclPublicRead: int := 1
  const AclPublicReadWrite: int := 2
  const AclAwsExecRead: int := 3
  const AclAuthenticatedRead: int := 4
  const AclBucketOwnerRead: int := 5
  const AclBucketOwnerFullControl: int := 6
  const AclLogDeliveryWrite: int := 7

  /** `Acl.Str`: the canned-ACL name sent in `x-amz-acl`. */
  function AclStr(acl: int): (s: string)
    ensures s != ""
    ensures !(AclPublicRead <= acl <= AclLogDeliveryWrite) ==> s == "private"
  {
    match acl
    case 1 => "public-read"
    case 2 => "public-read-write"
    case 3 => "aws-exec-read"
    case 4 => "authenticated-read"
    case 5 => "bucket-owner-read"
    case 6 => "bucket-owner-full-control"
    case 7 => "log-delivery-write"
    case _ => "private"
  }

  /** Reads a canned-ACL name back to its constant (the inverse of `AclStr`). */
  function AclFromStr(s: string): (acl: int)
    ensures AclPrivate <= acl <= AclLogDeliveryWrite
  {
    if s == "public-read" then AclPublicRead else
    if s == "public-read-write" then AclPublicReadWrite else
    if s == "aws-exec-read" then AclAwsExecRead else
    if s == "authenticated-read" then AclAuthenticatedRead else
    if s == "bucket-owner-read" then AclBucketOwnerRead else
    if s == "bucket-owner-full-control" then AclBucketOwnerFullControl else
    if s == "log-delivery-write" then AclLogDeliveryWrite else
    AclPrivate
  }

  /** Every declared ACL reads back from its name, so the eight names are distinct. */
  lemma AclRoundTrip(acl: int)
    requires AclPrivate <= acl <= AclLogDeliveryWrite
    ensures AclFromStr(AclStr(acl)) == acl
  {
  }

  lemma AclDistinct(a: int, b: int)
    requires AclPrivate <= a <= AclLogDeliveryWrite && AclPrivate <= b <= AclLogDeliveryWrite
    requires a != b
    ensures AclStr(a) != AclStr(b)
  {
    AclRoundTrip(a);
    AclRoundTrip(b);
  }

  /** The listed names of the seven non-default ACLs, and private for the default. */
  lemma AclNames()
    ensures AclStr(AclPrivate) == "private"
    ensures AclStr(AclPublicRead) == "public-read"
    ensures AclStr(AclPublicReadWrite) == "public-read-write"
    ensures AclStr(AclAwsExecRead) == "aws-exec-read"
    ensures AclStr(AclAuthenticatedRead) == "authenticated-read"
    ensures AclStr(AclBucketOwnerRead) == "bucket-owner-read"
    ensures AclStr(AclBucketOwnerFullControl) == "bucket-owner-full-control"
    ensures AclStr(AclLogDeliveryWrite) == "log-delivery-write"
  {
  }

  // Bucket locations, in the order of their `iota` values.
  const LocNano: int := 0
  const LocAfSouth1: int := 1
  const LocApEast1: int := 2
  const LocApNortheast1: int := 3
  const LocApNortheast2: int := 4
  const LocApNortheast3: int := 5
  const LocApSouth1: int := 6
  const LocApSoutheast1: int := 7
  const LocApSoutheast2: int := 8
  const LocCaCentral1: int := 9
  const LocCnNorth1: int := 10
  const LocCnNorthwest1: int := 11
  const LocEu: int := 12
  const LocEuCentral1: int := 13
  const LocEuNorth1: int := 14
  const LocEuSouth1: int := 15
  const LocEuWest1: int := 16
  const LocEuWest2: int := 17
  const LocEuWest3: int := 18
  const LocMeSouth1: int := 19
  const LocSaEast1: int := 20
  const LocUsEast2: int := 21
  const LocUsGovEast1: int := 22
  const LocUsGovWest1: int := 23
  const LocUsWest1: int := 24
  const LocUsWest2: int := 25

  /** `Loc.Str`: the region name of a `LocationConstraint`; empty for `LocNano`. */
  function LocStr(loc: int): (s: string)
    ensures s == "" <==> !(LocAfSouth1 <= loc <= LocUsWest2)
  {
    match loc
    case 1 => "af-south-1"
    case 2 => "ap-east-1"
    case 3 => "ap-northeast-1"
    case 4 => "ap-northeast-2"
    case 5 => "ap-northeast-3"
    case 6 => "ap-south-1"
    case 7 => "ap-southeast-1"
    case 8 => "ap-southeast-2"
    case 9 => "ca-central-1"
    case 10 => "cn-north-1"
    case 11 => "cn-northwest-1"
    case 12 => "EU"
    case 13 => "eu-central-1"
    case 14 => "eu-north-1"
    case 15 => "eu-south-1"
    case 16 => "eu-west-1"
    case 17 => "eu-west-2"
    case 18 => "eu-west-3"
    case 19 => "me-south-1"
    case 20 => "sa-east-1"
    case 21 => "us-east-2"
    case 22 => "us-gov-east-1"
    case 23 => "us-gov-west-1"
    case 24 => "us-west-1"
    case 25 => "us-west-2"
    case _ => ""
  }

  /** Reads a region name back to its constant (the inverse of `LocStr`). */
  function LocFromStr(s: string): (loc: int)
    ensures LocNano <= loc <= LocUsWest2
  {
    if s == "af-south-1" then LocAfSouth1 else
    if s == "ap-east-1" then LocApEast1 else
    if s == "ap-northeast-1" then LocApNortheast1 else
    if s == "ap-northeast-2" then LocApNortheast2 else
    if s == "ap-northeast-3" then LocApNortheast3 else
    if s == "ap-south-1" then LocApSouth1 else
    if s == "ap-southeast-1" then LocApSoutheast1 else
    if s == "ap-southeast-2" then LocApSoutheast2 else
    if s == "ca-central-1" then LocCaCentral1 else
    if s == "cn-north-1" then LocCnNorth1 else
    if s == "cn-northwest-1" then LocCnNorthwest1 else
    if s == "EU" then LocEu else
    if s == "eu-central-1" then LocEuCentral1 else
    if s == "eu-north-1" then LocEuNorth1 else
    if s == "eu-south-1" then LocEuSouth1 else
    if s == "eu-west-1" then LocEuWest1 else
    if s == "eu-west-2" then LocEuWest2 else
    if s == "eu-west-3" then LocEuWest3 else
    if s == "me-south-1" then LocMeSouth1 else
    if s == "sa-east-1" then LocSaEast1 else
    if s == "us-east-2" then LocUsEast2 else
    if s == "us-gov-east-1" then LocUsGovEast1 else
    if s == "us-gov-west-1" then LocUsGovWest1 else
    if s == "us-west-1" then LocUsWest1 else
    if s == "us-west-2" then LocUsWest2 else
    LocNano
  }

  /** Every declared location reads back from its name. */
  lemma LocRoundTrip(loc: int)
    requires LocNano <= loc <= LocUsWest2
    ensures LocFromStr(LocStr(loc)) == loc
  {
    if loc <= 4 {
      LocRoundTrip0(loc);
    } else if loc <= 9 {
      LocRoundTrip5(loc);
    } else if loc <= 13 {
      LocRoundTrip10(loc);
    } else if loc <= 15 {
      LocRoundTrip14(loc);
    } else if loc <= 17 {
      LocRoundTrip16(loc);
    } else {
      LocRoundTripHigh(loc);
    }
  }

  lemma LocRoundTrip0(loc: int)
    requires 0 <= loc <= 4
    ensures LocFromStr(LocStr(loc)) == loc
  {
  }

  lemma LocRoundTrip5(loc: int)
    requires 5 <= loc <= 9
    ensures LocFromStr(LocStr(loc)) == loc
  {
  }

  lemma LocRoundTrip10(loc: int)
    requires 10 <= loc <= 13
    ensures LocFromStr(LocStr(loc)) == loc
  {
  }

  lemma LocRoundTrip14(loc: int)
    requires 14 <= loc <= 15
    ensures LocFromStr(LocStr(loc)) == loc
  {
  }

  lemma LocRoundTrip16(loc: int)
    requires 16 <= loc <= 17
    ensures LocFromStr(LocStr(loc)) == loc
  {
  }

  lemma LocRoundTripHigh(loc: int)
    requires 18 <= loc <= 25
    ensures LocFromStr(LocStr(loc)) == loc
  {
    if loc == 18 {
      LocRoundTripAt18();
    } else if loc == 19 {
      LocRoundTripAt19();
    } else if loc == 20 {
      LocRoundTripAt20();
    } else if loc == 21 {
      LocRoundTripAt21();
    } else if loc == 22 {
      LocRoundTripAt22();
    } else if loc == 23 {
      LocRoundTripAt23();
    } else if loc == 24 {
      LocRoundTripAt24();
    } else {
      LocRoundTripAt25();
    }
  }

  lemma LocRoundTripAt18()
    ensures LocFromStr(LocStr(18)) == 18
  {
  }

  lemma LocRoundTripAt19()
    ensures LocFromStr(LocStr(19)) == 19
  {
  }

  lemma LocRoundTripAt20()
    ensures LocFromStr(LocStr(20)) == 20
  {
  }

  lemma LocRoundTripAt21()
    ensures LocFromStr(LocStr(21)) == 21
  {
  }

  lemma LocRoundTripAt22()
    ensures LocFromStr(LocStr(22)) == 22
  {
  }

  lemma LocRoundTripAt23()
    ensures LocFromStr(LocStr(23)) == 23
  {
  }

  lemma LocRoundTripAt24()
    ensures LocFromStr(LocStr(24)) == 24
  {
  }

  lemma LocRoundTripAt25()
    ensures LocFromStr(LocStr(25)) == 25
  {
  }

  /** The 25 non-`LocNano` constants have 25 distinct names. */
  lemma LocDistinct(a: int, b: int)
    requires LocAfSouth1 <= a <= LocUsWest2 && LocAfSouth1 <= b <= LocUsWest2
    requires a != b
    ensures LocStr(a) != LocStr(b)
  {
    LocRoundTrip(a);
    LocRoundTrip(b);
  }

  lemma LocEuName()
    ensures LocStr(LocEu) == "EU"
  {
  }

  // HTTP methods, in the order of their `iota` values.
  const MethodGet: int := 0
  const MethodPost: int := 1
  const MethodPut: int := 2
  const MethodDelete: int := 3
  const MethodHead: int := 4

  /** `Method.Str`: the HTTP verb; GET for `MethodGet` and for every undeclared value. */
  function MethodStr(m: int): (s: string)
    ensures s in {"GET", "POST", "PUT", "DELETE", "HEAD"}
    ensures !(MethodPost <= m <= MethodHead) ==> s == "GET"
  {
    match m
    case 4 => "HEAD"
    case 1 => "POST"
    case 2 => "PUT"
    case 3 => "DELETE"
    case _ => "GET"
  }

  /** Reads an HTTP verb back to its constant (the inverse of `MethodStr`). */
  function MethodFromStr(s: string): (m: int)
    ensures MethodGet <= m <= MethodHead
  {
    if s == "HEAD" then MethodHead else if s == "POST" then MethodPost
    else if s == "PUT" then MethodPut else if s == "DELETE" then MethodDelete
    else MethodGet
  }

  /** The five constants map to five distinct verbs. */
  lemma MethodDistinct(a: int, b: int)
    requires MethodGet <= a <= MethodHead && MethodGet <= b <= MethodHead
    requires a != b
    ensures MethodStr(a) != MethodStr(b)
  {
    assert MethodFromStr(MethodStr(a)) == a;
    assert MethodFromStr(MethodStr(b)) == b;
  }

  lemma MethodNames()
    ensures MethodStr(MethodGet) == "GET"
    ensures MethodStr(MethodPost) == "POST"
    ensures MethodStr(MethodPut) == "PUT"
    ensures MethodStr(MethodDelete) == "DELETE"
    ensures MethodStr(MethodHead) == "HEAD"
  {
  }
}
