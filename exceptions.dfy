/**
 * The closed set of status-code-bearing HTTP exception kinds, as fixed by the
 * exception test suite: each kind is a subclass of `HttpException`, which is a
 * subclass of `Error`; each carries a fixed status code and a `name` equal to
 * its own class name.
 */
module HttpExceptions {
  import opened Wrappers

  /** The 25 exception kinds, one per standard status code the suite lists. */
  datatype Kind =
    | BadRequest
    | Unauthorized
    | PaymentRequired
    | Forbidden
    | NotFound
    | MethodNotAllowed
    | NotAcceptable
    | ProxyAuthenticationRequired
    | RequestTimeout
    | Conflict
    | Gone
    | LengthRequired
    | PreconditionFailed
    | PayloadTooLarge
    | URITooLong
    | UnsupportedMediaType
    | RangeNotSatisfiable
    | ExpectationFailed
    | UnprocessableEntity
    | TooManyRequests
    | UnavailableForLegalReasons
    | InternalServerError
    | NotImplemented
    | ServiceUnavailable
    | InsufficientStorage

  /** The status code a kind's `getStatusCode()` reports. */
  function StatusCode(k: Kind): (code: nat)
    ensures 400 <= code <= 507
  {
    match k
    case BadRequest => 400
    case Unauthorized => 401
    case PaymentRequired => 402
    case Forbidden => 403
    case NotFound => 404
    case MethodNotAllowed => 405
    case NotAcceptable => 406
    case ProxyAuthenticationRequired => 407
    case RequestTimeout => 408
    case Conflict => 409
    case Gone => 410
    case LengthRequired => 411
    case PreconditionFailed => 412
    case PayloadTooLarge => 413
    case URITooLong => 414
    case UnsupportedMediaType => 415
    case RangeNotSatisfiable => 416
    case ExpectationFailed => 417
    case UnprocessableEntity => 422
    case TooManyRequests => 429
    case UnavailableForLegalReasons => 451
    case InternalServerError => 500
    case NotImplemented => 501
    case ServiceUnavailable => 503
    case InsufficientStorage => 507
  }

  // ---------------------------------------------------------------------------
  // Classes and the prototype chain
  // ---------------------------------------------------------------------------

  /** The classes an exception instance can be tested against with `instanceof`. */
  datatype ExceptionClass = ErrorClass | HttpExceptionClass | KindClass(kind: Kind)

  /** Distance from `Error`, the root of the chain. */
  function Depth(c: ExceptionClass): nat
  {
    match c
    case ErrorClass => 0
    case HttpExceptionClass => 1
    case KindClass(_) => 2
  }

  /** The class each class directly extends; `Error` is the root. */
  function Parent(c: ExceptionClass): (p: Option<ExceptionClass>)
    ensures p.Some? ==> Depth(p.value) < Depth(c)
    ensures p.None? <==> c == ErrorClass
  {
    match c
    case ErrorClass => None
    case HttpExceptionClass => Some(ErrorClass)
    case KindClass(_) => Some(HttpExceptionClass)
  }

  /** `ancestor` is `c` itself or found by walking `c`'s parents. */
  predicate Extends(c: ExceptionClass, ancestor: ExceptionClass)
    decreases Depth(c)
  {
    c == ancestor || match Parent(c)
                     case None => false
                     case Some(p) => Extends(p, ancestor)
  }

  /** The class's own name, as its `constructor.name` reports it. */
  function ClassName(c: ExceptionClass): string
  {
    match c
    case ErrorClass => "Error"
    case HttpExceptionClass => "HttpException"
    case KindClass(k) =>
      match k
      case BadRequest => "BadRequestException"
      case Unauthorized => "UnauthorizedException"
      case PaymentRequired => "PaymentRequiredException"
      case Forbidden => "ForbiddenException"
      case NotFound => "NotFoundException"
      case MethodNotAllowed => "MethodNotAllowedException"
      case NotAcceptable => "NotAcceptableException"
      case ProxyAuthenticationRequired => "ProxyAuthenticationRequiredException"
      case RequestTimeout => "RequestTimeoutException"
      case Conflict => "ConflictException"
      case Gone => "GoneException"
      case LengthRequired => "LengthRequiredException"
      case PreconditionFailed => "PreconditionFailedException"
      case PayloadTooLarge => "PayloadTooLargeException"
      case URITooLong => "URITooLongException"
      case UnsupportedMediaType => "UnsupportedMediaTypeException"
      case RangeNotSatisfiable => "RangeNotSatisfiableException"
      case ExpectationFailed => "ExpectationFailedException"
      case UnprocessableEntity => "UnprocessableEntityException"
      case TooManyRequests => "TooManyRequestsException"
      case UnavailableForLegalReasons => "UnavailableForLegalReasonsException"
      case InternalServerError => "InternalServerErrorException"
      case NotImplemented => "NotImplementedException"
      case ServiceUnavailable => "ServiceUnavailableException"
      case InsufficientStorage => "InsufficientStorageException"
  }

  // ---------------------------------------------------------------------------
  // Instances
  // ---------------------------------------------------------------------------

  /** An exception object: the kind it was constructed as, its `name` and its status code. */
  datatype Instance = Instance(kind: Kind, name: string, statusCode: nat)

  /** The class an instance's `constructor` property refers to. */
  function ConstructorOf(e: Instance): ExceptionClass
  {
    KindClass(e.kind)
  }

  /** JavaScript's `e instanceof c`: `c` lies on the prototype chain of `e`'s class. */
  predicate InstanceOf(e: Instance, c: ExceptionClass)
  {
    Extends(ConstructorOf(e), c)
  }

  /**
   * `new K` with no arguments. The result is an `Error` and an `HttpException`,
   * is an instance of its own kind's class and of no other kind's class, and
   * its `name` is the name of its constructor.
   */
  function Construct(k: Kind): (e: Instance)
    ensures e.kind == k && e.statusCode == StatusCode(k)
    ensures InstanceOf(e, ErrorClass) && InstanceOf(e, HttpExceptionClass)
    ensures forall j :: InstanceOf(e, KindClass(j)) <==> j == k
    ensures e.name == ClassName(ConstructorOf(e))
  {
    Instance(k, ClassName(KindClass(k)), StatusCode(k))
  }

  // ---------------------------------------------------------------------------
  // The suite's table and its per-entry expectations
  // ---------------------------------------------------------------------------

  /** One row of the suite's table: an exception class and the code it must report. */
  datatype Entry = Entry(exception: Kind, code: nat)

  /** The suite's table of kinds and their expected status codes, in its order. */
  const Table: seq<Entry> := [
    Entry(BadRequest, 400),
    Entry(Unauthorized, 401),
    Entry(PaymentRequired, 402),
    Entry(Forbidden, 403),
    Entry(NotFound, 404),
    Entry(MethodNotAllowed, 405),
    Entry(NotAcceptable, 406),
    Entry(ProxyAuthenticationRequired, 407),
    Entry(RequestTimeout, 408),
    Entry(Conflict, 409),
    Entry(Gone, 410),
    Entry(LengthRequired, 411),
    Entry(PreconditionFailed, 412),
    Entry(PayloadTooLarge, 413),
    Entry(URITooLong, 414),
    Entry(UnsupportedMediaType, 415),
    Entry(RangeNotSatisfiable, 416),
    Entry(ExpectationFailed, 417),
    Entry(UnprocessableEntity, 422),
    Entry(TooManyRequests, 429),
    Entry(UnavailableForLegalReasons, 451),
    Entry(InternalServerError, 500),
    Entry(NotImplemented, 501),
    Entry(ServiceUnavailable, 503),
    Entry(InsufficientStorage, 507)
  ]

  /** The four expectations the suite checks of one entry. */
  predicate EntryPasses(entry: Entry)
  {
    var e := Construct(entry.exception);
    && InstanceOf(e, ErrorClass)
    && InstanceOf(e, HttpExceptionClass)
    && e.statusCode == entry.code
    && e.name == ClassName(ConstructorOf(e))
  }

  /** The suite's `forEach`: every entry of `t` from index `from` on passes. */
  predicate AllPassFrom(t: seq<Entry>, from: nat)
    decreases |t| - from
  {
    from >= |t| || (EntryPasses(t[from]) && AllPassFrom(t, from + 1))
  }

  /** Of the suite's four expectations, only the status code can fail for an entry. */
  lemma EntryPassesIff(entry: Entry)
    ensures EntryPasses(entry) <==> entry.code == StatusCode(entry.exception)
  {
  }

  /** Each table entry lists its kind's own status code. */
  lemma TableEntryAgrees(i: nat)
    requires i < |Table|
    ensures Table[i].code == StatusCode(Table[i].exception)
  {
  }

  /** The `forEach` passes wherever every entry lists its kind's own code. */
  lemma {:induction false} AllPassFromAgreement(t: seq<Entry>, from: nat)
    requires forall i :: from <= i < |t| ==> t[i].code == StatusCode(t[i].exception)
    ensures AllPassFrom(t, from)
    decreases |t| - from
  {
    if from < |t| {
      EntryPassesIff(t[from]);
      AllPassFromAgreement(t, from + 1);
    }
  }

  /** Every expectation of the suite holds for the table. */
  lemma SuitePasses()
    ensures AllPassFrom(Table, 0)
  {
    forall i | 0 <= i < |Table|
      ensures Table[i].code == StatusCode(Table[i].exception)
    {
      TableEntryAgrees(i);
    }
    AllPassFromAgreement(Table, 0);
  }

  /** Each test case of the suite, one per table entry, passes. */
  lemma TestCasePasses(i: nat)
    requires i < |Table|
    ensures EntryPasses(Table[i])
  {
  }

  /** The listed codes are pairwise distinct. */
  lemma TableCodesDistinct(i: nat, j: nat)
    requires i < |Table| && j < |Table| && i != j
    ensures Table[i].code != Table[j].code
  {
  }

  /**
   * Every listed code lies in 400..507; the first 21 entries (up to 451) are
   * client errors (4xx), the last four are server errors (5xx).
   */
  lemma TableCodeClasses(i: nat)
    requires i < |Table|
    ensures 400 <= Table[i].code <= 507
    ensures i <= 20 <==> Table[i].code <= 451
    ensures i <= 20 <==> Table[i].code / 100 == 4
    ensures i > 20 <==> Table[i].code / 100 == 5
  {
  }

  /** Where a kind sits in the table: every kind is listed. */
  function IndexOf(k: Kind): (i: nat)
    ensures i < |Table| && Table[i].exception == k
  {
    match k
    case BadRequest => 0
    case Unauthorized => 1
    case PaymentRequired => 2
    case Forbidden => 3
    case NotFound => 4
    case MethodNotAllowed => 5
    case NotAcceptable => 6
    case ProxyAuthenticationRequired => 7
    case RequestTimeout => 8
    case Conflict => 9
    case Gone => 10
    case LengthRequired => 11
    case PreconditionFailed => 12
    case PayloadTooLarge => 13
    case URITooLong => 14
    case UnsupportedMediaType => 15
    case RangeNotSatisfiable => 16
    case ExpectationFailed => 17
    case UnprocessableEntity => 18
    case TooManyRequests => 19
    case UnavailableForLegalReasons => 20
    case InternalServerError => 21
    case NotImplemented => 22
    case ServiceUnavailable => 23
    case InsufficientStorage => 24
  }

  // ---------------------------------------------------------------------------
  // From a status code back to its kind
  // ---------------------------------------------------------------------------

  /** The kind of the first entry of `t` listing `code`, if any. */
  function Lookup(t: seq<Entry>, code: nat): (r: Option<Kind>)
    ensures r.Some? ==> Entry(r.value, code) in t
    ensures r.None? ==> forall i :: 0 <= i < |t| ==> t[i].code != code
  {
    if |t| == 0 then None
    else if t[0].code == code then Some(t[0].exception)
    else Lookup(t[1..], code)
  }

  /** An entry whose code no earlier entry lists is the one `Lookup` finds. */
  lemma {:induction false} LookupFinds(t: seq<Entry>, i: nat)
    requires i < |t|
    requires forall j :: 0 <= j < i ==> t[j].code != t[i].code
    ensures Lookup(t, t[i].code) == Some(t[i].exception)
  {
    if i > 0 {
      assert t[0].code != t[i].code;
      assert forall j :: 0 <= j < i - 1 ==> t[1..][j] == t[j + 1];
      LookupFinds(t[1..], i - 1);
    }
  }

  /** The kind whose status code is `code`, if one of the 25 has it. */
  function KindOf(code: nat): Option<Kind>
  {
    Lookup(Table, code)
  }

  /** `KindOf` inverts `StatusCode`. */
  lemma KindOfStatusCode(k: Kind)
    ensures KindOf(StatusCode(k)) == Some(k)
  {
    var i := IndexOf(k);
    TableEntryAgrees(i);
    forall j | 0 <= j < i
      ensures Table[j].code != Table[i].code
    {
      TableCodesDistinct(j, i);
    }
    LookupFinds(Table, i);
  }

  /** `KindOf` only answers with a kind that reports the code asked for. */
  lemma StatusCodeOfKindOf(code: nat, k: Kind)
    requires KindOf(code) == Some(k)
    ensures StatusCode(k) == code
  {
    var i :| 0 <= i < |Table| && Table[i] == Entry(k, code);
    TableEntryAgrees(i);
  }

  /** `KindOf` answers exactly for the 25 listed codes. */
  lemma KindOfDefinedExactly(code: nat)
    ensures KindOf(code).Some? <==> exists k :: StatusCode(k) == code
  {
    if KindOf(code).Some? {
      StatusCodeOfKindOf(code, KindOf(code).value);
    } else if k :| StatusCode(k) == code {
      KindOfStatusCode(k);
    }
  }

  /** No two kinds share a status code. */
  lemma StatusCodeInjective(a: Kind, b: Kind)
    requires StatusCode(a) == StatusCode(b)
    ensures a == b
  {
  }
}
