/**
 * Error classification (internal/s3tables/errors.go): the remote API's errors are
 * turned into one user-facing error record carrying a kind, a message and a
 * suggestion, and a few predicates ask which kind an error is.
 *
 * Strings model Go strings, which are byte strings: each `char` stands for one
 * byte, so `|s|` is Go's `len(s)`. Every literal of the program is ASCII.
 */
module Errors {
  import opened Wrappers

  /** ErrorType, in the order of its Go constants */
  datatype ErrorType = Unknown | NotFound | Conflict | Forbidden | BadRequest | InternalServer | Credentials

  /**
   * An error as the remote API hands it over. Go finds out what an error is with
   * `errors.As`; here each possibility is one variant:
   * the five exceptions the service models as types, any other error that carries
   * a service error code (a `smithy.APIError`, whose `Error()` text depends on the
   * concrete type and is therefore carried along), and an error without a code.
   */
  datatype RemoteError =
    | NotFoundException(message: string)
    | ConflictException(message: string)
    | ForbiddenException(message: string)
    | BadRequestException(message: string)
    | InternalServerErrorException(message: string)
    | ApiError(code: string, message: string, text: string)
    | Plain(text: string)
  {
    /** The service error code (`ErrorCode()`); a typed exception's code is its type name */
    function Code(): string
      requires !Plain?
    {
      match this
      case NotFoundException(_) => "NotFoundException"
      case ConflictException(_) => "ConflictException"
      case ForbiddenException(_) => "ForbiddenException"
      case BadRequestException(_) => "BadRequestException"
      case InternalServerErrorException(_) => "InternalServerErrorException"
      case ApiError(code, _, _) => code
    }

    /** The text `Error()` returns; the typed exceptions print "<code>: <message>" */
    function Text(): string
    {
      match this
      case ApiError(_, _, text) => text
      case Plain(text) => text
      case _ => Code() + ": " + message
    }
  }

  /** S3TablesError: the user-facing error; `original` is nil when the program raised it itself */
  datatype TablesError = TablesError(
    original: Option<RemoteError>,
    operation: string,
    message: string,
    suggestion: string,
    kind: ErrorType)
  {
    /** `Error()`: "Error: <op>: <msg>", followed by " - <suggestion>" when there is one */
    function Error(): (s: string)
      ensures var head := "Error: " + operation + ": " + message;
              |head| <= |s| && s[..|head|] == head &&
              (suggestion == "" <==> s == head) &&
              (suggestion != "" ==> s[|head|..] == " - " + suggestion)
    {
      if suggestion != "" then
        "Error: " + operation + ": " + message + " - " + suggestion
      else
        "Error: " + operation + ": " + message
    }
  }

  /** Any error value the program passes around: a raw remote error or one it has wrapped */
  datatype AnyError = Remote(cause: RemoteError) | Wrapped(err: TablesError)

  // ---------------------------------------------------------------------------
  // Case-insensitive substring search

  /** `toLower`: folds ASCII 'A'..'Z' and leaves every other byte alone */
  function ToLower(c: char): (r: char)
    ensures 'A' <= c <= 'Z' ==> r as int == c as int + 32
    ensures !('A' <= c <= 'Z') ==> r == c
    ensures !('A' <= r <= 'Z')
  {
    if 'A' <= c <= 'Z' then (c as int + 32) as char else c
  }

  /** `sub` equals the bytes of `s` from `start` on, up to ASCII case */
  predicate FoldMatchAt(s: string, start: nat, sub: string)
    requires start + |sub| <= |s|
  {
    forall j :: 0 <= j < |sub| ==> ToLower(s[start + j]) == ToLower(sub[j])
  }

  /** `sub` occurs in `s` at some offset, up to ASCII case */
  predicate ContainsFold(s: string, sub: string)
  {
    |sub| <= |s| && exists i :: 0 <= i <= |s| - |sub| && FoldMatchAt(s, i, sub)
  }

  /** `equalFoldAt`: compares `sub` with `s` from `start` on, byte by byte */
  method EqualFoldAt(s: string, start: nat, sub: string) returns (b: bool)
    requires start + |sub| <= |s|
    ensures b <==> FoldMatchAt(s, start, sub)
  {
    var j := 0;
    while j < |sub|
      invariant 0 <= j <= |sub|
      invariant forall k :: 0 <= k < j ==> ToLower(s[start + k]) == ToLower(sub[k])
    {
      var c1 := s[start + j];
      var c2 := sub[j];
      if c1 != c2 && ToLower(c1) != ToLower(c2) {
        return false;
      }
      j := j + 1;
    }
    return true;
  }

  /** `containsIgnoreCaseHelper`: tries every offset from the left */
  method ContainsIgnoreCaseHelper(s: string, sub: string) returns (b: bool)
    ensures b <==> ContainsFold(s, sub)
  {
    var i := 0;
    while i <= |s| - |sub|
      invariant 0 <= i
      invariant |sub| <= |s| ==> i <= |s| - |sub| + 1
      invariant forall k :: 0 <= k < i && k <= |s| - |sub| ==> !FoldMatchAt(s, k, sub)
    {
      var found := EqualFoldAt(s, i, sub);
      if found {
        return true;
      }
      i := i + 1;
    }
    return false;
  }

  /** `containsIgnoreCase`: the length guard and the two shortcuts, then the search */
  method ContainsIgnoreCase(s: string, sub: string) returns (b: bool)
    ensures b <==> ContainsFold(s, sub)
    ensures |sub| == 0 ==> b
    ensures |sub| > |s| ==> !b
  {
    if |s| < |sub| {
      return false;
    }
    if s == sub || |sub| == 0 {
      assert FoldMatchAt(s, 0, sub);
      return true;
    }
    if |s| > 0 {
      b := ContainsIgnoreCaseHelper(s, sub);
    } else {
      b := false;
    }
  }

  /** The ASCII lower-case image of a byte string */
  function Lower(s: string): (r: string)
    ensures |r| == |s| && forall i :: 0 <= i < |s| ==> r[i] == ToLower(s[i])
  {
    seq(|s|, i requires 0 <= i < |s| => ToLower(s[i]))
  }

  /** `sub` occurs exactly in `s` at offset `i` */
  predicate OccursAt(sub: string, s: string, i: int)
  {
    0 <= i <= |s| - |sub| && s[i..i + |sub|] == sub
  }

  /** An exact substring test: the reference the folded search is checked against */
  ghost predicate IsSubstring(sub: string, s: string)
  {
    exists i :: OccursAt(sub, s, i)
  }

  /** The folded search finds `sub` exactly when lower-casing both makes `sub` a plain substring of `s` */
  lemma ContainsFoldIsLoweredSubstring(s: string, sub: string)
    ensures ContainsFold(s, sub) <==> IsSubstring(Lower(sub), Lower(s))
  {
    var ls, lsub := Lower(s), Lower(sub);
    if ContainsFold(s, sub) {
      var i :| 0 <= i <= |s| - |sub| && FoldMatchAt(s, i, sub);
      assert ls[i..i + |lsub|] == lsub;
      assert OccursAt(lsub, ls, i);
    }
    if IsSubstring(lsub, ls) {
      var i :| OccursAt(lsub, ls, i);
      forall j | 0 <= j < |sub|
        ensures ToLower(s[i + j]) == ToLower(sub[j])
      {
        assert ls[i..i + |lsub|][j] == lsub[j];
      }
      assert FoldMatchAt(s, i, sub);
    }
  }

  // ---------------------------------------------------------------------------
  // Credential errors

  /** The keywords `isCredentialError` looks for, in its order */
  const CredentialKeywords: seq<string> := [
    "no credentials",
    "credential",
    "NoCredentialProviders",
    "SharedConfigProfileNotExist",
    "failed to refresh cached credentials"
  ]

  /** The text mentions one of the credential keywords, ignoring case */
  predicate IsCredentialText(text: string)
  {
    exists k :: 0 <= k < |CredentialKeywords| && ContainsFold(text, CredentialKeywords[k])
  }

  /** `isCredentialError`: tries the keywords in order on the error's text */
  method CheckCredentialText(text: string) returns (b: bool)
    ensures b <==> IsCredentialText(text)
  {
    var k := 0;
    while k < |CredentialKeywords|
      invariant 0 <= k <= |CredentialKeywords|
      invariant forall m :: 0 <= m < k ==> !ContainsFold(text, CredentialKeywords[m])
    {
      var found := ContainsIgnoreCase(text, CredentialKeywords[k]);
      if found {
        return true;
      }
      k := k + 1;
    }
    return false;
  }

  /** A text that contains `key` at `i` contains every piece of `key` at the matching offset */
  lemma FoldMatchShift(t: string, i: nat, key: string, k: nat, sub: string)
    requires i + |key| <= |t| && k + |sub| <= |key|
    requires FoldMatchAt(t, i, key) && FoldMatchAt(key, k, sub)
    ensures FoldMatchAt(t, i + k, sub)
  {
    forall j | 0 <= j < |sub|
      ensures ToLower(t[i + k + j]) == ToLower(sub[j])
    {
      assert ToLower(t[i + (k + j)]) == ToLower(key[k + j]);
    }
  }

  /** Three of the five keywords contain "credential", ignoring case */
  lemma KeywordsContainCredential()
    ensures FoldMatchAt(CredentialKeywords[0], 3, "credential")
    ensures FoldMatchAt(CredentialKeywords[2], 2, "credential")
    ensures FoldMatchAt(CredentialKeywords[4], 25, "credential")
  {
    var sub := "credential";
    forall j | 0 <= j < |sub|
      ensures ToLower(CredentialKeywords[0][3 + j]) == ToLower(sub[j])
      ensures ToLower(CredentialKeywords[2][2 + j]) == ToLower(sub[j])
      ensures ToLower(CredentialKeywords[4][25 + j]) == ToLower(sub[j])
    {
      assert j == 0 || j == 1 || j == 2 || j == 3 || j == 4 || j == 5 || j == 6 || j == 7 || j == 8 || j == 9;
    }
  }

  /**
   * Of the five keywords only two matter: every other one contains "credential".
   * A text is a credential error exactly when it mentions "credential" or
   * "SharedConfigProfileNotExist", in any case.
   */
  lemma CredentialTextReduces(text: string)
    ensures IsCredentialText(text) <==>
            ContainsFold(text, "credential") || ContainsFold(text, "SharedConfigProfileNotExist")
  {
    assert CredentialKeywords[1] == "credential";
    assert CredentialKeywords[3] == "SharedConfigProfileNotExist";
    if IsCredentialText(text) {
      var k :| 0 <= k < |CredentialKeywords| && ContainsFold(text, CredentialKeywords[k]);
      var key := CredentialKeywords[k];
      var i :| 0 <= i <= |text| - |key| && FoldMatchAt(text, i, key);
      KeywordsContainCredential();
      if k == 0 {
        FoldMatchShift(text, i, key, 3, "credential");
      } else if k == 2 {
        FoldMatchShift(text, i, key, 2, "credential");
      } else if k == 4 {
        FoldMatchShift(text, i, key, 25, "credential");
      }
    }
  }

  // ---------------------------------------------------------------------------
  // Wrapping

  /** `handleAPIError`: maps a service error code by the fixed table */
  function HandleApiError(operation: string, code: string, message: string, original: RemoteError): (r: TablesError)
    ensures r.operation == operation && r.original == Some(original)
    ensures r.kind == NotFound <==> code == "NotFoundException"
    ensures r.kind == Conflict <==> code == "ConflictException"
    ensures r.kind == Forbidden <==> code in {"ForbiddenException", "AccessDeniedException", "AccessDenied"}
    ensures r.kind == BadRequest <==> code in {"BadRequestException", "ValidationException"}
    ensures r.kind == InternalServer <==> code in {"InternalServerErrorException", "InternalServerError", "ServiceException"}
    ensures r.kind == Credentials <==> code in {"UnrecognizedClientException", "InvalidSignatureException"}
    ensures r.kind == NotFound ==> r.message == "resource not found" && r.suggestion == "verify the resource name and try again"
    ensures r.kind == Conflict ==> r.message == "resource already exists" && r.suggestion == "use a different name or check existing resources"
    ensures r.kind == Forbidden ==> r.message == "access denied" && r.suggestion == "check your AWS credentials and permissions"
    ensures r.kind == BadRequest ==> r.message == (if message != "" then message else "invalid request")
    ensures r.kind == BadRequest ==> r.suggestion == "check your input parameters"
    ensures r.kind == InternalServer ==> r.message == "AWS service error" && r.suggestion == "please retry the operation"
    ensures r.kind == Credentials ==> r.message == "invalid AWS credentials" && r.suggestion == "check your AWS credentials configuration"
    ensures r.kind == Unknown ==> r.message == (if message != "" then message else code) && r.suggestion == ""
    ensures r.kind != Unknown ==> |r.suggestion| > 0
  {
    if code == "NotFoundException" then
      TablesError(Some(original), operation, "resource not found", "verify the resource name and try again", NotFound)
    else if code == "ConflictException" then
      TablesError(Some(original), operation, "resource already exists", "use a different name or check existing resources", Conflict)
    else if code == "ForbiddenException" || code == "AccessDeniedException" || code == "AccessDenied" then
      TablesError(Some(original), operation, "access denied", "check your AWS credentials and permissions", Forbidden)
    else if code == "BadRequestException" || code == "ValidationException" then
      TablesError(Some(original), operation, if message != "" then message else "invalid request", "check your input parameters", BadRequest)
    else if code == "InternalServerErrorException" || code == "InternalServerError" || code == "ServiceException" then
      TablesError(Some(original), operation, "AWS service error", "please retry the operation", InternalServer)
    else if code == "UnrecognizedClientException" || code == "InvalidSignatureException" then
      TablesError(Some(original), operation, "invalid AWS credentials", "check your AWS credentials configuration", Credentials)
    else
      TablesError(Some(original), operation, if message != "" then message else code, "", Unknown)
  }

  /** The switch of `WrapError` for a non-nil error: typed exceptions first, then codes, then text */
  function Wrap(operation: string, err: RemoteError): (r: TablesError)
    ensures r.operation == operation && r.original == Some(err)
    ensures r.kind != Unknown <==> |r.suggestion| > 0
    ensures err.BadRequestException? ==>
              r.kind == BadRequest && r.message == "invalid request" && r.suggestion == "check your input parameters"
    ensures err.Plain? ==> (r.kind == Credentials <==> IsCredentialText(err.text))
    ensures err.Plain? && IsCredentialText(err.text) ==>
              r.message == "AWS credentials not configured" &&
              r.suggestion == "configure AWS credentials using 'aws configure' or environment variables"
    ensures err.Plain? && !IsCredentialText(err.text) ==> r.kind == Unknown && r.message == err.text && r.suggestion == ""
  {
    match err
    case NotFoundException(_) =>
      TablesError(Some(err), operation, "resource not found", "verify the resource name and try again", NotFound)
    case ConflictException(_) =>
      TablesError(Some(err), operation, "resource already exists", "use a different name or check existing resources", Conflict)
    case ForbiddenException(_) =>
      TablesError(Some(err), operation, "access denied", "check your AWS credentials and permissions", Forbidden)
    case BadRequestException(_) =>
      TablesError(Some(err), operation, "invalid request", "check your input parameters", BadRequest)
    case InternalServerErrorException(_) =>
      TablesError(Some(err), operation, "AWS service error", "please retry the operation", InternalServer)
    case ApiError(code, message, _) =>
      HandleApiError(operation, code, message, err)
    case Plain(text) =>
      if IsCredentialText(text) then
        TablesError(Some(err), operation, "AWS credentials not configured",
                    "configure AWS credentials using 'aws configure' or environment variables", Credentials)
      else
        TablesError(Some(err), operation, text, "", Unknown)
  }

  /** `WrapError`: nil stays nil; anything else becomes a classified S3TablesError */
  function WrapError(operation: string, err: Option<RemoteError>): (r: Option<TablesError>)
    ensures r.None? <==> err.None?
    ensures r.Some? ==> r.value.operation == operation && r.value.original == err
  {
    match err
    case None => None
    case Some(e) => Some(Wrap(operation, e))
  }

  // ---------------------------------------------------------------------------
  // Predicates on errors

  /** `IsNotFoundError`: by kind once wrapped, otherwise by type or by error code */
  function IsNotFoundError(e: AnyError): (b: bool)
    ensures e.Wrapped? ==> (b <==> e.err.kind == NotFound)
    ensures e.Remote? ==> (b <==> e.cause.NotFoundException? || (e.cause.ApiError? && e.cause.code == "NotFoundException"))
  {
    match e
    case Wrapped(t) => t.kind == NotFound
    case Remote(r) => !r.Plain? && r.Code() == "NotFoundException"
  }

  /** `IsConflictError`: by kind once wrapped, otherwise only the typed exception counts */
  function IsConflictError(e: AnyError): (b: bool)
    ensures e.Wrapped? ==> (b <==> e.err.kind == Conflict)
    ensures e.Remote? ==> (b <==> e.cause.ConflictException?)
    ensures e.Remote? && e.cause.ApiError? ==> !b
  {
    match e
    case Wrapped(t) => t.kind == Conflict
    case Remote(r) => r.ConflictException?
  }

  /** `IsCredentialError`: by kind once wrapped, otherwise by the keywords in the error's text */
  function IsCredentialError(e: AnyError): (b: bool)
    ensures e.Wrapped? ==> (b <==> e.err.kind == Credentials)
    ensures e.Remote? ==>
              (b <==> ContainsFold(e.cause.Text(), "credential") || ContainsFold(e.cause.Text(), "SharedConfigProfileNotExist"))
  {
    match e
    case Wrapped(t) => t.kind == Credentials
    case Remote(r) =>
      CredentialTextReduces(r.Text());
      IsCredentialText(r.Text())
  }

  /** `GetErrorType`: the kind of a wrapped error, Unknown for anything else */
  function GetErrorType(e: AnyError): (r: ErrorType)
    ensures e.Remote? ==> r == Unknown
    ensures r == NotFound <==> e.Wrapped? && IsNotFoundError(e)
    ensures r == Conflict <==> e.Wrapped? && IsConflictError(e)
    ensures r == Credentials <==> e.Wrapped? && IsCredentialError(e)
  {
    match e
    case Wrapped(t) => t.kind
    case Remote(_) => Unknown
  }

  // ---------------------------------------------------------------------------
  // Properties of the classification

  /** Wrapping keeps an error's not-found-ness, so callers may test before or after wrapping */
  lemma WrapPreservesNotFound(operation: string, r: RemoteError)
    ensures IsNotFoundError(Wrapped(Wrap(operation, r))) == IsNotFoundError(Remote(r))
  {
  }

  /** A plain error is a credential error before wrapping exactly when it is one after */
  lemma WrapPreservesPlainCredential(operation: string, text: string)
    ensures IsCredentialError(Wrapped(Wrap(operation, Plain(text)))) == IsCredentialError(Remote(Plain(text)))
  {
  }

  /**
   * A typed exception and a generic API error with the same code get the same kind and
   * suggestion; their messages differ only for a BadRequest whose service message is
   * neither empty nor the default text.
   */
  lemma TypedAndCodedAgree(operation: string, r: RemoteError, text: string)
    requires !r.ApiError? && !r.Plain?
    ensures var typed, coded := Wrap(operation, r), Wrap(operation, ApiError(r.Code(), r.message, text));
            typed.kind == coded.kind && typed.suggestion == coded.suggestion &&
            (typed.message != coded.message <==>
               r.BadRequestException? && r.message != "" && r.message != "invalid request")
  {
    match r
    case NotFoundException(_) =>
    case ConflictException(_) =>
    case ForbiddenException(_) =>
    case BadRequestException(_) =>
    case InternalServerErrorException(_) =>
  }

  /** Wrapping never loses a conflict */
  lemma WrapKeepsConflict(operation: string, r: RemoteError)
    ensures IsConflictError(Remote(r)) ==> IsConflictError(Wrapped(Wrap(operation, r)))
  {
  }

  /** ... but can gain one: a generic error coded "ConflictException" is only recognised once wrapped */
  lemma CodedConflictRecognisedOnlyWrapped(operation: string)
    ensures var r := ApiError("ConflictException", "", "");
            !IsConflictError(Remote(r)) && IsConflictError(Wrapped(Wrap(operation, r)))
  {
  }

  /** NotFound, Conflict, Forbidden and InternalServer errors always carry the same texts */
  lemma FixedTextsPerKind(operation: string, r: RemoteError)
    ensures var e := Wrap(operation, r);
            (e.kind == NotFound ==> e.message == "resource not found" &&
                                    e.suggestion == "verify the resource name and try again") &&
            (e.kind == Conflict ==> e.message == "resource already exists" &&
                                    e.suggestion == "use a different name or check existing resources") &&
            (e.kind == Forbidden ==> e.message == "access denied" &&
                                     e.suggestion == "check your AWS credentials and permissions") &&
            (e.kind == InternalServer ==> e.message == "AWS service error" &&
                                          e.suggestion == "please retry the operation")
  {
    match r
    case ApiError(code, message, _) =>
    case Plain(text) =>
      if IsCredentialText(text) {
        assert Wrap(operation, r).kind == Credentials;
      } else {
        assert Wrap(operation, r).kind == Unknown;
      }
    case _ =>
  }

  /** A wrapped error's text has the " - <suggestion>" tail exactly when its kind is known */
  lemma WrappedErrorTextShape(operation: string, r: RemoteError)
    ensures var e := Wrap(operation, r);
            e.kind == Unknown <==> e.Error() == "Error: " + operation + ": " + e.message
  {
    var e := Wrap(operation, r);
    var head := "Error: " + operation + ": " + e.message;
    assert e.Error()[..|head|] == head;
  }

  /** The error kind of a wrapped error is the kind Wrap chose; a raw error's is Unknown */
  lemma ErrorTypeOfWrapped(operation: string, r: RemoteError)
    ensures GetErrorType(Wrapped(Wrap(operation, r))) == Wrap(operation, r).kind
    ensures GetErrorType(Remote(r)) == Unknown
  {
  }
}
