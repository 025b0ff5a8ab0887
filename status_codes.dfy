/**
 * The HTTP handler's translation of an error key into a response status
 * (internal/adaper/http/handler/status_code_mapping.go).  The table is a map
 * literal that the handler only ever reads.
 */
module StatusCodes {

  import opened Wrappers
  import opened ServiceError

  // net/http status constants used by the table
  const StatusBadRequest := 400
  const StatusUnauthorized := 401
  const StatusForbidden := 403
  const StatusNotFound := 404
  const StatusConflict := 409
  const StatusInternalServerError := 500
  const StatusServiceUnavailable := 503

  /** The statuses that occur in the table. */
  const UsedStatuses: set<int> :=
    { StatusBadRequest, StatusUnauthorized, StatusForbidden, StatusNotFound,
      StatusConflict, StatusInternalServerError, StatusServiceUnavailable }

  const StatusCodeMapping: map<ErrorMessage, int> := map[
    // General
    ServerError := StatusInternalServerError,
    ServiceUnavailable := StatusServiceUnavailable,
    RecordNotFound := StatusNotFound,
    PermissionDenied := StatusForbidden,
    Unauthorized := StatusUnauthorized,
    IsNotDeletable := StatusForbidden,
    NoRowsEffected := StatusNotFound,
    FailedSendEmail := StatusInternalServerError,
    // User
    UserIsBanned := StatusForbidden,
    UserInActive := StatusForbidden,
    UserUnVerified := StatusForbidden,
    EmailRegistered := StatusConflict,
    CredentialInvalid := StatusUnauthorized,
    UserLogout := StatusUnauthorized,
    // OTP
    InvalidOTP := StatusBadRequest,
    OTPExpired := StatusUnauthorized,
    // Token
    InvalidToken := StatusUnauthorized,
    TokenExpired := StatusUnauthorized,
    // Validation
    InvalidRequestBody := StatusBadRequest,
    // Role
    RoleExisted := StatusConflict,
    // TOTP
    InvalidTOTPCode := StatusUnauthorized,
    TOTPNotEnrolled := StatusBadRequest
  ]

  /** The keys of the literal, in source order. */
  const MappedKeys: seq<ErrorMessage> :=
    [ ServerError, ServiceUnavailable, RecordNotFound, PermissionDenied,
      Unauthorized, IsNotDeletable, NoRowsEffected, FailedSendEmail,
      UserIsBanned, UserInActive, UserUnVerified, EmailRegistered,
      CredentialInvalid, UserLogout,
      InvalidOTP, OTPExpired,
      InvalidToken, TokenExpired,
      InvalidRequestBody,
      RoleExisted,
      InvalidTOTPCode, TOTPNotEnrolled ]

  /** A sequence without repetitions has as many elements as its set. */
  lemma {:induction false} DistinctCardinality<T>(xs: seq<T>)
    requires Distinct(xs)
    ensures |set x | x in xs| == |xs|
  {
    if xs != [] {
      var init := xs[..|xs| - 1];
      assert Distinct(init);
      DistinctCardinality(init);
      assert (set x | x in xs) == (set x | x in init) + {xs[|xs| - 1]};
      assert xs[|xs| - 1] !in (set x | x in init);
    }
  }

  /** The three keys the table leaves out. */
  const Unmapped: set<ErrorMessage> := {PasswordIsNull, FlowTokenExpired, InvalidFlowToken}

  /** A key has an entry exactly when it is not one of the three left out. */
  lemma MappedExactly(key: ErrorMessage)
    ensures key in StatusCodeMapping <==> key !in Unmapped
  {
  }

  /** MappedKeys lists exactly the keys of the table. */
  lemma MappedInOrder(key: ErrorMessage)
    ensures key in StatusCodeMapping <==> key in MappedKeys
  {
    MappedExactly(key);
    if key !in Unmapped {
      assert key in MappedKeys;
    }
  }

  /** `status, ok := StatusCodeMapping[key]`. */
  function StatusFor(key: ErrorMessage): (r: Option<int>)
    ensures r.Some? <==> key !in Unmapped
    ensures r.Some? ==> r.value in UsedStatuses
  {
    MappedExactly(key);
    if key in StatusCodeMapping then Some(StatusCodeMapping[key]) else None
  }

  lemma GeneralStatuses()
    ensures StatusFor(RecordNotFound) == Some(404)
    ensures StatusFor(ServerError) == Some(500)
    ensures StatusFor(ServiceUnavailable) == Some(503)
    ensures StatusFor(EmailRegistered) == Some(409) && StatusFor(RoleExisted) == Some(409)
  {
  }

  /** Two different keys share 401, so the status does not identify the key. */
  lemma NotInjective()
    ensures Unauthorized != CredentialInvalid
    ensures StatusFor(Unauthorized) == StatusFor(CredentialInvalid) == Some(401)
  {
  }

  /** The table has exactly 22 entries: all 25 keys but the three left unmapped. */
  lemma TableSize()
    ensures |StatusCodeMapping| == 22
  {
    forall k ensures k in StatusCodeMapping <==> k in MappedKeys {
      MappedInOrder(k);
    }
    assert StatusCodeMapping.Keys == set k | k in MappedKeys;
    assert Distinct(MappedKeys);
    DistinctCardinality(MappedKeys);
  }
}
