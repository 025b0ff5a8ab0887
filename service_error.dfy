/**
 * The error-key taxonomy of pkg/serviceerror: every failure the services report
 * to a client is one of these keys, which the HTTP layer later translates into
 * a status code and a localised message.
 */
module ServiceError {

  import opened Wrappers

  /** One constructor per `ErrorMessage` variable of error_message.go. */
  datatype ErrorMessage =
    // General
    | ServerError | ServiceUnavailable | PermissionDenied | RecordNotFound
    | Unauthorized | IsNotDeletable | NoRowsEffected | FailedSendEmail
    // User
    | UserIsBanned | UserInActive | UserUnVerified | EmailRegistered
    | CredentialInvalid | UserLogout | PasswordIsNull
    // OTP
    | InvalidOTP | OTPExpired
    // Token
    | FlowTokenExpired | InvalidFlowToken | InvalidToken | TokenExpired
    // Validation
    | InvalidRequestBody
    // Role
    | RoleExisted
    // TOTP
    | InvalidTOTPCode | TOTPNotEnrolled

  const Prefix: string := "errors."

  /** The string value of each key, as the package declares it. */
  function Key(e: ErrorMessage): string
  {
    match e
    case ServerError => "errors.serverError"
    case ServiceUnavailable => "errors.serviceIsUnavailable"
    case PermissionDenied => "errors.permissionDenied"
    case RecordNotFound => "errors.recordNotFound"
    case Unauthorized => "errors.unauthorized"
    case IsNotDeletable => "errors.isNotDeletable"
    case NoRowsEffected => "errors.noRowsEffected"
    case FailedSendEmail => "errors.failedSendEmail"
    case UserIsBanned => "errors.userIsBanned"
    case UserInActive => "errors.userInActive"
    case UserUnVerified => "errors.userUnVerified"
    case EmailRegistered => "errors.emailRegistered"
    case CredentialInvalid => "errors.credentialInvalid"
    case UserLogout => "errors.userLogout"
    case PasswordIsNull => "errors.passwordIsNull"
    case InvalidOTP => "errors.invalidOTP"
    case OTPExpired => "errors.OTPExpired"
    case FlowTokenExpired => "errors.flowTokenExpired"
    case InvalidFlowToken => "errors.invalidFlowToken"
    case InvalidToken => "errors.invalidToken"
    case TokenExpired => "errors.tokenExpired"
    case InvalidRequestBody => "errors.invalidRequestBody"
    case RoleExisted => "errors.roleExisted"
    case InvalidTOTPCode => "errors.invalidTOTPCode"
    case TOTPNotEnrolled => "errors.totpNotEnrolled"
  }

  /** Every key, in declaration order. */
  const AllMessages: seq<ErrorMessage> :=
    [ ServerError, ServiceUnavailable, PermissionDenied, RecordNotFound,
      Unauthorized, IsNotDeletable, NoRowsEffected, FailedSendEmail,
      UserIsBanned, UserInActive, UserUnVerified, EmailRegistered,
      CredentialInvalid, UserLogout, PasswordIsNull,
      InvalidOTP, OTPExpired,
      FlowTokenExpired, InvalidFlowToken, InvalidToken, TokenExpired,
      InvalidRequestBody,
      RoleExisted,
      InvalidTOTPCode, TOTPNotEnrolled ]

  /** Every key string begins with "errors.". */
  lemma KeysArePrefixed(e: ErrorMessage)
    ensures Prefix <= Key(e)
  {
  }

  /** All 25 keys are listed, and listed once. */
  lemma AllMessagesComplete(e: ErrorMessage)
    ensures e in AllMessages
    ensures |AllMessages| == 25
    ensures forall i, j :: 0 <= i < j < |AllMessages| ==> AllMessages[i] != AllMessages[j]
  {
  }

  /** The 25 keys are pairwise distinct: constant to string is injective. */
  lemma KeyInjective(a: ErrorMessage, b: ErrorMessage)
    requires Key(a) == Key(b)
    ensures a == b
  {
  }

  lemma WellKnownKeys()
    ensures Key(ServerError) == "errors.serverError"
    ensures Key(RecordNotFound) == "errors.recordNotFound"
    ensures Key(OTPExpired) == "errors.OTPExpired"
  {
  }
}
