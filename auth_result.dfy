// AuthResult (domain) and AuthResultDTO (the API-facing form the gateway converts to).
module AuthResults {
  import opened Wrappers
  import opened AuthContexts

  /** The response codes AuthService.authenticate can fail with. */
  datatype ResponseCode =
    | INVALID_ACCESS_KEY
    | INVALID_APP_STATUS
    | APP_ACCESS_EXPIRED
    | INVALID_TIMESTAMP
    | INVALID_TIMESTAMP_FORMAT
    | SIGNATURE_VALIDATION_FAILED

  function Code(c: ResponseCode): string
  {
    match c
    case INVALID_ACCESS_KEY => "AUTH_001"
    case INVALID_APP_STATUS => "AUTH_002"
    case APP_ACCESS_EXPIRED => "AUTH_003"
    case INVALID_TIMESTAMP => "AUTH_004"
    case INVALID_TIMESTAMP_FORMAT => "AUTH_005"
    case SIGNATURE_VALIDATION_FAILED => "AUTH_006"
  }

  function Info(c: ResponseCode): string
  {
    match c
    case INVALID_ACCESS_KEY => "无效的访问密钥"
    case INVALID_APP_STATUS => "应用状态无效"
    case APP_ACCESS_EXPIRED => "应用访问已过期"
    case INVALID_TIMESTAMP => "请求时间戳无效"
    case INVALID_TIMESTAMP_FORMAT => "无效的时间戳格式"
    case SIGNATURE_VALIDATION_FAILED => "签名验证失败"
  }

  /** Distinct response codes have distinct code strings. */
  lemma CodeInjective(a: ResponseCode, b: ResponseCode)
    requires Code(a) == Code(b)
    ensures a == b
  {
    assert Code(a)[7] == Code(b)[7];
  }

  datatype AuthResult = AuthResult(
    authenticated: bool,
    context: Option<AuthContext>,
    errorCode: Option<string>,
    errorMessage: Option<string>)

  function Success(ctx: AuthContext): (r: AuthResult)
    ensures IsSuccess(r) && r.context == Some(ctx)
    ensures r.errorCode.None? && r.errorMessage.None?
  {
    AuthResult(true, Some(ctx), None, None)
  }

  function AuthenticationFailed(code: string, message: string): (r: AuthResult)
    ensures !IsSuccess(r) && r.context.None?
    ensures r.errorCode == Some(code) && r.errorMessage == Some(message)
  {
    AuthResult(false, None, Some(code), Some(message))
  }

  predicate IsSuccess(r: AuthResult)
  {
    r.authenticated && r.context.Some?
  }

  /** getAppIdValue: the context's app id when the result is a success, otherwise null. */
  function AppIdValue(r: AuthResult): (id: Option<string>)
    ensures id.Some? <==> IsSuccess(r)
  {
    if IsSuccess(r) then Some(r.context.value.appId) else None
  }

  /** A result made by a factory carries an app id exactly when it was made by Success. */
  lemma AppIdOfFactories(ctx: AuthContext, code: string, message: string)
    ensures AppIdValue(Success(ctx)) == Some(ctx.appId)
    ensures AppIdValue(AuthenticationFailed(code, message)) == None
  {
  }

  datatype AuthResultDTO = AuthResultDTO(
    authenticated: bool,
    authorized: bool,
    appId: Option<string>,
    errorCode: Option<string>,
    errorMessage: Option<string>)

  function DtoSuccess(appId: string): (d: AuthResultDTO)
    ensures DtoIsSuccess(d) && d.appId == Some(appId) && d.errorCode.None? && d.errorMessage.None?
  {
    AuthResultDTO(true, true, Some(appId), None, None)
  }

  function DtoAuthenticationFailed(code: string, message: string): (d: AuthResultDTO)
    ensures !d.authenticated && !d.authorized && d.appId.None?
    ensures d.errorCode == Some(code) && d.errorMessage == Some(message)
  {
    AuthResultDTO(false, false, None, Some(code), Some(message))
  }

  function DtoAuthorizationFailed(appId: string, code: string, message: string): (d: AuthResultDTO)
    ensures d.authenticated && !d.authorized && d.appId == Some(appId)
    ensures d.errorCode == Some(code) && d.errorMessage == Some(message)
  {
    AuthResultDTO(true, false, Some(appId), Some(code), Some(message))
  }

  predicate DtoIsSuccess(d: AuthResultDTO)
  {
    d.authenticated && d.authorized
  }

  /** Only the success factory yields a successful DTO. */
  lemma OnlyDtoSuccessSucceeds(appId: string, code: string, message: string)
    ensures !DtoIsSuccess(DtoAuthenticationFailed(code, message))
    ensures !DtoIsSuccess(DtoAuthorizationFailed(appId, code, message))
  {
  }
}
