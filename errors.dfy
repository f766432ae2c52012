/**
 * The sentinel errors of the backend's service layer (`service.Err...`),
 * which the handlers compare by identity, plus one case for every other
 * error (wrapped database, hashing or random-source failures).
 */
module Errors {

  datatype ServiceError =
    | InvalidClient
    | InvalidRedirectURI
    | InvalidAuthorizationCode
    | AuthorizationCodeUsed
    | InvalidEmail
    | WeakPassword
    | EmailExists
    | InvalidCredentials
    | UserNotFound
    /** A token that failed parsing, signature, expiry or a claim check; `reason` is its text. */
    | TokenRejected(reason: string)
    /** Any other failure, wrapped with `fmt.Errorf`; `reason` is its text. */
    | Internal(reason: string)

  /** `err.Error()`. */
  function ErrorText(e: ServiceError): string {
    match e
    case InvalidClient => "无效的客户端ID或密钥"
    case InvalidRedirectURI => "重定向URI不匹配"
    case InvalidAuthorizationCode => "无效或已过期的授权码"
    case AuthorizationCodeUsed => "授权码已被使用"
    case InvalidEmail => "邮箱格式无效"
    case WeakPassword => "密码必须至少包含 6 个字符"
    case EmailExists => "该邮箱已被注册"
    case InvalidCredentials => "邮箱或密码错误"
    case UserNotFound => "用户不存在"
    case TokenRejected(reason) => reason
    case Internal(reason) => reason
  }
}
