/**
 * The UI process's handler for auth requests arriving over IPC
 * (`NEAuthServiceProcHandlerIMP`). It keeps one pending login callback and
 * one pending logout callback, answers some requests at once, and answers
 * the pending ones when the auth status changes.
 */
module AuthProcHandler {
  import opened Wrappers
  import opened Callbacks
  import opened ConfigStore

  /** `NEAuthStatus`, as far as the handler's `switch` tells its values apart. */
  datatype AuthStatus =
    | AuthIdle
    | LoginProcessing
    | LoginSucceeded
    | LoginFailed
    | LogoutSucceeded
    | LogoutFailed
    | InitRtcFailed
    | InitImFailed
    | EnterImFailed
    | ImKickOut
    | OtherAuthStatus(code: int)

  /** The part of `AuthManager::getAuthInfo()` the handler reads. */
  datatype AuthInfo = AuthInfo(
    accountId: string, accountToken: string, username: string, appKey: string,
    displayName: string, shortRoomId: string, personalRoomId: string)

  /** `nem_sdk_interface::AccountInfo`, the record `onGetAccountInfo` answers with. */
  datatype AccountInfo = AccountInfo(
    loginType: int, username: string, appKey: string, accountId: string, accountToken: string,
    accountName: string, shortMeetingId: string, personalMeetingId: string)

  /**
   * `NELoginType` values; the SDK header that fixes their numbers is not
   * part of this model.
   */
  const LoginTypeUnknown: int     // kLoginTypeUnknown
  const DefaultLoginType: int     // the loginType of a default-constructed AccountInfo

  const LoginFailedText := "Failed to login to aPaas server"
  const NotLoggedInText := "Not logged in"

  /** A result code and message handed to a callback. */
  datatype Response = Response(code: int, message: string)

  // ----------------------------------------------------- case-insensitive match

  /** Case folding of one character, for the ASCII letters. */
  function FoldChar(c: char): char
  {
    if 'A' <= c <= 'Z' then (c as int - 'A' as int + 'a' as int) as char else c
  }

  function Folded(s: string): (r: string)
  {
    if s == [] then [] else [FoldChar(s[0])] + Folded(s[1..])
  }

  /** `QString::compare(a, b, Qt::CaseInsensitive) == 0`. */
  predicate SameIgnoringCase(a: string, b: string)
  {
    Folded(a) == Folded(b)
  }

  lemma {:induction false} FoldedPointwise(s: string)
    ensures |Folded(s)| == |s|
    ensures forall i :: 0 <= i < |s| ==> Folded(s)[i] == FoldChar(s[i])
  {
    if s != [] {
      FoldedPointwise(s[1..]);
    }
  }

  /** Two texts match ignoring case exactly when they agree letter by letter after folding. */
  lemma SameIgnoringCaseSpec(a: string, b: string)
    ensures SameIgnoringCase(a, b) <==> |a| == |b| && forall i :: 0 <= i < |a| ==> FoldChar(a[i]) == FoldChar(b[i])
  {
    FoldedPointwise(a);
    FoldedPointwise(b);
    if |a| == |b| && forall i :: 0 <= i < |a| ==> FoldChar(a[i]) == FoldChar(b[i]) {
      assert forall i :: 0 <= i < |a| ==> Folded(a)[i] == Folded(b)[i];
    }
  }

  lemma {:induction false} FoldedIdempotent(s: string)
    ensures Folded(Folded(s)) == Folded(s)
  {
    if s != [] {
      FoldedIdempotent(s[1..]);
      assert Folded(s)[1..] == Folded(s[1..]);
    }
  }

  /** Changing the letter case of either side does not change whether two texts match. */
  lemma SameIgnoringCaseFolded(a: string, b: string)
    ensures SameIgnoringCase(a, b) <==> SameIgnoringCase(Folded(a), b)
    ensures SameIgnoringCase(a, b) <==> SameIgnoringCase(a, Folded(b))
  {
    FoldedIdempotent(a);
    FoldedIdempotent(b);
  }

  // ------------------------------------------------------------------ login

  /**
   * How `onLogin` answers when the auth status is not idle: a login that
   * repeats the current account id and token, ignoring case, while logged
   * in succeeds; anything else fails. `None` when the status is idle and the
   * login goes ahead.
   */
  function BusyLoginReply(status: AuthStatus, current: AuthInfo, accountId: string, token: string): (r: Option<Response>)
    ensures r.None? <==> status == AuthIdle
    ensures r.Some? ==> r.value == Response(Success, "") || r.value == Response(Failed, LoginFailedText)
    ensures r.Some? && r.value.message == "" ==>
      status == LoginSucceeded && SameIgnoringCase(current.accountId, accountId) && SameIgnoringCase(current.accountToken, token)
  {
    if status == AuthIdle then None
    else if status == LoginSucceeded && SameIgnoringCase(current.accountId, accountId)
            && SameIgnoringCase(current.accountToken, token)
    then Some(Response(Success, ""))
    else Some(Response(Failed, LoginFailedText))
  }

  /** Logging in again with the current credentials, in any letter case, succeeds at once. */
  lemma RepeatedLoginSucceeds(current: AuthInfo, accountId: string, token: string)
    requires Folded(accountId) == Folded(current.accountId) && Folded(token) == Folded(current.accountToken)
    ensures BusyLoginReply(LoginSucceeded, current, accountId, token) == Some(Response(Success, ""))
  {
  }

  /** The busy answer does not depend on the letter case of the credentials given. */
  lemma BusyLoginReplyIgnoresCase(status: AuthStatus, current: AuthInfo, accountId: string, token: string)
    ensures BusyLoginReply(status, current, accountId, token)
         == BusyLoginReply(status, current, Folded(accountId), Folded(token))
  {
    SameIgnoringCaseFolded(current.accountId, accountId);
    SameIgnoringCaseFolded(current.accountToken, token);
  }

  /**
   * A login while no account is logged in, or with another account id (one
   * of another length, or differing in some letter even ignoring case), or
   * with another token, is refused with the login-failure text.
   */
  lemma BusyLoginOtherAccountFails(status: AuthStatus, current: AuthInfo, accountId: string, token: string)
    requires status != AuthIdle
    requires || status != LoginSucceeded
             || |accountId| != |current.accountId|
             || (exists i :: 0 <= i < |accountId| && i < |current.accountId| && FoldChar(accountId[i]) != FoldChar(current.accountId[i]))
             || !SameIgnoringCase(current.accountToken, token)
    ensures BusyLoginReply(status, current, accountId, token) == Some(Response(Failed, LoginFailedText))
  {
    SameIgnoringCaseSpec(current.accountId, accountId);
  }

  // ----------------------------------------------------------------- logout

  const LoginTypeKey := "localNELoginType"
  const AppKeyKey := "localNEAppKey"
  const AccountIdKey := "localNEAccountId"
  const AccountTokenKey := "localNEAccountToken"

  /** The four cached-login settings a logout with `cleanup` resets. */
  function CleanedLogin(store: Store): (r: Store)
    ensures r.Keys == store.Keys + {LoginTypeKey, AppKeyKey, AccountIdKey, AccountTokenKey}
    ensures r[LoginTypeKey] == Number(LoginTypeUnknown)
    ensures TextOr(r, AppKeyKey) == "" && TextOr(r, AccountIdKey) == "" && TextOr(r, AccountTokenKey) == ""
    ensures forall k :: k in store && k !in {LoginTypeKey, AppKeyKey, AccountIdKey, AccountTokenKey} ==> r[k] == store[k]
  {
    store[LoginTypeKey := Number(LoginTypeUnknown)][AppKeyKey := Text("")]
         [AccountIdKey := Text("")][AccountTokenKey := Text("")]
  }

  /** Cleaning the cached login twice is the same as once. */
  lemma CleanedLoginIdempotent(store: Store)
    ensures CleanedLogin(CleanedLogin(store)) == CleanedLogin(store)
  {
    var once := CleanedLogin(store);
    var twice := CleanedLogin(once);
    assert forall k :: k in twice ==> twice[k] == once[k];
  }

  // ----------------------------------------------------------- status change

  /** The statuses that answer the pending callbacks with the event's own error code. */
  predicate IsLoginFailure(status: AuthStatus)
  {
    status == LoginFailed || status == InitRtcFailed || status == InitImFailed || status == EnterImFailed
  }

  /**
   * The answer `onAuthStatusChanged` gives the pending callbacks, or `None`
   * when the status returns early and leaves both slots alone.
   */
  function StatusResponse(status: AuthStatus, errorCode: int, errorMessage: string): (r: Option<Response>)
    ensures r.Some? <==> IsLoginFailure(status) || status == LoginSucceeded || status == LogoutSucceeded
    ensures IsLoginFailure(status) ==> r.value.code == errorCode && r.value.message != ""
    ensures IsLoginFailure(status) && errorMessage != "" ==> r.value.message == errorMessage
    ensures status == LoginSucceeded || status == LogoutSucceeded ==> r.value == Response(Success, errorMessage)
  {
    match status
    case LoginFailed | InitRtcFailed | InitImFailed | EnterImFailed =>
      Some(Response(errorCode, if errorMessage == "" then LoginFailedText else errorMessage))
    case LoginSucceeded | LogoutSucceeded => Some(Response(Success, errorMessage))
    case _ => None
  }

  // ------------------------------------------------------------ account info

  /** `AccountInfo` as the posted task fills it from the current auth info and login type. */
  function FilledAccountInfo(current: AuthInfo, loginType: int): AccountInfo
  {
    AccountInfo(loginType, current.username, current.appKey, current.accountId, current.accountToken,
                current.displayName, current.shortRoomId, current.personalRoomId)
  }

  function DefaultAccountInfo(): AccountInfo
  {
    AccountInfo(DefaultLoginType, "", "", "", "", "", "", "")
  }

  /** One invocation of a `NEGetAccountInfoCallback`. */
  datatype InfoReply = InfoReply(to: Callback, code: int, message: string, info: AccountInfo)

  function NotifyInfo(cb: Option<Callback>, code: int, message: string, info: AccountInfo): (r: seq<InfoReply>)
    ensures |r| == if cb.Some? then 1 else 0
    ensures cb.Some? ==> r[0] == InfoReply(cb.value, code, message, info)
  {
    if cb.Some? then [InfoReply(cb.value, code, message, info)] else []
  }

  /**
   * The posted account-info task as written: when not logged in it answers
   * "Not logged in" and then, with no return in between, goes on to answer
   * success with the filled record as well.
   */
  function AccountInfoRepliesAsWritten(cb: Option<Callback>, status: AuthStatus, current: AuthInfo, loginType: int): seq<InfoReply>
  {
    (if status != LoginSucceeded then NotifyInfo(cb, Failed, NotLoggedInText, DefaultAccountInfo()) else [])
    + NotifyInfo(cb, Success, "", FilledAccountInfo(current, loginType))
  }

  /** As written, a caller that is not logged in gets two answers: a failure, then a success. */
  lemma AccountInfoAnsweredTwice(cb: Callback, status: AuthStatus, current: AuthInfo, loginType: int)
    requires status != LoginSucceeded
    ensures var r := AccountInfoRepliesAsWritten(Some(cb), status, current, loginType);
      && |r| == 2
      && r[0] == InfoReply(cb, Failed, NotLoggedInText, DefaultAccountInfo())
      && r[1] == InfoReply(cb, Success, "", FilledAccountInfo(current, loginType))
  {
  }

  /** The account-info task with the evidently intended return after the failure answer. */
  function AccountInfoReplies(cb: Option<Callback>, status: AuthStatus, current: AuthInfo, loginType: int): (r: seq<InfoReply>)
    ensures |r| == if cb.Some? then 1 else 0
    ensures cb.Some? && status != LoginSucceeded ==> r[0] == InfoReply(cb.value, Failed, NotLoggedInText, DefaultAccountInfo())
    ensures cb.Some? && status == LoginSucceeded ==> r[0] == InfoReply(cb.value, Success, "", FilledAccountInfo(current, loginType))
  {
    if status != LoginSucceeded then NotifyInfo(cb, Failed, NotLoggedInText, DefaultAccountInfo())
    else NotifyInfo(cb, Success, "", FilledAccountInfo(current, loginType))
  }

  /**
   * The correction changes nothing while logged in, and when not logged in
   * it keeps exactly the first of the two answers given as written.
   */
  lemma AccountInfoCorrectionAgrees(cb: Option<Callback>, status: AuthStatus, current: AuthInfo, loginType: int)
    ensures status == LoginSucceeded ==>
      AccountInfoReplies(cb, status, current, loginType) == AccountInfoRepliesAsWritten(cb, status, current, loginType)
    ensures status != LoginSucceeded && cb.Some? ==>
      AccountInfoReplies(cb, status, current, loginType) == AccountInfoRepliesAsWritten(cb, status, current, loginType)[..1]
  {
    if status != LoginSucceeded && cb.Some? {
      AccountInfoAnsweredTwice(cb.value, status, current, loginType);
    }
  }

  // ----------------------------------------------------------------- class

  /** Work handed to `Invoker::execute`; what `AuthManager` does with it is not part of this model. */
  datatype AuthTask =
    | LoginWithPasswordTask(account: string, password: string)
    | LoginWithSsoTokenTask(ssoToken: string)
    | TryAutoLoginTask(callback: Option<Callback>)
    | LoginTask(accountId: string, accountToken: string)
    | AccountInfoTask(infoCallback: Option<Callback>)
    | LogoutTask

  class AuthServiceHandler {
    /** `m_loginCallback` and `m_logoutCallback`. */
    var loginSlot: Option<Callback>
    var logoutSlot: Option<Callback>
    /** Every login or logout callback invocation so far, oldest first. */
    var replies: seq<Reply>
    /** Every account-info callback invocation so far, oldest first. */
    var infoReplies: seq<InfoReply>
    /** Every task posted to the UI thread so far, oldest first. */
    var posted: seq<AuthTask>
    /** The settings store the handler writes to. */
    var config: Store
    /** How many times the auth-info-expired notification has been connected. */
    var expiryConnections: nat
    /** How many kick-out notices have been forwarded to the client. */
    var kickouts: nat

    constructor (config: Store)
      ensures loginSlot == None && logoutSlot == None
      ensures replies == [] && infoReplies == [] && posted == []
      ensures this.config == config && expiryConnections == 0 && kickouts == 0
    {
      loginSlot, logoutSlot := None, None;
      replies, infoReplies, posted := [], [], [];
      this.config := config;
      expiryConnections, kickouts := 0, 0;
    }

    /** `onLoginWithNEMeeting`: the slot is overwritten and the password login posted. */
    method OnLoginWithNEMeeting(account: string, password: string, cb: Option<Callback>)
      modifies this
      ensures loginSlot == cb && posted == old(posted) + [LoginWithPasswordTask(account, password)]
      ensures logoutSlot == old(logoutSlot) && replies == old(replies) && infoReplies == old(infoReplies)
      ensures config == old(config) && expiryConnections == old(expiryConnections) && kickouts == old(kickouts)
    {
      loginSlot := cb;
      posted := posted + [LoginWithPasswordTask(account, password)];
    }

    /** `onLoginWithSSOToken`: the slot is overwritten and the token login posted. */
    method OnLoginWithSsoToken(ssoToken: string, cb: Option<Callback>)
      modifies this
      ensures loginSlot == cb && posted == old(posted) + [LoginWithSsoTokenTask(ssoToken)]
      ensures logoutSlot == old(logoutSlot) && replies == old(replies) && infoReplies == old(infoReplies)
      ensures config == old(config) && expiryConnections == old(expiryConnections) && kickouts == old(kickouts)
    {
      loginSlot := cb;
      posted := posted + [LoginWithSsoTokenTask(ssoToken)];
    }

    /** `onTryAutoLogin`: the slot is overwritten and the callback also travels with the posted task. */
    method OnTryAutoLogin(cb: Option<Callback>)
      modifies this
      ensures loginSlot == cb && posted == old(posted) + [TryAutoLoginTask(cb)]
      ensures logoutSlot == old(logoutSlot) && replies == old(replies) && infoReplies == old(infoReplies)
      ensures config == old(config) && expiryConnections == old(expiryConnections) && kickouts == old(kickouts)
    {
      loginSlot := cb;
      posted := posted + [TryAutoLoginTask(cb)];
    }

    /**
     * `onLogin(accountId, accountToken, cb)`. Unless the status is idle the
     * callback is answered at once as `BusyLoginReply` says and the slot is
     * left as it was; when idle the slot is overwritten, without any
     * frequent-operation guard, and the login posted.
     */
    method OnLogin(accountId: string, accountToken: string, cb: Option<Callback>, status: AuthStatus, current: AuthInfo)
      modifies this
      ensures logoutSlot == old(logoutSlot) && infoReplies == old(infoReplies)
      ensures config == old(config) && expiryConnections == old(expiryConnections) && kickouts == old(kickouts)
      ensures match BusyLoginReply(status, current, accountId, accountToken)
        case Some(answer) =>
          && loginSlot == old(loginSlot) && posted == old(posted)
          && replies == old(replies) + Notify(cb, answer.code, answer.message)
        case None =>
          && loginSlot == cb && replies == old(replies)
          && posted == old(posted) + [LoginTask(accountId, accountToken)]
    {
      if status != AuthIdle {
        if status == LoginSucceeded && SameIgnoringCase(current.accountId, accountId)
           && SameIgnoringCase(current.accountToken, accountToken) {
          replies := replies + Notify(cb, Success, "");
          return;
        }
        replies := replies + Notify(cb, Failed, LoginFailedText);
        return;
      }
      loginSlot := cb;
      posted := posted + [LoginTask(accountId, accountToken)];
    }

    /** `onLogin(appKey, account, token, cb)`: the same as the overload without an app key, which it only logs. */
    method OnLoginWithAppKey(appKey: string, account: string, token: string, cb: Option<Callback>,
                             status: AuthStatus, current: AuthInfo)
      modifies this
      ensures logoutSlot == old(logoutSlot) && infoReplies == old(infoReplies)
      ensures config == old(config) && expiryConnections == old(expiryConnections) && kickouts == old(kickouts)
      ensures match BusyLoginReply(status, current, account, token)
        case Some(answer) =>
          && loginSlot == old(loginSlot) && posted == old(posted)
          && replies == old(replies) + Notify(cb, answer.code, answer.message)
        case None =>
          && loginSlot == cb && replies == old(replies)
          && posted == old(posted) + [LoginTask(account, token)]
    {
      OnLogin(account, token, cb, status, current);
    }

    /** `onLoginAnonymous` only logs: nothing changes and the callback is never answered. */
    method OnLoginAnonymous(cb: Option<Callback>)
      ensures loginSlot == old(loginSlot) && logoutSlot == old(logoutSlot)
      ensures replies == old(replies) && infoReplies == old(infoReplies) && posted == old(posted)
    {
    }

    /**
     * `onLogout`. While idle the callback gets success at once and the slot
     * is not set; otherwise the slot is overwritten, `cleanup` resets the
     * cached login settings, and the logout is posted.
     */
    method OnLogout(cleanup: bool, cb: Option<Callback>, status: AuthStatus)
      modifies this
      ensures loginSlot == old(loginSlot) && infoReplies == old(infoReplies)
      ensures expiryConnections == old(expiryConnections) && kickouts == old(kickouts)
      ensures status == AuthIdle ==>
        && logoutSlot == old(logoutSlot) && config == old(config) && posted == old(posted)
        && replies == old(replies) + Notify(cb, Success, "")
      ensures status != AuthIdle ==>
        && logoutSlot == cb && replies == old(replies) && posted == old(posted) + [LogoutTask]
        && config == (if cleanup then CleanedLogin(old(config)) else old(config))
    {
      if status == AuthIdle {
        replies := replies + Notify(cb, Success, "");
        return;
      }
      logoutSlot := cb;
      if cleanup {
        config := config[LoginTypeKey := Number(LoginTypeUnknown)];
        config := config[AppKeyKey := Text("")];
        config := config[AccountIdKey := Text("")];
        config := config[AccountTokenKey := Text("")];
      }
      posted := posted + [LogoutTask];
    }

    /** `onGetAccountInfo` posts the lookup; the callback is answered when it runs. */
    method OnGetAccountInfo(cb: Option<Callback>)
      modifies this
      ensures posted == old(posted) + [AccountInfoTask(cb)]
      ensures loginSlot == old(loginSlot) && logoutSlot == old(logoutSlot)
      ensures replies == old(replies) && infoReplies == old(infoReplies)
      ensures config == old(config) && expiryConnections == old(expiryConnections) && kickouts == old(kickouts)
    {
      posted := posted + [AccountInfoTask(cb)];
    }

    /**
     * The posted account-info lookup when it runs, with the return after
     * the failure answer that the source lacks (see `AccountInfoRepliesAsWritten`).
     */
    method RunAccountInfoTask(cb: Option<Callback>, status: AuthStatus, current: AuthInfo, loginType: int)
      modifies this
      ensures infoReplies == old(infoReplies) + AccountInfoReplies(cb, status, current, loginType)
      ensures loginSlot == old(loginSlot) && logoutSlot == old(logoutSlot)
      ensures replies == old(replies) && posted == old(posted)
      ensures config == old(config) && expiryConnections == old(expiryConnections) && kickouts == old(kickouts)
    {
      if status != LoginSucceeded {
        if cb.Some? {
          infoReplies := infoReplies + [InfoReply(cb.value, Failed, NotLoggedInText, DefaultAccountInfo())];
        }
        return;
      }
      var info := FilledAccountInfo(current, loginType);
      if cb.Some? {
        infoReplies := infoReplies + [InfoReply(cb.value, Success, "", info)];
      }
    }

    /**
     * `onAuthStatusChanged`. A status `StatusResponse` answers invokes the
     * pending login callback and then the pending logout callback, once
     * each, and empties both slots; any other status leaves them alone. A
     * login success also connects the expiry notification again, and a
     * kick-out is forwarded to the client.
     */
    method OnAuthStatusChanged(status: AuthStatus, errorCode: int, errorMessage: string)
      modifies this
      ensures infoReplies == old(infoReplies) && posted == old(posted) && config == old(config)
      ensures expiryConnections == old(expiryConnections) + (if status == LoginSucceeded then 1 else 0)
      ensures kickouts == old(kickouts) + (if status == ImKickOut then 1 else 0)
      ensures StatusResponse(status, errorCode, errorMessage).None? ==>
        loginSlot == old(loginSlot) && logoutSlot == old(logoutSlot) && replies == old(replies)
      ensures StatusResponse(status, errorCode, errorMessage).Some? ==>
        var answer := StatusResponse(status, errorCode, errorMessage).value;
        && loginSlot == None && logoutSlot == None
        && replies == old(replies) + Notify(old(loginSlot), answer.code, answer.message)
                                   + Notify(old(logoutSlot), answer.code, answer.message)
    {
      var responseCode := Failed;
      var message := errorMessage;
      match status {
        case LoginFailed | InitRtcFailed | InitImFailed | EnterImFailed =>
          responseCode := errorCode;
          message := if message == "" then LoginFailedText else message;
        case LoginSucceeded =>
          expiryConnections := expiryConnections + 1;
          responseCode := Success;
        case LogoutSucceeded =>
          responseCode := Success;
        case ImKickOut =>
          kickouts := kickouts + 1;
          return;
        case _ =>
          return;
      }
      if loginSlot.Some? {
        replies := replies + [Reply(loginSlot.value, responseCode, message)];
        loginSlot := None;
      }
      if logoutSlot.Some? {
        replies := replies + [Reply(logoutSlot.value, responseCode, message)];
        logoutSlot := None;
      }
    }
  }

  /**
   * A login followed by its resolving status change answers the new
   * callback exactly once, with the status's response, and leaves no login
   * pending.
   */
  method LoginThenResolve(h: AuthServiceHandler, accountId: string, accountToken: string, cb: Callback,
                          current: AuthInfo, outcome: AuthStatus, errorCode: int, errorMessage: string)
    requires StatusResponse(outcome, errorCode, errorMessage).Some?
    requires h.logoutSlot.None?
    modifies h
    ensures var answer := StatusResponse(outcome, errorCode, errorMessage).value;
      h.replies == old(h.replies) + [Reply(cb, answer.code, answer.message)]
    ensures h.loginSlot == None && h.logoutSlot == None
  {
    h.OnLogin(accountId, accountToken, Some(cb), AuthIdle, current);
    h.OnAuthStatusChanged(outcome, errorCode, errorMessage);
  }
}
