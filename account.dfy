/** The account rules: the throttled sign-up and reset-password requests,
    the verification hash check, the reset-link token check, and the role a
    user gets at sign-in.  Users, pending sign-ups, institute records and
    carts live in maps keyed by the institute id.  Hashing, random strings,
    mail and tokens are opaque values handed in by the caller; times are
    milliseconds. */
module Account {
  import opened Optional
  import FieldAccess

  type Id = string

  const TicksPerHour := 3600000

  /** Values the handlers take from configuration and schema defaults. */
  datatype Config = Config(
    maxRequests: int,          // requests allowed within one window
    blockageHours: int,        // length of the throttling window
    resetExpiryHours: int,     // lifetime of a reset link
    mailDomain: string,
    initialRequestCount: int,  // the pending record's default counter
    newUserType: string,       // the user record's default role
    newUserActive: bool)       // the user record's default activity flag

  /** The institute's record of a member. */
  datatype UserInfo = UserInfo(emailId: string, userType: string, userStatus: Option<string>)

  /** A sign-up waiting for its verification link. */
  datatype PendingUser = PendingUser(
    daiictId: Id, primaryEmail: string, password: string, createdOn: int, randomHash: string, totalRequestSent: int)

  datatype User = User(
    daiictId: Id,
    primaryEmail: string,
    password: string,
    createdOn: int,
    cartId: Id,
    userType: string,
    isActive: bool,
    resetPasswordToken: Option<string>,
    resetPasswordExpires: Option<int>,
    resetPasswordRequest: Option<int>,
    resetPasswordRequestTime: Option<int>)

  /** The cart every verified user starts with. */
  datatype NewCart = NewCart(requestedBy: Id, createdOn: int)

  datatype Reply =
    | Ok | Created | Forbidden | BadRequest | ServerError
    | LinkAlreadyUsed | Verified
    | ResetLinkInvalid | ResetFormShown | PasswordReset

  // ---------------------------------------------------------------------
  // Throttling
  // ---------------------------------------------------------------------

  datatype Throttle = WindowExpired | Blocked | WithinLimit

  /** Where a request stands against a window opened at `since` in which
      `count` requests were already made. */
  function ThrottleOf(cfg: Config, since: int, count: int, now: int): (t: Throttle)
    ensures t == WindowExpired <==> since <= now - cfg.blockageHours * TicksPerHour
    ensures t == Blocked ==> count >= cfg.maxRequests
    ensures t == WithinLimit ==> count < cfg.maxRequests
  {
    if since <= now - cfg.blockageHours * TicksPerHour then WindowExpired
    else if count >= cfg.maxRequests then Blocked
    else WithinLimit
  }

  /** The counter after an accepted request. */
  function NextCount(t: Throttle, count: int): int {
    if t == WindowExpired then 1 else count + 1
  }

  /** An accepted request never takes the counter past the maximum. */
  lemma AcceptedCountBounded(cfg: Config, since: int, count: int, now: int)
    requires 1 <= cfg.maxRequests
    requires ThrottleOf(cfg, since, count, now) != Blocked
    ensures NextCount(ThrottleOf(cfg, since, count, now), count) <= cfg.maxRequests
  {
  }

  /** A blocked requester stays blocked, with no change to the record, until
      the window that began at `since` has passed. */
  lemma BlockedUntilWindowPasses(cfg: Config, since: int, count: int, now: int, later: int)
    requires now <= later
    requires ThrottleOf(cfg, since, count, now) == Blocked
    requires since > later - cfg.blockageHours * TicksPerHour
    ensures ThrottleOf(cfg, since, count, later) == Blocked
  {
  }

  // ---------------------------------------------------------------------
  // Reset links
  // ---------------------------------------------------------------------

  /** The reset-link check as written: the stored token equals the `id` of
      the link, and the expiry is not in the past.  A missing token equals a
      missing `id`, and a missing expiry is never in the past. */
  predicate ResetLinkAcceptedAsWritten(u: User, queryId: Option<string>, now: int) {
    u.resetPasswordToken == queryId && !(u.resetPasswordExpires.Some? && u.resetPasswordExpires.value < now)
  }

  /** As written, a user with no reset request in progress passes the check
      with a link that carries no `id`. */
  lemma AsWrittenAcceptsLinkWithoutToken(u: User, now: int)
    requires u.resetPasswordToken.None? && u.resetPasswordExpires.None?
    ensures ResetLinkAcceptedAsWritten(u, None, now)
    ensures !ResetLinkAccepted(u, None, now)
  {
  }

  /** The reset-link check: a token was issued, the link carries it, and it
      has not expired. */
  predicate ResetLinkAccepted(u: User, queryId: Option<string>, now: int) {
    && u.resetPasswordToken.Some?
    && queryId == u.resetPasswordToken
    && u.resetPasswordExpires.Some?
    && now <= u.resetPasswordExpires.value
  }

  /** Once a token and expiry are issued the two checks agree, so the
      correction only closes the no-token case. */
  lemma ResetChecksAgreeOnIssuedTokens(u: User, queryId: Option<string>, now: int)
    requires u.resetPasswordToken.Some? && u.resetPasswordExpires.Some?
    ensures ResetLinkAccepted(u, queryId, now) <==> ResetLinkAcceptedAsWritten(u, queryId, now)
  {
  }

  /** A user's four reset fields with all of them cleared. */
  function ResetCleared(u: User): (r: User)
    ensures r.resetPasswordToken.None? && r.resetPasswordExpires.None?
    ensures r.resetPasswordRequest.None? && r.resetPasswordRequestTime.None?
    ensures r.(resetPasswordToken := u.resetPasswordToken, resetPasswordExpires := u.resetPasswordExpires,
               resetPasswordRequest := u.resetPasswordRequest, resetPasswordRequestTime := u.resetPasswordRequestTime) == u
  {
    u.(resetPasswordToken := None, resetPasswordExpires := None, resetPasswordRequest := None, resetPasswordRequestTime := None)
  }

  /** With the fields cleared no link is accepted any more. */
  lemma ClearedResetRejectsEveryLink(u: User, queryId: Option<string>, now: int)
    ensures !ResetLinkAccepted(ResetCleared(u), queryId, now)
  {
  }

  /** The four reset fields are set and cleared together, and the request
      counter stays within the maximum. */
  predicate ResetFieldsConsistent(cfg: Config, u: User) {
    && u.resetPasswordExpires.Some? == u.resetPasswordToken.Some?
    && u.resetPasswordRequest.Some? == u.resetPasswordToken.Some?
    && u.resetPasswordRequestTime.Some? == u.resetPasswordToken.Some?
    && (u.resetPasswordRequest.Some? ==> u.resetPasswordRequest.value <= cfg.maxRequests)
  }

  // ---------------------------------------------------------------------
  // Sign-in role
  // ---------------------------------------------------------------------

  /** The role a user gets at sign-in: a super administrator keeps it; a
      non-student with user status 'U' becomes `admin`; everyone else
      becomes `student`. */
  function SignInRole(storedType: string, info: Option<UserInfo>): (role: string)
    requires storedType != "superAdmin" ==> info.Some?
    ensures role == "superAdmin" || role == "admin" || role == "student"
    ensures role == "superAdmin" <==> storedType == "superAdmin"
    ensures role == "admin" <==>
      storedType != "superAdmin" && info.value.userType != "STUDENT" && info.value.userStatus == Some("U")
  {
    if storedType == "superAdmin" then "superAdmin"
    else if info.value.userType != "STUDENT" && info.value.userStatus == Some("U") then "admin"
    else "student"
  }

  /** The `admin` role sign-in hands out has no grants in the permission
      table, while the other two roles have an entry for every resource. */
  lemma SignInRoleGrants(storedType: string, info: Option<UserInfo>, res: FieldAccess.Resource, action: FieldAccess.Action)
    requires storedType != "superAdmin" ==> info.Some?
    ensures FieldAccess.Lookup(res, SignInRole(storedType, info), action).None? <==>
      SignInRole(storedType, info) == "admin"
  {
  }

  // ---------------------------------------------------------------------
  // The store
  // ---------------------------------------------------------------------

  class AccountStore {
    var users: map<Id, User>
    var pending: map<Id, PendingUser>
    var carts: map<Id, NewCart>
    const userInfos: map<Id, UserInfo>
    const config: Config

    /** Counters never exceed the maximum and reset fields move together. */
    ghost predicate Valid()
      reads this
    {
      && 1 <= config.initialRequestCount <= config.maxRequests
      && (forall id | id in pending :: pending[id].totalRequestSent <= config.maxRequests)
      && (forall id | id in users :: ResetFieldsConsistent(config, users[id]))
    }

    constructor (config: Config, userInfos: map<Id, UserInfo>)
      requires 1 <= config.initialRequestCount <= config.maxRequests
      ensures Valid()
      ensures this.config == config && this.userInfos == userInfos
      ensures users == map[] && pending == map[] && carts == map[]
    {
      this.config := config;
      this.userInfos := userInfos;
      users, pending, carts := map[], map[], map[];
    }

    /** `signUp`: a known member without an account gets a pending record
      and a verification link, at most `maxRequests` times per window. */
    method SignUp(daiictId: Id, passwordHash: string, randomHash: string, now: int) returns (reply: Reply)
      requires Valid()
      modifies this
      ensures Valid()
      ensures users == old(users) && carts == old(carts)
      ensures reply == Created || reply == Forbidden
      ensures daiictId in old(users) || daiictId !in userInfos ==> reply == Forbidden
      ensures reply == Forbidden ==> pending == old(pending)
      ensures daiictId !in old(users) && daiictId in userInfos ==>
        var email := userInfos[daiictId].emailId + "@" + config.mailDomain;
        if daiictId !in old(pending) then
          reply == Created &&
          pending == old(pending)[daiictId := PendingUser(daiictId, email, passwordHash, now, randomHash, config.initialRequestCount)]
        else
          var p := old(pending)[daiictId];
          match ThrottleOf(config, p.createdOn, p.totalRequestSent, now)
          case WindowExpired =>
            reply == Created &&
            pending == old(pending)[daiictId := PendingUser(daiictId, email, passwordHash, now, randomHash, 1)]
          case Blocked =>
            reply == Forbidden
          case WithinLimit =>
            reply == Created &&
            pending == old(pending)[daiictId := PendingUser(daiictId, email, passwordHash, p.createdOn, randomHash, p.totalRequestSent + 1)]
    {
      if daiictId in users || daiictId !in userInfos {
        return Forbidden;
      }
      var email := userInfos[daiictId].emailId + "@" + config.mailDomain;
      if daiictId !in pending {
        pending := pending[daiictId := PendingUser(daiictId, email, passwordHash, now, randomHash, config.initialRequestCount)];
        return Created;
      }
      var p := pending[daiictId];
      var throttle := ThrottleOf(config, p.createdOn, p.totalRequestSent, now);
      if throttle == Blocked {
        return Forbidden;
      }
      AcceptedCountBounded(config, p.createdOn, p.totalRequestSent, now);
      var createdOn := if throttle == WindowExpired then now else p.createdOn;
      var count := NextCount(throttle, p.totalRequestSent);
      pending := pending[daiictId := PendingUser(daiictId, email, passwordHash, createdOn, randomHash, count)];
      reply := Created;
    }

    /** `resendVerificationLink`: within the window and under the limit the
      counter goes up by one; an expired window or the limit refuses. */
    method ResendVerificationLink(daiictId: Id, now: int) returns (reply: Reply)
      requires Valid()
      modifies this
      ensures Valid()
      ensures users == old(users) && carts == old(carts)
      ensures daiictId !in old(pending) ==> reply == ServerError && pending == old(pending)
      ensures daiictId in old(pending) ==>
        var p := old(pending)[daiictId];
        if ThrottleOf(config, p.createdOn, p.totalRequestSent, now) == WithinLimit then
          reply == Created && pending == old(pending)[daiictId := p.(totalRequestSent := p.totalRequestSent + 1)]
        else
          reply == Forbidden && pending == old(pending)
    {
      if daiictId !in pending {
        return ServerError;
      }
      var p := pending[daiictId];
      if ThrottleOf(config, p.createdOn, p.totalRequestSent, now) != WithinLimit {
        return Forbidden;
      }
      pending := pending[daiictId := p.(totalRequestSent := p.totalRequestSent + 1)];
      reply := Created;
    }

    /** `verifyAccount`: only the matching hash turns the pending record
      into a user with a fresh cart. */
    method VerifyAccount(daiictId: Id, queryId: Option<string>, cartId: Id) returns (reply: Reply)
      requires Valid()
      requires cartId !in carts
      modifies this
      ensures Valid()
      ensures daiictId !in old(pending) ==>
        reply == LinkAlreadyUsed && users == old(users) && pending == old(pending) && carts == old(carts)
      ensures daiictId in old(pending) && queryId != Some(old(pending)[daiictId].randomHash) ==>
        reply == BadRequest && users == old(users) && pending == old(pending) && carts == old(carts)
      ensures daiictId in old(pending) && queryId == Some(old(pending)[daiictId].randomHash) ==>
        var p := old(pending)[daiictId];
        && carts == old(carts)[cartId := NewCart(daiictId, p.createdOn)]
        && (daiictId !in userInfos ==> reply == ServerError && users == old(users) && pending == old(pending))
        && (daiictId in userInfos ==>
              && reply == Verified
              && users == old(users)[daiictId := User(p.daiictId, p.primaryEmail, p.password, p.createdOn, cartId,
                                                      config.newUserType, config.newUserActive, None, None, None, None)]
              && pending == old(pending) - {daiictId})
      ensures reply == Verified <==> daiictId in old(pending) && queryId == Some(old(pending)[daiictId].randomHash) && daiictId in userInfos
    {
      if daiictId !in pending {
        return LinkAlreadyUsed;
      }
      var p := pending[daiictId];
      if queryId != Some(p.randomHash) {
        return BadRequest;
      }
      carts := carts[cartId := NewCart(daiictId, p.createdOn)];
      if daiictId !in userInfos {
        return ServerError;
      }
      users := users[daiictId := User(p.daiictId, p.primaryEmail, p.password, p.createdOn, cartId,
                                      config.newUserType, config.newUserActive, None, None, None, None)];
      pending := pending - {daiictId};
      reply := Verified;
    }

    /** `forgetPassword`: a fresh token opens a new window; within the
      window the same token is sent again until the limit. */
    method ForgetPassword(daiictId: Id, freshToken: string, now: int) returns (reply: Reply)
      requires Valid()
      modifies this
      ensures Valid()
      ensures pending == old(pending) && carts == old(carts)
      ensures daiictId !in old(users) ==> reply == Forbidden && users == old(users)
      ensures daiictId in old(users) ==>
        var u := old(users)[daiictId];
        var expires := Some(now + config.resetExpiryHours * TicksPerHour);
        if u.resetPasswordRequestTime.None? then
          reply == Ok && users == old(users)[daiictId := u.(resetPasswordToken := Some(freshToken),
            resetPasswordExpires := expires, resetPasswordRequest := Some(1), resetPasswordRequestTime := Some(now))]
        else
          match ThrottleOf(config, u.resetPasswordRequestTime.value, u.resetPasswordRequest.value, now)
          case WindowExpired =>
            reply == Ok && users == old(users)[daiictId := u.(resetPasswordToken := Some(freshToken),
              resetPasswordExpires := expires, resetPasswordRequest := Some(1), resetPasswordRequestTime := Some(now))]
          case Blocked =>
            reply == Forbidden && users == old(users)
          case WithinLimit =>
            reply == Ok && users == old(users)[daiictId := u.(
              resetPasswordExpires := expires, resetPasswordRequest := Some(u.resetPasswordRequest.value + 1))]
    {
      if daiictId !in users {
        return Forbidden;
      }
      var u := users[daiictId];
      var expires := Some(now + config.resetExpiryHours * TicksPerHour);
      if u.resetPasswordRequestTime.None? {
        u := u.(resetPasswordToken := Some(freshToken), resetPasswordRequestTime := Some(now), resetPasswordRequest := Some(1));
      } else {
        var throttle := ThrottleOf(config, u.resetPasswordRequestTime.value, u.resetPasswordRequest.value, now);
        if throttle == WindowExpired {
          u := u.(resetPasswordRequestTime := Some(now), resetPasswordToken := Some(freshToken), resetPasswordRequest := Some(1));
        } else if throttle == Blocked {
          return Forbidden;
        } else {
          u := u.(resetPasswordRequest := Some(u.resetPasswordRequest.value + 1));
        }
      }
      u := u.(resetPasswordExpires := expires);
      users := users[daiictId := u];
      reply := Ok;
    }

    /** `verifyResetPasswordLink`: shows the reset form for a valid link. */
    method VerifyResetPasswordLink(daiictId: Id, queryId: Option<string>, now: int) returns (reply: Reply)
      ensures reply == ResetFormShown || reply == ResetLinkInvalid
      ensures reply == ResetFormShown <==> daiictId in users && ResetLinkAccepted(users[daiictId], queryId, now)
    {
      if daiictId !in users || !ResetLinkAccepted(users[daiictId], queryId, now) {
        return ResetLinkInvalid;
      }
      reply := ResetFormShown;
    }

    /** `resetPassword`: a valid link sets the new password and clears the
      reset fields, so the same link cannot be used again. */
    method ResetPassword(daiictId: Id, queryId: Option<string>, newPasswordHash: string, now: int) returns (reply: Reply)
      requires Valid()
      modifies this
      ensures Valid()
      ensures pending == old(pending) && carts == old(carts)
      ensures reply == PasswordReset <==> daiictId in old(users) && ResetLinkAccepted(old(users)[daiictId], queryId, now)
      ensures reply != PasswordReset ==> reply == ResetLinkInvalid && users == old(users)
      ensures reply == PasswordReset ==>
        users == old(users)[daiictId := ResetCleared(old(users)[daiictId]).(password := newPasswordHash)]
    {
      if daiictId !in users || !ResetLinkAccepted(users[daiictId], queryId, now) {
        return ResetLinkInvalid;
      }
      users := users[daiictId := ResetCleared(users[daiictId]).(password := newPasswordHash)];
      reply := PasswordReset;
    }

    /** `signIn` for an authenticated user: derives the role, clears a
      pending reset (saving the role with it), and refuses inactive users. */
    method SignIn(daiictId: Id) returns (reply: Reply, role: string)
      requires Valid()
      requires daiictId in users
      modifies this
      ensures Valid()
      ensures pending == old(pending) && carts == old(carts)
      ensures var u := old(users)[daiictId];
        if u.userType != "superAdmin" && daiictId !in userInfos then
          reply == ServerError && users == old(users)
        else
          var info := if daiictId in userInfos then Some(userInfos[daiictId]) else None;
          && role == SignInRole(u.userType, info)
          && (reply == Ok <==> u.isActive)
          && (reply != Ok ==> reply == Forbidden)
          && users == if u.resetPasswordToken.Some?
                      then old(users)[daiictId := ResetCleared(u).(userType := role)]
                      else old(users)
    {
      var u := users[daiictId];
      var info := if daiictId in userInfos then Some(userInfos[daiictId]) else None;
      if u.userType != "superAdmin" && info.None? {
        return ServerError, u.userType;
      }
      role := SignInRole(u.userType, info);
      if u.resetPasswordToken.Some? {
        users := users[daiictId := ResetCleared(u).(userType := role)];
      }
      reply := if u.isActive then Ok else Forbidden;
    }
  }
}
