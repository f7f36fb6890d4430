/**
 * Turning a token into a user id. JSON web token verification is left
 * uninterpreted: a `Verifier` gives the id a token decodes to, or nothing
 * when verification throws.
 */
module Auth {
  import opened Wrappers
  import opened Records

  type Verifier = string -> Option<UserId>

  /** JavaScript truthiness of what `authUser` returns: null and "" are falsy. */
  predicate Resolved(userId: Option<UserId>)
  {
    userId.Some? && userId.value != ""
  }

  datatype TokenError = NoToken | TokenConversionFailed
  {
    function Message(): string
    {
      match this
      case NoToken => "No token"
      case TokenConversionFailed => "Token conversion failed"
    }
  }

  /** `convertToken`: an empty token, then a failed verification, else the id. */
  function ConvertToken(userToken: string, authUser: Verifier): (r: Result<UserId, TokenError>)
    ensures r == Err(NoToken) <==> userToken == ""
    ensures r == Err(TokenConversionFailed) <==> userToken != "" && !Resolved(authUser(userToken))
    ensures r.Ok? <==> userToken != "" && Resolved(authUser(userToken))
    ensures r.Ok? ==> Some(r.value) == authUser(userToken)
  {
    if userToken == "" then Err(NoToken)
    else
      var userId := authUser(userToken);
      if !Resolved(userId) then Err(TokenConversionFailed) else Ok(userId.value)
  }

  /** JavaScript truthiness of what `convertToken` returns: an Error object is truthy. */
  predicate Truthy(converted: Result<UserId, TokenError>)
  {
    converted.Err? || converted.value != ""
  }

  /** `convertToken` never returns a falsy value, so a `!userId` test after it never fires. */
  lemma ConvertTokenTruthy(userToken: string, authUser: Verifier)
    ensures Truthy(ConvertToken(userToken, authUser))
  {
  }

  /** `user && user.role === 'admin'` for the user stored under `userId`. */
  predicate IsAdmin(users: map<UserId, User>, userId: UserId)
  {
    userId in users && users[userId].role == "admin"
  }
}
