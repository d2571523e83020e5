/**
 * The Basic-authentication check that guards every route: one hard-coded
 * user name and password. The HTTP extractor that splits the header into a
 * user id and an optional password is not modelled; those two reach
 * `ValidateBasicAuth` as its parameters.
 */
module Auth {
  import opened Wrappers

  const ValidUsername: string := "user"
  const ValidPassword: string := "password"

  /** The HTTP status and message of actix's `ErrorUnauthorized`. */
  const Unauthorized: nat := 401
  const InvalidCredentials: string := "Invalid credentials"

  datatype AuthError = AuthError(status: nat, message: string)

  /** The password compared against the store: a missing one counts as empty. */
  function EffectivePassword(password: Option<string>): (p: string)
    ensures p == ValidPassword <==> password == Some(ValidPassword)
  {
    password.UnwrapOr("")
  }

  /** validate_basic_auth: `Ok` for the stored pair, otherwise a 401 "Invalid credentials". */
  function ValidateBasicAuth(username: string, password: Option<string>): (r: Result<(), AuthError>)
    ensures r.Ok? <==> username == ValidUsername && password == Some(ValidPassword)
    ensures r.Err? ==> r.error == AuthError(Unauthorized, InvalidCredentials)
  {
    if username == ValidUsername && EffectivePassword(password) == ValidPassword then Ok(())
    else Err(AuthError(Unauthorized, InvalidCredentials))
  }

  /** A request that sends no password is always rejected. */
  lemma MissingPasswordRejected(username: string)
    ensures ValidateBasicAuth(username, None).Err?
  {
  }

  /** A missing password is treated exactly as an empty one. */
  lemma MissingPasswordIsEmpty(username: string)
    ensures ValidateBasicAuth(username, None) == ValidateBasicAuth(username, Some(""))
  {
  }

  /** Any other user name is rejected, whatever the password. */
  lemma OtherUserRejected(username: string, password: Option<string>)
    requires username != ValidUsername
    ensures ValidateBasicAuth(username, password) == Err(AuthError(Unauthorized, InvalidCredentials))
  {
  }

  /** The stored pair is accepted. */
  lemma StoredPairAccepted()
    ensures ValidateBasicAuth(ValidUsername, Some(ValidPassword)) == Ok(())
  {
  }

  /** Every outcome is either `Ok(())` or the one 401 error: there is no third outcome. */
  lemma TwoOutcomes(username: string, password: Option<string>)
    ensures ValidateBasicAuth(username, password) in {Ok(()), Err(AuthError(Unauthorized, InvalidCredentials))}
  {
  }

  /** Exactly one credential pair is accepted: the stored one. */
  lemma UniqueAcceptedPair(u1: string, p1: Option<string>, u2: string, p2: Option<string>)
    requires ValidateBasicAuth(u1, p1).Ok? && ValidateBasicAuth(u2, p2).Ok?
    ensures u1 == u2 && p1 == p2
  {
  }
}
