/**
 * The stub e-mail login: the e-mail and the password must not be blank, checked in
 * that order, and the result is a simulated token and user built from the trimmed
 * e-mail and the current time.
 */
module Auth {
  import opened Wrappers
  import opened Text
  import opened Session

  const EmailRequired := "El email es obligatorio"
  const PasswordRequired := "La contraseña es obligatoria"
  const TokenPrefix := "auth-token-"
  const IdPrefix := "user-"

  /**
   * A reading of `Date.now()`: a time value of ECMA-262 (section 21.4.1.1, "Time
   * Values and Time Range") at or after the epoch, so at most 8.64 × 10^15 ms.
   */
  type TimeValue = t: nat | t <= 8_640_000_000_000_000

  /** What a successful login returns. */
  datatype AuthLoginResult = AuthLoginResult(token: string, user: SessionUser)

  /** `!s.trim()`: nothing is left once white space is trimmed. */
  predicate Blank(s: string) {
    Trim(s) == ""
  }

  /** Trimming the start of an all-white-space string leaves nothing. */
  lemma {:induction false} TrimStartOfWhitespace(s: string)
    requires forall i :: 0 <= i < |s| ==> IsWhitespace(s[i])
    ensures TrimStart(s) == ""
    decreases |s|
  {
    if |s| > 0 {
      TrimStartOfWhitespace(s[1..]);
    }
  }

  /** A string is blank exactly when every character in it is white space. */
  lemma BlankIffAllWhitespace(s: string)
    ensures Blank(s) <==> forall i :: 0 <= i < |s| ==> IsWhitespace(s[i])
  {
    if forall i :: 0 <= i < |s| ==> IsWhitespace(s[i]) {
      TrimStartOfWhitespace(s);
    }
  }

  /**
   * `authLogin(email, password)`, with the two readings of `Date.now()` as
   * parameters: the token carries the first, the user id the second.
   */
  function AuthLogin(email: string, password: string, nowToken: TimeValue, nowId: TimeValue): (r: Result<AuthLoginResult, string>)
    ensures r.Err? <==> Blank(email) || Blank(password)
    ensures Blank(email) ==> r == Err(EmailRequired)
    ensures !Blank(email) && Blank(password) ==> r == Err(PasswordRequired)
    ensures r.Ok? ==>
      && r.value.user.email == Trim(email) && r.value.user.role == "user"
      && |r.value.user.email| > 0
      && r.value.token == TokenPrefix + IntToString(nowToken)
      && r.value.user.id == IdPrefix + IntToString(nowId)
  {
    var trimmed := Trim(email);
    if trimmed == "" then Err(EmailRequired)
    else if Blank(password) then Err(PasswordRequired)
    else Ok(AuthLoginResult(TokenPrefix + IntToString(nowToken),
                            SessionUser(IdPrefix + IntToString(nowId), trimmed, "user")))
  }

  /**
   * The user's e-mail begins and ends with a non-white-space character; the token
   * and the id start with their prefixes, and what follows each prefix parses back
   * to the timestamp it was built from.
   */
  lemma LoginCarriesTimestamps(email: string, password: string, nowToken: TimeValue, nowId: TimeValue)
    requires AuthLogin(email, password, nowToken, nowId).Ok?
    ensures var res := AuthLogin(email, password, nowToken, nowId).value;
      && !IsWhitespace(res.user.email[0]) && !IsWhitespace(res.user.email[|res.user.email| - 1])
      && |TokenPrefix| < |res.token| && res.token[..|TokenPrefix|] == TokenPrefix
      && ParseInt(res.token[|TokenPrefix|..]) == Some(nowToken)
      && |IdPrefix| < |res.user.id| && res.user.id[..|IdPrefix|] == IdPrefix
      && ParseInt(res.user.id[|IdPrefix|..]) == Some(nowId)
  {
    var res := AuthLogin(email, password, nowToken, nowId).value;
    assert res.user.email == Trim(email);
    assert res.token[|TokenPrefix|..] == IntToString(nowToken);
    assert res.user.id[|IdPrefix|..] == IntToString(nowId);
    ParseIntOfIntToString(nowToken);
    ParseIntOfIntToString(nowId);
  }
}
