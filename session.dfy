/** The signed-in user and the storage keys the session lives under. */
module Session {

  /** The user record handed back by a login. */
  datatype SessionUser = SessionUser(id: string, email: string, role: string)

  const AccessTokenKey := "access_token"
  const UsernameKey := "username"
  const UniqueGuidKey := "unique_guid"

  /** The key-value store (`AsyncStorage`): a missing key reads as `null`. */
  type Storage = map<string, string>

  /** The keys `clearAuthStorage()` removes. */
  const AuthKeys: set<string> := {AccessTokenKey, UsernameKey, UniqueGuidKey}

  /** `clearAuthStorage()`: the token, the user name and the GUID are removed; nothing else is touched. */
  function ClearAuth(st: Storage): (r: Storage)
    ensures AccessTokenKey !in r && UsernameKey !in r && UniqueGuidKey !in r
    ensures forall k :: k in st && k !in AuthKeys ==> k in r && r[k] == st[k]
    ensures forall k :: k in r ==> k in st
  {
    st - AuthKeys
  }

  /**
   * How `clearAuthStorage()` settles: every removal done, or `Promise.all` rejects
   * with the error of a failed `removeItem`, leaving the keys whose removal failed.
   */
  datatype ClearOutcome = Cleared | ClearFailed(kept: set<string>, reason: string)

  /** The store once `clearAuthStorage()` has settled with the given outcome. */
  function ClearAuthAs(st: Storage, outcome: ClearOutcome): (r: Storage)
    ensures outcome.Cleared? ==> r == ClearAuth(st)
    ensures forall k :: k in AuthKeys && !(outcome.ClearFailed? && k in outcome.kept) ==> k !in r
    ensures forall k :: k in st && (k !in AuthKeys || (outcome.ClearFailed? && k in outcome.kept)) ==> k in r && r[k] == st[k]
    ensures forall k :: k in r ==> k in st
  {
    match outcome
    case Cleared => ClearAuth(st)
    case ClearFailed(kept, _) => st - (AuthKeys - kept)
  }
}
