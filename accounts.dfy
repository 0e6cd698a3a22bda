/** The store keys of user accounts and of pending email verifications, shared by the
    sign-up, registration and verification routes. */
module Accounts {
  import opened Wrappers
  import opened JsValues
  import opened Encoding

  /** 24 hours in milliseconds: how long a verification token stays valid. */
  const TokenLifetime := 24 * 60 * 60 * 1000

  /** `user:{id}`: the user record. */
  function UserKey(userId: string): string {
    "user:" + userId
  }

  /** `user:email:{email}`: the id registered for an email address. */
  function EmailKey(email: string): string {
    "user:email:" + email
  }

  /** `verification:{token}`: a pending verification. */
  function VerificationKey(token: string): string {
    "verification:" + token
  }

  /** `{userId, email, expires}`, the record a verification token names. */
  function TokenRecord(userId: string, email: Json, expires: int): (rec: Json)
    ensures Prop(Some(rec), "userId") == Some(JStr(userId))
    ensures Prop(Some(rec), "email") == Some(email)
    ensures Prop(Some(rec), "expires") == Some(JNum(expires))
  {
    var ms := [("userId", JStr(userId)), ("email", email), ("expires", JNum(expires))];
    LookupAt(ms, 0); LookupAt(ms, 1); LookupAt(ms, 2);
    JObj(ms)
  }

  /** No user key is a verification key. */
  lemma UserKeyIsNotVerificationKey(uid: string, token: string)
    ensures UserKey(uid) != VerificationKey(token)
  {
    assert UserKey(uid)[0] != VerificationKey(token)[0];
  }

  /** No email mapping is a verification key. */
  lemma EmailKeyIsNotVerificationKey(email: string, token: string)
    ensures EmailKey(email) != VerificationKey(token)
  {
    assert EmailKey(email)[0] != VerificationKey(token)[0];
  }

  /** A user key is never an email mapping when the id's second character is a hex
      digit, as in every hex id and every UUID: the seventh character of `user:email:`
      is 'm', which is no hex digit. */
  lemma HexUserKeyIsNotEmailKey(uid: string, email: string)
    requires |uid| >= 2 && IsHexChar(uid[1])
    ensures UserKey(uid) != EmailKey(email)
  {
    assert UserKey(uid)[6] == uid[1];
    assert EmailKey(email)[6] == 'm';
  }
}
