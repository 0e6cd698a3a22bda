/** The per-user provider credential: where it is stored, and the symmetric cipher that
    protects it. The cipher itself (`crypto.createCipher` / `createDecipher` with
    AES-256-CBC) is foreign; it is passed in as a pair of functions about which nothing
    is assumed. The same `decryptApiKey` appears in the analysis route, the credential
    route and the credential-test route; it is modelled once, here. */
module Credentials {
  import opened Wrappers
  import opened JsValues

  /** `encrypt(password, plaintext)` is the hex ciphertext; `decrypt(password, hex)` is the
      plaintext, or None where `createDecipher`/`update`/`final` would raise. */
  datatype Cipher = Cipher(
    encrypt: (string, string) -> string,
    decrypt: (string, string) -> Option<string>)

  /** The store key of a user's credential record. */
  function ApiKeysKey(userId: string): string {
    "api_keys:" + userId
  }

  /** `process.env.ENCRYPTION_KEY || userId`: the server secret when one is configured
      (an unset variable and "" alike count as none), otherwise the user id itself. None
      stands for an `undefined` user id, for which `createDecipher` raises. */
  function KeyMaterial(envKey: string, userId: Option<string>): (r: Option<string>)
    ensures envKey != "" ==> r == Some(envKey)
    ensures envKey == "" ==> r == userId
  {
    if envKey != "" then Some(envKey) else userId
  }

  /** `encryptApiKey(apiKey, userId)`. */
  function EncryptApiKey(c: Cipher, envKey: string, apiKey: string, userId: string): string {
    c.encrypt(KeyMaterial(envKey, Some(userId)).value, apiKey)
  }

  /** `decryptApiKey(encrypted, userId)`: every failure is caught and turned into "".
      That covers a stored value that is not a string (`decipher.update` raises on it),
      an undefined key and a ciphertext the cipher rejects. */
  function DecryptApiKey(c: Cipher, envKey: string, encrypted: Json, userId: Option<string>): (r: string)
    ensures !encrypted.JStr? ==> r == ""
    ensures KeyMaterial(envKey, userId).None? ==> r == ""
    ensures r != "" <==>
      encrypted.JStr? && KeyMaterial(envKey, userId).Some?
      && c.decrypt(KeyMaterial(envKey, userId).value, encrypted.s).Some?
      && c.decrypt(KeyMaterial(envKey, userId).value, encrypted.s).value != ""
  {
    var key := KeyMaterial(envKey, userId);
    if !encrypted.JStr? || key.None? then ""
    else c.decrypt(key.value, encrypted.s).GetOr("")
  }

  /** Whatever the cipher is, when it inverts its own encryption under the password in
      use, a key saved through `encryptApiKey` is read back unchanged by `decryptApiKey`. */
  lemma DecryptEncrypted(c: Cipher, envKey: string, userId: string, apiKey: string)
    requires var k := KeyMaterial(envKey, Some(userId)).value; c.decrypt(k, c.encrypt(k, apiKey)) == Some(apiKey)
    ensures DecryptApiKey(c, envKey, JStr(EncryptApiKey(c, envKey, apiKey, userId)), Some(userId)) == apiKey
  {
  }
}
