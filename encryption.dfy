/**
 * The server's MessageEncryption (backend/encryption.py): per-pair access
 * tokens, message content encryption and whole-response encryption, over
 * one symmetric cipher fixed when the object is built.
 *
 * Fernet is abstracted as a pair of functions: `encrypt` always succeeds and
 * `decrypt` fails (None) on anything it cannot authenticate. All that is
 * assumed of them is that decrypting an encryption gives the plaintext back
 * and that no encryption is the empty string.
 * JSON serialisation is abstracted the same way.
 */
module Encryption {
  import opened Wrappers
  import opened Text

  datatype Cipher = Cipher(encrypt: string -> string, decrypt: string -> Option<string>)

  /** Fernet's guarantees: decrypt undoes encrypt, and a token is never the empty string. */
  ghost predicate Inverts(c: Cipher)
  {
    forall p :: c.decrypt(c.encrypt(p)) == Some(p) && c.encrypt(p) != ""
  }

  /** json.dumps / json.loads over the values `T` the responses carry. */
  datatype JsonCodec<!T> = JsonCodec(dumps: T -> string, loads: string -> Option<T>)

  ghost predicate RoundTrips<T(!new)>(j: JsonCodec<T>)
  {
    forall d :: j.loads(j.dumps(d)) == Some(d)
  }

  /** create_secure_token: the pair "current:target", encrypted. */
  function CreateSecureToken(c: Cipher, currentUserId: int, targetUserId: int): (r: string)
    ensures Inverts(c) ==> r != "" && c.decrypt(r) == Some(IntToString(currentUserId) + ":" + IntToString(targetUserId))
  {
    c.encrypt(IntToString(currentUserId) + ":" + IntToString(targetUserId))
  }

  /**
   * validate_secure_token: the target id the token was made for, provided
   * it decrypts, splits on ':' into exactly two integers, and the first is
   * the current user's id; None otherwise.
   */
  function ValidateSecureToken(c: Cipher, token: string, currentUserId: int): (r: Option<int>)
    ensures c.decrypt(token).None? ==> r.None?
    ensures r.Some? ==>
      && c.decrypt(token).Some?
      && var fields := Split(c.decrypt(token).value, ':');
      && |fields| == 2 && PyInt(fields[0]) == Some(currentUserId) && PyInt(fields[1]) == r
  {
    match c.decrypt(token)
    case None => None
    case Some(plain) =>
      var fields := Split(plain, ':');
      if |fields| != 2 then None
      else
        match (PyInt(fields[0]), PyInt(fields[1]))
        case (Some(owner), Some(target)) => if owner == currentUserId then Some(target) else None
        case _ => None
  }

  /** The plaintext of a token made for the pair. */
  lemma TokenFields(current: int, target: int)
    ensures Split(IntToString(current) + ":" + IntToString(target), ':') == [IntToString(current), IntToString(target)]
  {
    SplitAtSeparator(IntToString(current), ':', IntToString(target));
  }

  /** A token validates, for the user it was made by, to the user it was made for. */
  lemma TokenRoundTrip(c: Cipher, current: int, target: int)
    requires Inverts(c)
    ensures ValidateSecureToken(c, CreateSecureToken(c, current, target), current) == Some(target)
  {
    TokenFields(current, target);
    PyIntToString(current);
    PyIntToString(target);
  }

  /** Nobody else can use a token: it validates for no other user. */
  lemma TokenBoundToOwner(c: Cipher, current: int, target: int, other: int)
    requires Inverts(c) && other != current
    ensures ValidateSecureToken(c, CreateSecureToken(c, current, target), other).None?
  {
    TokenFields(current, target);
    PyIntToString(current);
    PyIntToString(target);
  }

  /** Any token validates for at most one user. */
  lemma TokenHasOneOwner(c: Cipher, token: string, u1: int, u2: int)
    requires ValidateSecureToken(c, token, u1).Some? && ValidateSecureToken(c, token, u2).Some?
    ensures u1 == u2
  {
  }

  /** encrypt_message: empty or missing content is passed through unchanged. */
  function EncryptMessage(c: Cipher, content: Option<string>): (r: Option<string>)
    ensures content.None? || content.value == "" ==> r == content
    ensures content.Some? && content.value != "" ==> r.Some?
  {
    if content.None? || content.value == "" then content else Some(c.encrypt(content.value))
  }

  /** decrypt_message: empty or missing content, and content that does not decrypt, are passed through unchanged. */
  function DecryptMessage(c: Cipher, content: Option<string>): (r: Option<string>)
    ensures content.None? || content.value == "" ==> r == content
    ensures content.Some? && content.value != "" && c.decrypt(content.value).None? ==> r == content
  {
    if content.None? || content.value == "" then content
    else
      match c.decrypt(content.value)
      case Some(plain) => Some(plain)
      case None => content
  }

  /** Stored content reads back as written. */
  lemma MessageRoundTrip(c: Cipher, content: Option<string>)
    requires Inverts(c)
    ensures DecryptMessage(c, EncryptMessage(c, content)) == content
  {
  }

  /** encrypt_api_response: the body {"encrypted_data": ...}, here its one field. */
  function EncryptApiResponse<T>(c: Cipher, j: JsonCodec<T>, data: T): (r: string)
    ensures Inverts(c) ==> r != "" && c.decrypt(r) == Some(j.dumps(data))
  {
    c.encrypt(j.dumps(data))
  }

  /** decrypt_api_request: the value, or None when decryption or parsing fails. */
  function DecryptApiRequest<T>(c: Cipher, j: JsonCodec<T>, encrypted: string): (r: Option<T>)
    ensures c.decrypt(encrypted).None? ==> r.None?
  {
    match c.decrypt(encrypted)
    case None => None
    case Some(text) => j.loads(text)
  }

  /** What the server encrypts, the client's request decrypts back to. */
  lemma ApiRoundTrip<T(!new)>(c: Cipher, j: JsonCodec<T>, data: T)
    requires Inverts(c) && RoundTrips(j)
    ensures DecryptApiRequest(c, j, EncryptApiResponse(c, j, data)) == Some(data)
  {
  }
}
