/** Encrypt, then authenticate. The primitives are parameters; what is relied on of them is `Lawful`. */
module AesCbcWithIntegrity {
  import opened Wrappers
  import opened Bytes

  datatype SecretKeys = SecretKeys(confidentialityKey: Bytes, integrityKey: Bytes)

  datatype CipherTextIvMac = CipherTextIvMac(cipherText: Bytes, iv: Bytes, mac: Bytes)

  datatype SecurityError = MacMismatch | BadPadding

  /** AES-CBC under a key and an initialisation vector, HMAC, and the derivation of a key from a password and a salt.
      Deciphering fails on bad padding. */
  datatype Suite = Suite(
    encipher: (Bytes, Bytes, Bytes) -> Bytes,
    decipher: (Bytes, Bytes, Bytes) -> Option<Bytes>,
    hmac: (Bytes, Bytes) -> Bytes,
    derive: (string, Bytes) -> Bytes)

  const AES_KEY_LENGTH_BITS := 128
  const HMAC_KEY_LENGTH_BITS := 256
  const IV_LENGTH_BYTES := 16
  const PBE_SALT_LENGTH_BITS := AES_KEY_LENGTH_BITS

  /** MACs and derived keys have their lengths. */
  ghost predicate WellSized(s: Suite) {
    && (forall key, text :: |s.hmac(key, text)| == 32)
    && (forall password, salt :: |s.derive(password, salt)| == (AES_KEY_LENGTH_BITS + HMAC_KEY_LENGTH_BITS) / 8)
  }

  /** And deciphering undoes enciphering. */
  ghost predicate Lawful(s: Suite) {
    && WellSized(s)
    && (forall key, iv, text :: |key| == AES_KEY_LENGTH_BITS / 8 && |iv| == IV_LENGTH_BYTES ==>
          s.decipher(key, iv, s.encipher(key, iv, text)) == Some(text))
  }

  // ---- comparing

  /** A byte in an int expression of Java. */
  function SignExtend(b: bv8): bv32 { if b < 0x80 then b as bv32 else (b as bv32) | 0xFFFF_FF00 }

  /** One more pair of bytes: any difference leaves a bit. */
  function Accumulate(result: bv32, a: bv8, b: bv8): (r: bv32)
    ensures r == 0 <==> result == 0 && a == b
  {
    result | (SignExtend(a) ^ SignExtend(b))
  }

  method ConstantTimeEq(a: Bytes, b: Bytes) returns (eq: bool)
    ensures eq <==> a == b
  {
    if |a| != |b| {
      return false;
    }
    var result: bv32 := 0;
    for i := 0 to |a|
      invariant result == 0 <==> forall k :: 0 <= k < i ==> a[k] == b[k]
    {
      result := Accumulate(result, a[i], b[i]);
    }
    return result == 0;
  }

  // ---- filling arrays

  method IvCipherConcat(iv: Bytes, cipherText: Bytes) returns (r: Bytes)
    ensures r == iv + cipherText
  {
    var combined := new bv8[|iv| + |cipherText|];
    ArrayCopy(iv, 0, combined, 0, |iv|);
    assert combined[..|iv|] == iv;
    ArrayCopy(cipherText, 0, combined, |iv|, |cipherText|);
    r := combined[..];
    assert r == r[..|iv|] + r[|iv|..];
  }

  method CopyOfRange(from: Bytes, start: nat, end: nat) returns (r: Bytes)
    requires start <= end <= |from|
    ensures r == from[start..end]
  {
    var length := end - start;
    var result := new bv8[length];
    ArrayCopy(from, start, result, 0, length);
    r := result[..];
  }

  // ---- encrypting and decrypting

  function KeysOf(bytes: Bytes): SecretKeys
    requires |bytes| == (AES_KEY_LENGTH_BITS + HMAC_KEY_LENGTH_BITS) / 8
  {
    SecretKeys(bytes[..16], bytes[16..])
  }

  method GenerateKeyFromPassword(s: Suite, password: string, salt: Bytes) returns (keys: SecretKeys)
    requires WellSized(s)
    ensures keys == KeysOf(s.derive(password, salt))
    ensures |keys.confidentialityKey| == 16 && |keys.integrityKey| == 32
    ensures keys.confidentialityKey + keys.integrityKey == s.derive(password, salt)
  {
    var keyBytes := s.derive(password, salt);
    var confidentialityKey := CopyOfRange(keyBytes, 0, AES_KEY_LENGTH_BITS / 8);
    var integrityKey :=
        CopyOfRange(keyBytes, AES_KEY_LENGTH_BITS / 8, AES_KEY_LENGTH_BITS / 8 + HMAC_KEY_LENGTH_BITS / 8);
    return SecretKeys(confidentialityKey, integrityKey);
  }

  /** What is encrypted under a given initialisation vector. */
  function Seal(s: Suite, text: Bytes, keys: SecretKeys, iv: Bytes): CipherTextIvMac {
    var cipherText := s.encipher(keys.confidentialityKey, iv, text);
    CipherTextIvMac(cipherText, iv, s.hmac(keys.integrityKey, iv + cipherText))
  }

  function Open(s: Suite, civ: CipherTextIvMac, keys: SecretKeys): Result<Bytes, SecurityError> {
    if s.hmac(keys.integrityKey, civ.iv + civ.cipherText) != civ.mac then Err(MacMismatch)
    else
      match s.decipher(keys.confidentialityKey, civ.iv, civ.cipherText)
      case Some(text) => Ok(text)
      case None => Err(BadPadding)
  }

  method Encrypt(s: Suite, plaintext: Bytes, keys: SecretKeys, iv: Bytes) returns (civ: CipherTextIvMac)
    ensures civ == Seal(s, plaintext, keys, iv)
    ensures civ.iv == iv && civ.cipherText == s.encipher(keys.confidentialityKey, iv, plaintext)
    ensures civ.mac == s.hmac(keys.integrityKey, civ.iv + civ.cipherText)
  {
    var byteCipherText := s.encipher(keys.confidentialityKey, iv, plaintext);
    var ivCipherConcat := IvCipherConcat(iv, byteCipherText);
    var integrityMac := s.hmac(keys.integrityKey, ivCipherConcat);
    return CipherTextIvMac(byteCipherText, iv, integrityMac);
  }

  method Decrypt(s: Suite, civ: CipherTextIvMac, keys: SecretKeys) returns (r: Result<Bytes, SecurityError>)
    ensures r == Open(s, civ, keys)
    ensures r == Err(MacMismatch) <==> civ.mac != s.hmac(keys.integrityKey, civ.iv + civ.cipherText)
    ensures r.Ok? ==> s.decipher(keys.confidentialityKey, civ.iv, civ.cipherText) == Some(r.value)
  {
    var ivCipherConcat := IvCipherConcat(civ.iv, civ.cipherText);
    var computedMac := s.hmac(keys.integrityKey, ivCipherConcat);
    var same := ConstantTimeEq(computedMac, civ.mac);
    if same {
      var text := s.decipher(keys.confidentialityKey, civ.iv, civ.cipherText);
      return if text.Some? then Ok(text.value) else Err(BadPadding);
    } else {
      return Err(MacMismatch);
    }
  }

  lemma OpenSeal(s: Suite, text: Bytes, keys: SecretKeys, iv: Bytes)
    requires Lawful(s) && |keys.confidentialityKey| == AES_KEY_LENGTH_BITS / 8 && |iv| == IV_LENGTH_BYTES
    ensures Open(s, Seal(s, text, keys, iv), keys) == Ok(text)
  {
  }

  /** Two texts are told apart by their MACs, unless they are one text. */
  predicate NoCollision(s: Suite, key: Bytes, x: Bytes, y: Bytes) { s.hmac(key, x) == s.hmac(key, y) ==> x == y }

  /** The code authenticates vector and cipher text as one string without their lengths. Unless the two strings met here
      collide, what opens under the MAC of a sealed text is that sealed text exactly when the vector has the same
      length. */
  lemma OpensOnlyWhatWasSealed(s: Suite, text: Bytes, keys: SecretKeys, iv: Bytes, civ: CipherTextIvMac)
    requires civ.mac == Seal(s, text, keys, iv).mac
    requires NoCollision(s, keys.integrityKey, civ.iv + civ.cipherText, iv + Seal(s, text, keys, iv).cipherText)
    requires Open(s, civ, keys) != Err(MacMismatch)
    ensures civ == Seal(s, text, keys, iv) <==> |civ.iv| == |iv|
  {
    var sealed := Seal(s, text, keys, iv);
    if |civ.iv| == |iv| {
      assert (civ.iv + civ.cipherText)[..|iv|] == (iv + sealed.cipherText)[..|iv|];
      assert (civ.iv + civ.cipherText)[|iv|..] == (iv + sealed.cipherText)[|iv|..];
    }
  }
}
