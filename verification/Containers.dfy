/** The seed file and the channels backup: version, salt (seed only), initialisation vector, MAC, cipher text. */
module Containers {
  import opened Wrappers
  import opened Bytes
  import opened Sequences
  import opened AesCbcWithIntegrity

  /** A backup has no salt. */
  datatype EncryptedData = EncryptedData(version: int, salt: Bytes, civ: CipherTextIvMac)

  datatype FormatError = UnhandledVersion | WrongLengths

  datatype ReadError = Security(error: SecurityError) | CorruptZip

  type Version = v: int | 1 <= v <= 3 witness 1

  datatype Layout = Layout(versions: set<Version>, saltLength: nat)
  {
    function HeaderLength(): nat { 1 + saltLength + IV_LENGTH_V1 + MAC_LENGTH_V1 }
  }

  const SEED_FILE_VERSION_1 := 1
  const SEED_FILE_VERSION_2 := 2
  const BACKUP_VERSION_1 := 1
  const BACKUP_VERSION_2 := 2
  const BACKUP_VERSION_3 := 3
  const SALT_LENGTH_V1: nat := 128
  const IV_LENGTH_V1: nat := 16
  const MAC_LENGTH_V1: nat := 32

  const SEED := Layout({1, 2}, SALT_LENGTH_V1)
  const BACKUP := Layout({1, 2, 3}, 0)

  // ---- the formats

  function Serialized(l: Layout, x: EncryptedData): Result<Bytes, FormatError> {
    if x.version !in l.versions then Err(UnhandledVersion)
    else if |x.salt| != l.saltLength || |x.civ.iv| != IV_LENGTH_V1 || |x.civ.mac| != MAC_LENGTH_V1 then
        Err(WrongLengths)
    else Ok([VersionByte(x.version)] + (x.salt + (x.civ.iv + (x.civ.mac + x.civ.cipherText))))
  }

  function Parsed(l: Layout, b: Bytes): Result<EncryptedData, FormatError> {
    if b == [] || b[0] as int !in l.versions then Err(UnhandledVersion)
    else
      var n := 1 + l.saltLength;
      Ok(EncryptedData(
           b[0] as int, Field(b, 1, l.saltLength),
           CipherTextIvMac(
             Rest(b, n + IV_LENGTH_V1 + MAC_LENGTH_V1), Field(b, n, IV_LENGTH_V1),
             Field(b, n + IV_LENGTH_V1, MAC_LENGTH_V1))))
  }

  /** Fields appended one after the other. */
  lemma Appended(a: Bytes, b: Bytes, c: Bytes, d: Bytes, e: Bytes)
    ensures a + b + c + d + e == a + (b + (c + (d + e)))
  {
    Associate(a + b + c, d, e);
    Associate(a + b, c, d + e);
    Associate(a, b, c + (d + e));
  }

  /** The low byte of a known version. */
  function VersionByte(version: Version): (r: bv8)
    ensures r as int == version
  {
    if version == 1 then 1 else if version == 2 then 2 else 3
  }

  method WriteSeed(x: EncryptedData) returns (r: Result<Bytes, FormatError>)
    ensures r == Serialized(SEED, x)
  {
    if x.version == SEED_FILE_VERSION_1 || x.version == SEED_FILE_VERSION_2 {
      if |x.salt| != SALT_LENGTH_V1 || |x.civ.iv| != IV_LENGTH_V1 || |x.civ.mac| != MAC_LENGTH_V1 {
        return Err(WrongLengths);
      }
      var out := new ByteArrayOutputStream();
      out.Write(VersionByte(x.version));
      assert out.buf == [VersionByte(x.version)];
      out.WriteAll(x.salt);
      out.WriteAll(x.civ.iv);
      out.WriteAll(x.civ.mac);
      out.WriteAll(x.civ.cipherText);
      Appended([VersionByte(x.version)], x.salt, x.civ.iv, x.civ.mac, x.civ.cipherText);
      return Ok(out.buf);
    } else {
      return Err(UnhandledVersion);
    }
  }

  method ReadSeed(serialized: Bytes) returns (r: Result<EncryptedData, FormatError>)
    ensures r == Parsed(SEED, serialized)
  {
    var stream := new ByteArrayInputStream(serialized);
    var version := stream.Read();
    if version == SEED_FILE_VERSION_1 || version == SEED_FILE_VERSION_2 {
      var salt := stream.ReadNew(SALT_LENGTH_V1);
      var iv := stream.ReadNew(IV_LENGTH_V1);
      var mac := stream.ReadNew(MAC_LENGTH_V1);
      var cipher := stream.ReadRest();
      return Ok(EncryptedData(version, salt, CipherTextIvMac(cipher, iv, mac)));
    } else {
      return Err(UnhandledVersion);
    }
  }

  method WriteBackup(x: EncryptedData) returns (r: Result<Bytes, FormatError>)
    requires x.salt == []
    ensures r == Serialized(BACKUP, x)
  {
    if x.version == BACKUP_VERSION_1 || x.version == BACKUP_VERSION_2 || x.version == BACKUP_VERSION_3 {
      if |x.civ.iv| != IV_LENGTH_V1 || |x.civ.mac| != MAC_LENGTH_V1 {
        return Err(WrongLengths);
      }
      var out := new ByteArrayOutputStream();
      out.Write(VersionByte(x.version));
      assert out.buf == [VersionByte(x.version)] + x.salt;
      out.WriteAll(x.civ.iv);
      out.WriteAll(x.civ.mac);
      out.WriteAll(x.civ.cipherText);
      Appended([VersionByte(x.version)], x.salt, x.civ.iv, x.civ.mac, x.civ.cipherText);
      return Ok(out.buf);
    } else {
      return Err(UnhandledVersion);
    }
  }

  method ReadBackup(serialized: Bytes) returns (r: Result<EncryptedData, FormatError>)
    ensures r == Parsed(BACKUP, serialized)
  {
    var stream := new ByteArrayInputStream(serialized);
    var version := stream.Read();
    if version == BACKUP_VERSION_1 || version == BACKUP_VERSION_2 || version == BACKUP_VERSION_3 {
      var iv := stream.ReadNew(IV_LENGTH_V1);
      var mac := stream.ReadNew(MAC_LENGTH_V1);
      var cipher := stream.ReadRest();
      return Ok(EncryptedData(version, [], CipherTextIvMac(cipher, iv, mac)));
    } else {
      return Err(UnhandledVersion);
    }
  }

  // ---- the formats are inverse to each other

  lemma WriteThenRead(l: Layout, x: EncryptedData)
    requires Serialized(l, x).Ok?
    ensures Parsed(l, Serialized(l, x).value) == Ok(x)
  {
    hide Field, Rest, VersionByte;
    var v, n, civ := [VersionByte(x.version)], 1 + l.saltLength, x.civ;
    var body := civ.mac + civ.cipherText;
    FieldOf(v, x.salt, civ.iv + body);
    FieldOf(x.salt, civ.iv, body);
    FieldOf(civ.iv, civ.mac, civ.cipherText);
    Skip(v, x.salt + (civ.iv + body), l.saltLength, IV_LENGTH_V1);
    Skip(x.salt, civ.iv + body, IV_LENGTH_V1, MAC_LENGTH_V1);
    Skip(v, x.salt + (civ.iv + body), l.saltLength + IV_LENGTH_V1, MAC_LENGTH_V1);
    SkipRest(civ.mac, civ.cipherText, 0);
    SkipRest(civ.iv, body, MAC_LENGTH_V1);
    SkipRest(x.salt, civ.iv + body, IV_LENGTH_V1 + MAC_LENGTH_V1);
    SkipRest(v, x.salt + (civ.iv + body), l.saltLength + IV_LENGTH_V1 + MAC_LENGTH_V1);
    RestOfAll(civ.cipherText);
  }

  lemma FieldOf(front: Bytes, field: Bytes, back: Bytes)
    ensures Field(front + (field + back), |front|, |field|) == field
  {
  }

  lemma Skip(front: Bytes, back: Bytes, at: nat, n: nat)
    ensures Field(front + back, |front| + at, n) == Field(back, at, n)
  {
  }

  lemma SkipRest(front: Bytes, back: Bytes, at: nat)
    ensures Rest(front + back, |front| + at) == Rest(back, at)
  {
  }

  lemma RestOfAll(b: Bytes)
    ensures Rest(b, 0) == b
  {
  }

  /** Two fields cut one after the other, up to the end or beyond it. */
  lemma Join(b: Bytes, at: nat, n: nat, m: nat)
    ensures Field(b, at, n) + (Field(b, at + n, m) + Rest(b, at + n + m)) == Field(b, at, n + m) + Rest(b, at + n + m)
  {
    assert Field(b, at, n) + Field(b, at + n, m) == Field(b, at, n + m);
  }

  lemma VersionByteOf(b: bv8)
    requires 1 <= b as int <= 3
    ensures VersionByte(b as int) == b
  {
  }

  lemma Reserialized(l: Layout, b: Bytes)
    requires Parsed(l, b).Ok?
    ensures var n := l.HeaderLength();
            Serialized(l, Parsed(l, b).value) == Ok([b[0]] + (Field(b, 1, n - 1) + Rest(b, n)))
  {
    VersionByteOf(b[0]);
    hide Field, Rest, VersionByte;
    Join(b, 1 + l.saltLength, IV_LENGTH_V1, MAC_LENGTH_V1);
    Join(b, 1, l.saltLength, IV_LENGTH_V1 + MAC_LENGTH_V1);
  }

  /** A file shorter than the header is read as if it were filled up with zeros. */
  lemma ReadThenWrite(l: Layout, b: Bytes)
    requires Parsed(l, b).Ok?
    ensures Serialized(l, Parsed(l, b).value)
         == Ok(if |b| >= l.HeaderLength() then b else b + Zeros(l.HeaderLength() - |b|))
  {
    Reserialized(l, b);
    HeaderOf(b, l.HeaderLength());
  }

  lemma HeaderOf(b: Bytes, n: nat)
    requires b != [] && n > 0
    ensures [b[0]] + (Field(b, 1, n - 1) + Rest(b, n)) == if |b| >= n then b else b + Zeros(n - |b|)
  {
  }

  /** Reading and writing back gives a file of a known version back exactly when it has a whole header: 177 bytes for a
      seed, 49 for a backup. */
  lemma ReadThenWriteIsIdentity(b: Bytes)
    ensures Parsed(SEED, b).Ok? ==> (Serialized(SEED, Parsed(SEED, b).value) == Ok(b) <==> |b| >= 177)
    ensures Parsed(BACKUP, b).Ok? ==> (Serialized(BACKUP, Parsed(BACKUP, b).value) == Ok(b) <==> |b| >= 49)
  {
    if Parsed(SEED, b).Ok? {
      ReadThenWrite(SEED, b);
    }
    if Parsed(BACKUP, b).Ok? {
      ReadThenWrite(BACKUP, b);
    }
  }

  // ---- the formats, byte by byte

  lemma SeedLayout(x: EncryptedData)
    ensures Serialized(SEED, x).Ok? <==>
              (x.version == 1 || x.version == 2) && |x.salt| == 128 && |x.civ.iv| == 16 && |x.civ.mac| == 32
    ensures Serialized(SEED, x).Ok? ==>
              var b := Serialized(SEED, x).value;
              && |b| >= 177 && b[0] as int == x.version
              && b[1..129] == x.salt && b[129..145] == x.civ.iv && b[145..177] == x.civ.mac
              && b[177..] == x.civ.cipherText
  {
    if Serialized(SEED, x).Ok? {
      Cut(VersionByte(x.version), x.salt, x.civ.iv, x.civ.mac, x.civ.cipherText);
      hide VersionByte;
    }
  }

  lemma BackupLayout(x: EncryptedData)
    requires x.salt == []
    ensures Serialized(BACKUP, x).Ok? <==> 1 <= x.version <= 3 && |x.civ.iv| == 16 && |x.civ.mac| == 32
    ensures Serialized(BACKUP, x).Ok? ==>
              var b := Serialized(BACKUP, x).value;
              && |b| >= 49 && b[0] as int == x.version
              && b[1..17] == x.civ.iv && b[17..49] == x.civ.mac && b[49..] == x.civ.cipherText
  {
    if Serialized(BACKUP, x).Ok? {
      Cut(VersionByte(x.version), x.salt, x.civ.iv, x.civ.mac, x.civ.cipherText);
      hide VersionByte;
    }
  }

  lemma Cut(v: bv8, a: Bytes, b: Bytes, c: Bytes, d: Bytes)
    ensures var all := [v] + (a + (b + (c + d)));
            var i, j, k := 1 + |a|, 1 + |a| + |b|, 1 + |a| + |b| + |c|;
            |all| >= k && all[0] == v && all[1..i] == a && all[i..j] == b && all[j..k] == c && all[k..] == d
  {
  }

  /** Which files are read at all. */
  lemma KnownVersions(b: Bytes)
    ensures Parsed(SEED, b).Ok? <==> b != [] && (b[0] == 1 || b[0] == 2)
    ensures Parsed(BACKUP, b).Ok? <==> b != [] && (b[0] == 1 || b[0] == 2 || b[0] == 3)
  {
  }

  // ---- seeds

  function SealedSeed(s: Suite, seed: Bytes, password: string, version: int, salt: Bytes, iv: Bytes): EncryptedData
    requires WellSized(s)
  {
    EncryptedData(version, salt, Seal(s, seed, KeysOf(s.derive(password, salt)), iv))
  }

  function OpenedSeed(s: Suite, x: EncryptedData, password: string): Result<Bytes, SecurityError>
    requires WellSized(s)
  {
    Open(s, x.civ, KeysOf(s.derive(password, x.salt)))
  }

  /** The salt and the vector are drawn at random; the salt has as many bytes as the constant counts bits. */
  method EncryptSeed(s: Suite, seed: Bytes, password: string, version: int, salt: Bytes, iv: Bytes)
    returns (x: EncryptedData)
    requires WellSized(s) && |salt| == PBE_SALT_LENGTH_BITS && |iv| == IV_LENGTH_BYTES
    ensures x == SealedSeed(s, seed, password, version, salt, iv)
    ensures Serialized(SEED, x).Ok? <==> version in SEED.versions
  {
    var keys := GenerateKeyFromPassword(s, password, salt);
    var civ := Encrypt(s, seed, keys, iv);
    x := EncryptedData(version, salt, civ);
  }

  method DecryptSeed(s: Suite, x: EncryptedData, password: string) returns (r: Result<Bytes, SecurityError>)
    requires WellSized(s)
    ensures r == OpenedSeed(s, x, password)
  {
    var keys := GenerateKeyFromPassword(s, password, x.salt);
    r := Decrypt(s, x.civ, keys);
  }

  /** The container holds the salt and the vector drawn, and the seed under the keys that password and salt give: first
      the key of the cipher, then that of the MAC. */
  lemma SeedIsSealed(s: Suite, seed: Bytes, password: string, version: int, salt: Bytes, iv: Bytes, keys: SecretKeys)
    requires Lawful(s) && |iv| == IV_LENGTH_BYTES
    requires |keys.confidentialityKey| == 16 && keys.confidentialityKey + keys.integrityKey == s.derive(password, salt)
    ensures var x := SealedSeed(s, seed, password, version, salt, iv);
            && x.version == version && x.salt == salt && x.civ.iv == iv
            && x.civ.cipherText == s.encipher(keys.confidentialityKey, iv, seed)
            && x.civ.mac == s.hmac(keys.integrityKey, iv + x.civ.cipherText)
  {
    var bytes := s.derive(password, salt);
    assert bytes[..16] == keys.confidentialityKey && bytes[16..] == keys.integrityKey;
  }

  /** Encrypt, write, read, decrypt. */
  lemma SeedRoundTrip(s: Suite, seed: Bytes, password: string, version: int, salt: Bytes, iv: Bytes)
    requires Lawful(s) && |salt| == PBE_SALT_LENGTH_BITS && |iv| == IV_LENGTH_BYTES && version in SEED.versions
    ensures var written := Serialized(SEED, SealedSeed(s, seed, password, version, salt, iv));
            && written.Ok?
            && var read := Parsed(SEED, written.value);
               read.Ok? && read.value.version == version && OpenedSeed(s, read.value, password) == Ok(seed)
  {
    var x := SealedSeed(s, seed, password, version, salt, iv);
    WriteThenRead(SEED, x);
    OpenSeal(s, seed, KeysOf(s.derive(password, salt)), iv);
  }

  // ---- backups

  /** zlib; inflating fails on what is not a deflated stream. */
  datatype Zip = Zip(deflate: Bytes -> Bytes, inflate: Bytes -> Option<Bytes>)

  ghost predicate ZipLawful(z: Zip) { forall data :: z.inflate(z.deflate(data)) == Some(data) }

  function SealedBackup(s: Suite, z: Zip, data: Bytes, keys: SecretKeys, version: int, iv: Bytes): EncryptedData {
    EncryptedData(version, [], Seal(s, if version >= BACKUP_VERSION_3 then z.deflate(data) else data, keys, iv))
  }

  function OpenedBackup(s: Suite, z: Zip, x: EncryptedData, keys: SecretKeys): Result<Bytes, ReadError> {
    match Open(s, x.civ, keys)
    case Err(e) => Err(Security(e))
    case Ok(data) =>
      if x.version < BACKUP_VERSION_3 then Ok(data)
      else match z.inflate(data) case Some(whole) => Ok(whole) case None => Err(CorruptZip)
  }

  method EncryptBackup(s: Suite, z: Zip, data: Bytes, keys: SecretKeys, version: int, iv: Bytes)
    returns (x: EncryptedData)
    ensures x == SealedBackup(s, z, data, keys, version, iv)
  {
    var finalData := if version >= BACKUP_VERSION_3 then z.deflate(data) else data;
    var civ := Encrypt(s, finalData, keys, iv);
    x := EncryptedData(version, [], civ);
  }

  method DecryptBackup(s: Suite, z: Zip, x: EncryptedData, keys: SecretKeys) returns (r: Result<Bytes, ReadError>)
    ensures r == OpenedBackup(s, z, x, keys)
    ensures match Open(s, x.civ, keys)
            case Err(e) => r == Err(Security(e))
            case Ok(text) => r == if x.version < 3 then Ok(text)
                                  else if z.inflate(text).Some? then Ok(z.inflate(text).value)
                                  else Err(CorruptZip)
  {
    var decryptedData := Decrypt(s, x.civ, keys);
    match decryptedData
    case Err(e) => return Err(Security(e));
    case Ok(data) =>
      if x.version >= BACKUP_VERSION_3 {
        var whole := z.inflate(data);
        return if whole.Some? then Ok(whole.value) else Err(CorruptZip);
      } else {
        return Ok(data);
      }
  }

  method SecretKeyFromBinaryKey(key: Bytes) returns (keys: SecretKeys)
    requires |key| == 32
    ensures |keys.confidentialityKey| == |keys.integrityKey| == 16 && keys.confidentialityKey + keys.integrityKey == key
  {
    var confidentialityKey := CopyOfRange(key, 0, 16);
    var integrityKey := CopyOfRange(key, 16, 32);
    keys := SecretKeys(confidentialityKey, integrityKey);
  }

  /** What is under the cipher: the data itself in versions 1 and 2, the compressed data in version 3. */
  lemma BackupIsSealed(s: Suite, z: Zip, data: Bytes, keys: SecretKeys, version: int, iv: Bytes)
    requires Lawful(s) && |keys.confidentialityKey| == AES_KEY_LENGTH_BITS / 8 && |iv| == IV_LENGTH_BYTES
    ensures var x := SealedBackup(s, z, data, keys, version, iv);
            && x.version == version && x.salt == [] && x.civ.iv == iv
            && (version == 1 || version == 2 ==> Open(s, x.civ, keys) == Ok(data))
            && (version == 3 ==> Open(s, x.civ, keys) == Ok(z.deflate(data)))
  {
    OpenSeal(s, data, keys, iv);
    OpenSeal(s, z.deflate(data), keys, iv);
  }

  lemma BackupRoundTrip(s: Suite, z: Zip, data: Bytes, keys: SecretKeys, version: int, iv: Bytes)
    requires Lawful(s) && ZipLawful(z) && version in BACKUP.versions
    requires |keys.confidentialityKey| == AES_KEY_LENGTH_BITS / 8 && |iv| == IV_LENGTH_BYTES
    ensures var written := Serialized(BACKUP, SealedBackup(s, z, data, keys, version, iv));
            && written.Ok?
            && var read := Parsed(BACKUP, written.value);
               read.Ok? && read.value.version == version && OpenedBackup(s, z, read.value, keys) == Ok(data)
  {
    var finalData := if version >= BACKUP_VERSION_3 then z.deflate(data) else data;
    WriteThenRead(BACKUP, SealedBackup(s, z, data, keys, version, iv));
    OpenSeal(s, finalData, keys, iv);
  }

  // ---- damaged files

  /** What the MAC of a file covers. */
  function Covered(l: Layout, b: Bytes): Bytes { Field(b, 1 + l.saltLength, IV_LENGTH_V1) + Rest(b, l.HeaderLength()) }

  /** Of all files that keep the header of a written one, and whose covered bytes do not collide with its own, that one
      alone passes the MAC. */
  lemma BodyIsAuthenticated(l: Layout, s: Suite, text: Bytes, keys: SecretKeys, x: EncryptedData, b: Bytes)
    requires WellSized(s) && Serialized(l, x).Ok? && x.civ == Seal(s, text, keys, x.civ.iv)
    requires |b| >= l.HeaderLength() && b[..l.HeaderLength()] == Serialized(l, x).value[..l.HeaderLength()]
    requires NoCollision(s, keys.integrityKey, Covered(l, b), Covered(l, Serialized(l, x).value))
    ensures Parsed(l, b).Ok?
    ensures Open(s, Parsed(l, b).value.civ, keys) != Err(MacMismatch) <==> b == Serialized(l, x).value
  {
    var written := Serialized(l, x).value;
    WriteThenRead(l, x);
    SameHeader(l, written, b);
    var y := Parsed(l, b).value;
    if Open(s, y.civ, keys) != Err(MacMismatch) {
      OpensOnlyWhatWasSealed(s, text, keys, x.civ.iv, y.civ);
      ReadThenWrite(l, b);
    }
  }

  lemma SameHeader(l: Layout, a: Bytes, b: Bytes)
    requires |a| >= l.HeaderLength() && |b| >= l.HeaderLength() && a[..l.HeaderLength()] == b[..l.HeaderLength()]
    requires Parsed(l, a).Ok?
    ensures Parsed(l, b).Ok?
    ensures var x, y := Parsed(l, a).value, Parsed(l, b).value;
            x.version == y.version && x.salt == y.salt && x.civ.iv == y.civ.iv && x.civ.mac == y.civ.mac
  {
    forall i | 0 <= i < l.HeaderLength() ensures a[i] == b[i] {
      assert a[..l.HeaderLength()][i] == b[..l.HeaderLength()][i];
    }
  }
}
