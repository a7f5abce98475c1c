/** Mnemonics and passphrase as the payload of the seed file, and back. */
module Mnemonics {
  import opened Wrappers
  import opened Bytes
  import opened Sequences
  import opened Containers

  // ---- words on one line

  function Join(words: seq<string>): string {
    if words == [] then "" else if |words| == 1 then words[0] else words[0] + " " + Join(words[1..])
  }

  /** Kotlin's split(" "): one more part than there are spaces. */
  function Split(s: string): (r: seq<string>)
    ensures r != []
  {
    if s == "" then [""]
    else
      var r := Split(s[1..]);
      if s[0] == ' ' then [""] + r else [[s[0]] + r[0]] + r[1..]
  }

  predicate IsWord(s: string) { ' ' !in s }

  lemma {:induction false} SplitOne(word: string)
    requires IsWord(word)
    ensures Split(word) == [word]
  {
    if word != "" {
      SplitOne(word[1..]);
      assert word[0] in word && [word[0]] + word[1..] == word;
    }
  }

  lemma {:induction false} SplitFirst(word: string, rest: string)
    requires IsWord(word)
    ensures Split(word + " " + rest) == [word] + Split(rest)
  {
    if word == "" {
      assert word + " " + rest == [' '] + rest;
    } else {
      SplitFirst(word[1..], rest);
      assert (word + " " + rest)[1..] == word[1..] + " " + rest;
      assert word[0] in word && [word[0]] + word[1..] == word;
    }
  }

  lemma {:induction false} SplitJoin(words: seq<string>)
    requires words != [] && forall i :: 0 <= i < |words| ==> IsWord(words[i])
    ensures Split(Join(words)) == words
    decreases |words|
  {
    if |words| == 1 {
      SplitOne(words[0]);
    } else {
      SplitFirst(words[0], Join(words[1..]));
      SplitJoin(words[1..]);
    }
  }

  lemma {:induction false} PartsAreWords(s: string)
    ensures forall i :: 0 <= i < |Split(s)| ==> IsWord(Split(s)[i])
  {
    if s != "" {
      PartsAreWords(s[1..]);
    }
  }

  lemma JoinSpace(rest: seq<string>)
    requires rest != []
    ensures Join([""] + rest) == " " + Join(rest)
  {
    assert ([""] + rest)[1..] == rest;
  }

  lemma JoinLetter(letter: char, parts: seq<string>)
    requires parts != []
    ensures Join([[letter] + parts[0]] + parts[1..]) == [letter] + Join(parts)
  {
    var longer := [[letter] + parts[0]] + parts[1..];
    assert longer[1..] == parts[1..];
    if |parts| > 1 {
      Associate([letter], parts[0], " " + Join(parts[1..]));
      Associate([letter] + parts[0], " ", Join(parts[1..]));
      Associate(parts[0], " ", Join(parts[1..]));
    }
  }

  /** Joining undoes splitting, always. */
  lemma {:induction false} JoinSplit(s: string)
    ensures Join(Split(s)) == s
  {
    if s != "" {
      JoinSplit(s[1..]);
      JoinSpace(Split(s[1..]));
      JoinLetter(s[0], Split(s[1..]));
      hide Join;
      assert [s[0]] + s[1..] == s;
    }
  }

  // ---- encoding

  /** JSON objects with the two fields, UTF-8, hexadecimal text, and BIP 39: the seed of a list of words and a
      passphrase, which may be null. */
  datatype Codec = Codec(
    printJson: (string, string) -> string,
    parseJson: string -> Option<(string, string)>,
    utf8: string -> Bytes,
    fromUtf8: Bytes -> string,
    hexEncode: Bytes -> Bytes,
    hexDecode: Bytes -> Option<Bytes>,
    toSeed: (seq<string>, Option<string>) -> Bytes)

  ghost predicate CodecLawful(c: Codec) {
    && (forall words, passphrase :: c.parseJson(c.printJson(words, passphrase)) == Some((words, passphrase)))
    && (forall text :: c.fromUtf8(c.utf8(text)) == text)
    && (forall bytes :: c.hexDecode(c.hexEncode(bytes)) == Some(bytes))
  }

  datatype Failure = UnhandledSeedVersion | NotHex | NotJson

  function EncodeMnemonics(c: Codec, version: int, words: seq<string>, passphrase: Option<string>)
    : Result<Bytes, Failure>
  {
    if version == SEED_FILE_VERSION_1 then Ok(c.hexEncode(c.toSeed(words, passphrase)))
    else if version == SEED_FILE_VERSION_2 then
      Ok(c.hexEncode(c.utf8(c.printJson(Join(words), if passphrase.Some? then passphrase.value else ""))))
    else Err(UnhandledSeedVersion)
  }

  function DecodeV2MnemonicsBlob(c: Codec, blob: Bytes): Result<(seq<string>, string), Failure> {
    match c.hexDecode(blob)
    case None => Err(NotHex)
    case Some(bytes) =>
      match c.parseJson(c.fromUtf8(bytes))
      case None => Err(NotJson)
      case Some((words, passphrase)) => Ok((Split(words), passphrase))
  }

  function DecodeSeed(c: Codec, version: int, blob: Bytes): Result<Bytes, Failure> {
    if version == SEED_FILE_VERSION_1 then
      match c.hexDecode(blob) case Some(seed) => Ok(seed) case None => Err(NotHex)
    else if version == SEED_FILE_VERSION_2 then
      match DecodeV2MnemonicsBlob(c, blob)
      case Ok((words, passphrase)) => Ok(c.toSeed(words, Some(passphrase)))
      case Err(e) => Err(e)
    else Err(UnhandledSeedVersion)
  }

  lemma UnknownVersionIsRefused(c: Codec, version: int, blob: Bytes)
    ensures DecodeSeed(c, version, blob) == Err(UnhandledSeedVersion) <==> version !in SEED.versions
  {
  }

  /** Decoding gives the words back exactly when there are some and none has a space in it. A null passphrase comes back
      empty. Versions other than 1 and 2 are refused both ways. */
  lemma DecodeEncode(c: Codec, words: seq<string>, passphrase: Option<string>)
    requires CodecLawful(c)
    ensures var blob := EncodeMnemonics(c, SEED_FILE_VERSION_2, words, passphrase);
            && blob.Ok?
            && (DecodeV2MnemonicsBlob(c, blob.value)
                  == Ok((words, if passphrase.Some? then passphrase.value else "")) <==>
                words != [] && forall i :: 0 <= i < |words| ==> IsWord(words[i]))
    ensures forall version ::
              EncodeMnemonics(c, version, words, passphrase) == Err(UnhandledSeedVersion) <==> version !in SEED.versions
    ensures forall version, blob ::
              DecodeSeed(c, version, blob) == Err(UnhandledSeedVersion) <==> version !in SEED.versions
  {
    forall version, blob: Bytes
      ensures DecodeSeed(c, version, blob) == Err(UnhandledSeedVersion) <==> version !in SEED.versions
    {
      UnknownVersionIsRefused(c, version, blob);
    }
    PartsAreWords(Join(words));
    if words != [] && forall i :: 0 <= i < |words| ==> IsWord(words[i]) {
      SplitJoin(words);
    }
  }

  /** The payload is hexadecimal text: of the seed in version 1, of the JSON object with both fields in version 2. */
  lemma PayloadIsHex(c: Codec, words: seq<string>, passphrase: Option<string>)
    requires CodecLawful(c)
    ensures var v1 := EncodeMnemonics(c, 1, words, passphrase);
            v1.Ok? && c.hexDecode(v1.value) == Some(c.toSeed(words, passphrase))
    ensures var v2 := EncodeMnemonics(c, 2, words, passphrase);
            && v2.Ok? && c.hexDecode(v2.value).Some?
            && c.parseJson(c.fromUtf8(c.hexDecode(v2.value).value))
               == Some((Join(words), if passphrase.Some? then passphrase.value else ""))
  {
  }

  /** Both versions give the same seed exactly when a null passphrase, if there was one, counts as an empty one. */
  lemma VersionsAgree(c: Codec, words: seq<string>, passphrase: Option<string>)
    requires CodecLawful(c) && words != [] && forall i :: 0 <= i < |words| ==> IsWord(words[i])
    ensures var v1 := EncodeMnemonics(c, SEED_FILE_VERSION_1, words, passphrase);
            var v2 := EncodeMnemonics(c, SEED_FILE_VERSION_2, words, passphrase);
            && v1.Ok? && v2.Ok?
            && DecodeSeed(c, SEED_FILE_VERSION_1, v1.value) == Ok(c.toSeed(words, passphrase))
            && (DecodeSeed(c, SEED_FILE_VERSION_2, v2.value) == DecodeSeed(c, SEED_FILE_VERSION_1, v1.value) <==>
                passphrase.Some? || c.toSeed(words, None) == c.toSeed(words, Some("")))
  {
    DecodeEncode(c, words, passphrase);
  }
}
