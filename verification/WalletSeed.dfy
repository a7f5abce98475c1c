/** From the words the user chose to the seed a later session derives from the file. */
module WalletSeed {
  import opened Wrappers
  import opened AesCbcWithIntegrity
  import opened Containers
  import opened Mnemonics
  import SeedFile

  /** Words written to a fresh data directory, then any number of PIN changes, each stopped anywhere: under the last
      accepted PIN the file gives the seed of those words. */
  lemma SeedSurvives(
    s: Suite, c: Codec, words: seq<string>, passphrase: string, w: SeedFile.Writing, changes: seq<SeedFile.Action>)
    requires Lawful(s) && CodecLawful(c)
    requires words != [] && forall i :: 0 <= i < |words| ==> IsWord(words[i])
    requires w.version in SEED.versions && EncodeMnemonics(c, w.version, words, Some(passphrase)) == Ok(w.data)
    requires |w.salt| == PBE_SALT_LENGTH_BITS && |w.iv| == IV_LENGTH_BYTES && w.reached >= 3
             && forall b :: w.disk(b) == b
    requires SeedFile.AreChanges(changes) && SeedFile.VersionsKept(s, SeedFile.AfterWrite(s, map[], w), changes)
    requires SeedFile.PinsAgree(
               s, SeedFile.AfterWrite(s, map[], w), Some(SeedFile.Expected(w.password, w.data, w.version)), changes)
    ensures var actions := [SeedFile.Write(w)] + changes;
            var files := SeedFile.AfterActions(s, map[], actions);
            var expected := SeedFile.AcceptsAll(s, map[], None, actions);
            && expected.Some?
            && var r := SeedFile.Unlocked(s, files, SeedFile.SEED_NAME, expected.value.pin);
               r.Ok? && DecodeSeed(c, r.value.0.version, r.value.1) == Ok(c.toSeed(words, Some(passphrase)))
  {
    var actions, start := [SeedFile.Write(w)] + changes, SeedFile.Expected(w.password, w.data, w.version);
    assert actions[1..] == changes;
    SeedFile.WriteSucceeds(s, map[], w);
    SeedRoundTrip(s, w.data, w.password, w.version, w.salt, w.iv);
    var files := SeedFile.AfterWrite(s, map[], w);
    SeedFile.ActionsMeet(s, files, Some(start), changes);
    SeedFile.ActionsHaveVersion(s, files, Some(start), changes);
    SeedFile.ChangesKeepPayload(s, files, start, changes);
    VersionsAgree(c, words, Some(passphrase));
  }
}
