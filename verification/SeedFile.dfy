/** The seed file: written to a temporary file, read back, checked, and moved into place. */
module SeedFile {
  import opened Wrappers
  import opened Bytes
  import opened AesCbcWithIntegrity
  import opened Containers

  const SEED_NAME := "enc_seed.dat"
  const SEED_NAME_TEMP := "enc_seed_temp.dat"
  const PIN_LENGTH := 6

  type Files = map<string, Bytes>

  /** A run of the protocol: what to write, the random draws, what the temporary file really holds after the write, and
      how many of the steps (create the directory, write, move) were reached before the process died. */
  datatype Writing = Writing(
    data: Bytes, password: string, version: int, salt: Bytes, iv: Bytes, disk: Bytes -> Bytes, reached: nat)

  datatype Failure = NoFile | Unreadable(format: FormatError) | Locked(security: SecurityError)

  datatype Outcome = Written | Failed | Interrupted

  function OpenedFile(s: Suite, file: Bytes, password: string): Result<(EncryptedData, Bytes), Failure>
    requires WellSized(s)
  {
    match Parsed(SEED, file)
    case Err(e) => Err(Unreadable(e))
    case Ok(x) =>
      match OpenedSeed(s, x, password)
      case Err(e) => Err(Locked(e))
      case Ok(payload) => Ok((x, payload))
  }

  function Unlocked(s: Suite, files: Files, name: string, password: string): Result<(EncryptedData, Bytes), Failure>
    requires WellSized(s)
  {
    if name in files then OpenedFile(s, files[name], password) else Err(NoFile)
  }

  /** The file opens under the password and holds the payload. */
  predicate Unlocks(s: Suite, files: Files, name: string, password: string, payload: Bytes)
    requires WellSized(s)
  {
    var r := Unlocked(s, files, name, password);
    r.Ok? && r.value.1 == payload
  }

  /** What is to be written. */
  function Intended(s: Suite, w: Writing): Result<Bytes, FormatError>
    requires WellSized(s)
  {
    Serialized(SEED, SealedSeed(s, w.data, w.password, w.version, w.salt, w.iv))
  }

  function AfterTemp(s: Suite, files: Files, w: Writing): Files
    requires WellSized(s)
  {
    match Intended(s, w)
    case Ok(bytes) => files[SEED_NAME_TEMP := w.disk(bytes)]
    case Err(_) => files
  }

  /** The write gets as far as the move. */
  predicate Moves(s: Suite, files: Files, w: Writing)
    requires WellSized(s)
  {
    w.reached >= 3 && Intended(s, w).Ok? && Unlocks(s, AfterTemp(s, files, w), SEED_NAME_TEMP, w.password, w.data)
  }

  function AfterWrite(s: Suite, files: Files, w: Writing): Files
    requires WellSized(s)
  {
    if w.reached < 2 then files
    else if Moves(s, files, w) then Moved(AfterTemp(s, files, w))
    else AfterTemp(s, files, w)
  }

  function Moved(files: Files): Files
    requires SEED_NAME_TEMP in files
  {
    (files - {SEED_NAME_TEMP})[SEED_NAME := files[SEED_NAME_TEMP]]
  }

  /** The user's request: the current PIN, the new one typed twice, and the writing it leads to. */
  datatype Change = Change(
    pin: string, newPin: Option<string>, confirmPin: Option<string>, salt: Bytes, iv: Bytes, disk: Bytes -> Bytes,
    reached: nat)

  predicate IsNewPin(c: Change) {
    c.newPin.Some? && |c.newPin.value| == PIN_LENGTH && c.newPin == c.confirmPin
  }

  /** The writing a change leads to, if the current PIN opens the seed and the new one is well formed. */
  function WritingOf(s: Suite, files: Files, c: Change): Option<Writing>
    requires WellSized(s)
  {
    match Unlocked(s, files, SEED_NAME, c.pin)
    case Err(_) => None
    case Ok((x, payload)) =>
      if IsNewPin(c) then Some(Writing(payload, c.newPin.value, x.version, c.salt, c.iv, c.disk, c.reached)) else None
  }

  function AfterChange(s: Suite, files: Files, c: Change): Files
    requires WellSized(s)
  {
    match WritingOf(s, files, c) case Some(w) => AfterWrite(s, files, w) case None => files
  }

  // ---- the code

  class Datadir {
    var created: bool
    var files: Files

    ghost predicate Valid()
      reads this
    {
      !created ==> files == map[]
    }

    constructor ()
      ensures Valid() && !created
    {
      created, files := false, map[];
    }

    method ReadSeedFile(name: string) returns (r: Result<EncryptedData, Failure>)
      requires Valid()
      ensures r == if name !in files then Err(NoFile) else
                     match Parsed(SEED, files[name]) case Ok(x) => Ok(x) case Err(e) => Err(Unreadable(e))
    {
      if !created || name !in files {
        return Err(NoFile);
      }
      var x := ReadSeed(files[name]);
      match x
      case Ok(value) => return Ok(value);
      case Err(e) => return Err(Unreadable(e));
    }

    method ReadSeedAndDecrypt(s: Suite, name: string, password: string)
      returns (r: Result<(EncryptedData, Bytes), Failure>)
      requires Valid() && WellSized(s)
      ensures r == Unlocked(s, files, name, password)
    {
      var x := ReadSeedFile(name);
      if x.Err? {
        return Err(x.error);
      }
      var payload := DecryptSeed(s, x.value, password);
      match payload
      case Ok(value) => return Ok((x.value, value));
      case Err(e) => return Err(Locked(e));
    }

    method WriteSeedFile(s: Suite, w: Writing) returns (outcome: Outcome)
      requires Valid() && WellSized(s) && |w.salt| == PBE_SALT_LENGTH_BITS && |w.iv| == IV_LENGTH_BYTES
      modifies this
      ensures Valid() && files == AfterWrite(s, old(files), w)
      ensures outcome == Interrupted <==> w.reached < 3 && (w.reached < 2 || w.version in SEED.versions)
      ensures outcome == Written <==> Moves(s, old(files), w)
    {
      if w.reached < 1 {
        return Interrupted;
      }
      if !created {
        created := true;
      }
      if w.reached < 2 {
        return Interrupted;
      }
      var encryptedSeed := EncryptSeed(s, w.data, w.password, w.version, w.salt, w.iv);
      var bytes := WriteSeed(encryptedSeed);
      if bytes.Err? {
        return Failed;
      }
      files := files[SEED_NAME_TEMP := w.disk(bytes.value)];
      if w.reached < 3 {
        return Interrupted;
      }
      var checkBlob := ReadSeedAndDecrypt(s, SEED_NAME_TEMP, w.password);
      if checkBlob.Err? {
        return Failed;
      }
      var same := ConstantTimeEq(checkBlob.value.1, w.data);
      if !same {
        return Failed;
      }
      files := Moved(files);
      return Written;
    }

    method ChangePassword(s: Suite, c: Change) returns (outcome: Outcome)
      requires Valid() && WellSized(s) && |c.salt| == PBE_SALT_LENGTH_BITS && |c.iv| == IV_LENGTH_BYTES
      modifies this
      ensures Valid() && files == AfterChange(s, old(files), c)
      ensures outcome == Written <==>
                WritingOf(s, old(files), c).Some? && Moves(s, old(files), WritingOf(s, old(files), c).value)
    {
      var current := ReadSeedAndDecrypt(s, SEED_NAME, c.pin);
      if current.Err? {
        return Failed;
      }
      if c.newPin == None || |c.newPin.value| != PIN_LENGTH {
        return Failed;
      } else if c.newPin != c.confirmPin {
        return Failed;
      }
      var (seed, decryptedPayload) := current.value;
      outcome := WriteSeedFile(
        s, Writing(decryptedPayload, c.confirmPin.value, seed.version, c.salt, c.iv, c.disk, c.reached));
    }
  }

  // ---- one write

  function SeedOf(files: Files): Option<Bytes> { if SEED_NAME in files then Some(files[SEED_NAME]) else None }

  /** Whatever the cipher does, whatever the disk did to the temporary file and wherever the write stopped: the seed
      file is untouched, or it opens under the new password to exactly the data. */
  lemma WriteIsAllOrNothing(s: Suite, files: Files, w: Writing)
    requires WellSized(s)
    ensures || SeedOf(AfterWrite(s, files, w)) == SeedOf(files)
            || Unlocks(s, AfterWrite(s, files, w), SEED_NAME, w.password, w.data)
  {
  }

  /** The same of nothing but the two files: all others are left alone. */
  lemma WriteTouchesTwoFiles(s: Suite, files: Files, w: Writing, name: string)
    requires WellSized(s) && name != SEED_NAME && name != SEED_NAME_TEMP
    ensures name in AfterWrite(s, files, w) <==> name in files
    ensures name in files ==> AfterWrite(s, files, w)[name] == files[name]
  {
  }

  /** On a disk that keeps what is written, an uninterrupted write succeeds. */
  lemma WriteSucceeds(s: Suite, files: Files, w: Writing)
    requires Lawful(s) && |w.salt| == PBE_SALT_LENGTH_BITS && |w.iv| == IV_LENGTH_BYTES && w.version in SEED.versions
    requires w.reached >= 3 && forall b :: w.disk(b) == b
    ensures var after := AfterWrite(s, files, w);
            && Unlocks(s, after, SEED_NAME, w.password, w.data)
            && Unlocked(s, after, SEED_NAME, w.password).value.0.version == w.version
            && SEED_NAME_TEMP !in after
  {
    SeedRoundTrip(s, w.data, w.password, w.version, w.salt, w.iv);
  }

  /** A disk that turns the version byte from 2 into 1 goes unnoticed. */
  lemma VersionCanBeLost(s: Suite, files: Files, w: Writing)
    requires Lawful(s) && |w.salt| == PBE_SALT_LENGTH_BITS && |w.iv| == IV_LENGTH_BYTES
             && w.version == SEED_FILE_VERSION_2
    requires w.reached >= 3 && forall b :: b != [] ==> w.disk(b) == [1] + b[1..]
    ensures Moves(s, files, w)
    ensures Unlocked(s, AfterWrite(s, files, w), SEED_NAME, w.password).value.0.version == SEED_FILE_VERSION_1
  {
    var x := SealedSeed(s, w.data, w.password, 2, w.salt, w.iv);
    var bytes := Serialized(SEED, x).value;
    WriteThenRead(SEED, x.(version := 1));
    assert [1] + bytes[1..] == Serialized(SEED, x.(version := 1)).value;
    OpenSeal(s, w.data, KeysOf(s.derive(w.password, w.salt)), w.iv);
  }

  /** A write that does not get to the move leaves the seed file alone. */
  lemma InterruptedKeepsSeed(s: Suite, files: Files, w: Writing)
    requires WellSized(s) && w.reached < 3
    ensures SeedOf(AfterWrite(s, files, w)) == SeedOf(files)
  {
  }

  // ---- one change of the PIN

  /** A change is refused, and no file touched, when the new PIN does not have six characters or was not typed twice, or
      when the current one does not open the seed. */
  lemma BadChangeIsRefused(s: Suite, files: Files, c: Change)
    requires WellSized(s)
    requires || c.newPin == None || |c.newPin.value| != 6 || c.newPin != c.confirmPin
             || Unlocked(s, files, SEED_NAME, c.pin).Err?
    ensures AfterChange(s, files, c) == files
  {
  }

  /** Any other change takes effect, on a disk that keeps what is written: the payload that the current PIN opens is
      opened by the new one, with the same version. */
  lemma GoodChangeSucceeds(s: Suite, files: Files, c: Change, payload: Bytes)
    requires Lawful(s) && |c.salt| == PBE_SALT_LENGTH_BITS && |c.iv| == IV_LENGTH_BYTES
    requires c.newPin.Some? && |c.newPin.value| == 6 && c.newPin == c.confirmPin
    requires Unlocks(s, files, SEED_NAME, c.pin, payload) && c.reached >= 3 && forall b :: c.disk(b) == b
    ensures var after := AfterChange(s, files, c);
            && Unlocks(s, after, SEED_NAME, c.newPin.value, payload)
            && Unlocked(s, after, SEED_NAME, c.newPin.value).value.0.version
               == Unlocked(s, files, SEED_NAME, c.pin).value.0.version
            && SEED_NAME_TEMP !in after
  {
    var x := Unlocked(s, files, SEED_NAME, c.pin).value.0;
    var w := Writing(payload, c.newPin.value, x.version, c.salt, c.iv, c.disk, c.reached);
    assert WritingOf(s, files, c) == Some(w);
    WriteSucceeds(s, files, w);
    hide AfterWrite, Unlocked, Lawful;
  }

  // ---- many writes and changes

  datatype Action = Write(w: Writing) | ChangePin(c: Change)

  function AfterAction(s: Suite, files: Files, action: Action): Files
    requires WellSized(s)
  {
    match action case Write(w) => AfterWrite(s, files, w) case ChangePin(c) => AfterChange(s, files, c)
  }

  function AfterActions(s: Suite, files: Files, actions: seq<Action>): Files
    requires WellSized(s)
    decreases |actions|
  {
    if actions == [] then files else AfterActions(s, AfterAction(s, files, actions[0]), actions[1..])
  }

  /** What the seed file should hold: it opens under the PIN accepted last, to what was written then; the version is
      that of the last write that was not a change of the PIN. */
  datatype Expected = Expected(pin: string, payload: Bytes, version: int)

  /** The write that an action moves into place, if it moves one. */
  function Moving(s: Suite, files: Files, action: Action): Option<Writing>
    requires WellSized(s)
  {
    var w := match action case Write(w) => Some(w) case ChangePin(c) => WritingOf(s, files, c);
    if w.Some? && Moves(s, files, w.value) then w else None
  }

  function Accepts(s: Suite, files: Files, expected: Option<Expected>, action: Action): Option<Expected>
    requires WellSized(s)
  {
    match Moving(s, files, action)
    case None => expected
    case Some(w) =>
      var version := if action.ChangePin? && expected.Some? then expected.value.version else w.version;
      Some(Expected(w.password, w.data, version))
  }

  function AcceptsAll(s: Suite, files: Files, expected: Option<Expected>, actions: seq<Action>): Option<Expected>
    requires WellSized(s)
    decreases |actions|
  {
    if actions == [] then expected
    else AcceptsAll(s, AfterAction(s, files, actions[0]), Accepts(s, files, expected, actions[0]), actions[1..])
  }

  predicate Meets(s: Suite, files: Files, expected: Option<Expected>)
    requires WellSized(s)
  {
    match expected
    case Some(e) => Unlocks(s, files, SEED_NAME, e.pin, e.payload)
    case None => SEED_NAME !in files
  }

  lemma ActionMeets(s: Suite, files: Files, expected: Option<Expected>, action: Action)
    requires WellSized(s) && Meets(s, files, expected)
    ensures Meets(s, AfterAction(s, files, action), Accepts(s, files, expected, action))
  {
  }

  /** After any sequence of writes and PIN changes, each stopped anywhere and on any disk, the seed file opens under the
      last accepted PIN to exactly what was written with it: the data given, or what the current PIN had opened. */
  lemma {:induction false} ActionsMeet(s: Suite, files: Files, expected: Option<Expected>, actions: seq<Action>)
    requires WellSized(s) && Meets(s, files, expected)
    ensures Meets(s, AfterActions(s, files, actions), AcceptsAll(s, files, expected, actions))
    decreases |actions|
  {
    if actions != [] {
      ActionMeets(s, files, expected, actions[0]);
      ActionsMeet(s, AfterAction(s, files, actions[0]), Accepts(s, files, expected, actions[0]), actions[1..]);
    }
  }

  // ---- the payload through PIN changes

  /** A PIN typed for a change, if it opens the file at all, opens it to what the last accepted PIN does: so for the
      last accepted PIN itself, and for any other that the MAC refuses. */
  predicate PinAgrees(s: Suite, files: Files, expected: Option<Expected>, action: Action)
    requires WellSized(s)
  {
    action.ChangePin? ==>
      var r := Unlocked(s, files, SEED_NAME, action.c.pin);
      r.Ok? && expected.Some? ==> r.value.1 == expected.value.payload
  }

  predicate PinsAgree(s: Suite, files: Files, expected: Option<Expected>, actions: seq<Action>)
    requires WellSized(s)
    decreases |actions|
  {
    actions == [] ||
    (PinAgrees(s, files, expected, actions[0]) &&
     PinsAgree(s, AfterAction(s, files, actions[0]), Accepts(s, files, expected, actions[0]), actions[1..]))
  }

  /** Every PIN typed is the last accepted one or does not open the file. */
  predicate PinsAreRight(s: Suite, files: Files, expected: Expected, changes: seq<Action>)
    requires WellSized(s) && AreChanges(changes)
    decreases |changes|
  {
    changes == [] ||
    (var pin := changes[0].c.pin;
     && (pin == expected.pin || Unlocked(s, files, SEED_NAME, pin).Err?)
     && var e := Accepts(s, files, Some(expected), changes[0]).value;
        PinsAreRight(s, AfterAction(s, files, changes[0]), e, changes[1..]))
  }

  /** Then nothing needs to be assumed of the MAC. */
  lemma {:induction false} RightPinsAgree(s: Suite, files: Files, expected: Expected, changes: seq<Action>)
    requires WellSized(s) && AreChanges(changes) && Meets(s, files, Some(expected))
    requires PinsAreRight(s, files, expected, changes)
    ensures PinsAgree(s, files, Some(expected), changes)
    decreases |changes|
  {
    if changes != [] {
      ActionMeets(s, files, Some(expected), changes[0]);
      var e := Accepts(s, files, Some(expected), changes[0]);
      RightPinsAgree(s, AfterAction(s, files, changes[0]), e.value, changes[1..]);
    }
  }

  predicate AreChanges(actions: seq<Action>) { forall i :: 0 <= i < |actions| ==> actions[i].ChangePin? }

  /** PIN changes never replace the payload of a wallet. */
  lemma {:induction false} ChangesKeepPayload(s: Suite, files: Files, expected: Expected, changes: seq<Action>)
    requires WellSized(s) && AreChanges(changes) && PinsAgree(s, files, Some(expected), changes)
    ensures var e := AcceptsAll(s, files, Some(expected), changes);
            e.Some? && e.value.payload == expected.payload && e.value.version == expected.version
    decreases |changes|
  {
    if changes != [] {
      var e := Accepts(s, files, Some(expected), changes[0]);
      ChangesKeepPayload(s, AfterAction(s, files, changes[0]), e.value, changes[1..]);
    }
  }

  // ---- the version

  predicate HasVersion(files: Files, expected: Option<Expected>) {
    match expected
    case Some(e) =>
      SEED_NAME in files && Parsed(SEED, files[SEED_NAME]).Ok?
          && Parsed(SEED, files[SEED_NAME]).value.version == e.version
    case None => SEED_NAME !in files
  }

  /** The disk kept the first byte of what is moved into place. */
  predicate KeepsVersion(s: Suite, files: Files, action: Action)
    requires WellSized(s)
  {
    match Moving(s, files, action)
    case None => true
    case Some(w) =>
      var bytes := Intended(s, w).value;
      w.disk(bytes) != [] && w.disk(bytes)[0] == bytes[0]
  }

  /** The check compares the payload, not the version: an action keeps the version exactly when the disk kept that
      byte. */
  lemma ActionHasVersion(s: Suite, files: Files, expected: Option<Expected>, action: Action)
    requires WellSized(s) && HasVersion(files, expected)
    ensures HasVersion(AfterAction(s, files, action), Accepts(s, files, expected, action)) <==>
              KeepsVersion(s, files, action)
  {
    hide OpenedSeed, WellSized;
  }

  predicate VersionsKept(s: Suite, files: Files, actions: seq<Action>)
    requires WellSized(s)
    decreases |actions|
  {
    actions == [] ||
    (KeepsVersion(s, files, actions[0]) && VersionsKept(s, AfterAction(s, files, actions[0]), actions[1..]))
  }

  /** The file has the version last asked for before, between and after the actions. */
  predicate AlwaysHasVersion(s: Suite, files: Files, expected: Option<Expected>, actions: seq<Action>)
    requires WellSized(s)
    decreases |actions|
  {
    && HasVersion(files, expected)
    && (actions == [] ||
        AlwaysHasVersion(s, AfterAction(s, files, actions[0]), Accepts(s, files, expected, actions[0]), actions[1..]))
  }

  /** The file has the version last asked for all along a run exactly when the disk keeps the first byte each time a
      file is moved into place. */
  lemma {:induction false} ActionsHaveVersion(s: Suite, files: Files, expected: Option<Expected>, actions: seq<Action>)
    requires WellSized(s) && HasVersion(files, expected)
    ensures AlwaysHasVersion(s, files, expected, actions) <==> VersionsKept(s, files, actions)
    ensures VersionsKept(s, files, actions) ==>
              HasVersion(AfterActions(s, files, actions), AcceptsAll(s, files, expected, actions))
    decreases |actions|
  {
    if actions != [] {
      var next, expected' := AfterAction(s, files, actions[0]), Accepts(s, files, expected, actions[0]);
      ActionHasVersion(s, files, expected, actions[0]);
      if HasVersion(next, expected') {
        ActionsHaveVersion(s, next, expected', actions[1..]);
      }
    }
  }
}
