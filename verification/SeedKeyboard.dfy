/** The virtual keyboard on which a seed is typed, with its completion of words. */
module SeedKeyboard {
  import opened Wrappers
  import opened Sequences
  import M = Mnemonics

  const KEY_DELETE := -1
  const KEY_SPACE := 32

  /** The keyboard has the letters of the English alphabet. */
  predicate IsAlphabetic(keyCode: int) { 97 <= keyCode <= 122 || 65 <= keyCode <= 90 }

  predicate IsWhitespace(keyCode: int) { keyCode == KEY_SPACE }

  predicate IsLetter(c: char) { 'a' <= c <= 'z' || 'A' <= c <= 'Z' }

  // ---- what the text shows

  /** One past the last space. */
  function LastWordStart(text: string): (r: nat)
    ensures r <= |text|
    ensures r > 0 ==> text[r - 1] == ' '
    ensures ' ' !in text[r..]
  {
    if text == "" then 0
    else if text[|text| - 1] == ' ' then |text|
    else
      var r := LastWordStart(text[..|text| - 1]);
      assert text[r..] == text[..|text| - 1][r..] + [text[|text| - 1]];
      r
  }

  function LastWord(text: string): string { text[LastWordStart(text)..] }

  function Matching(wordlist: seq<string>, start: string): seq<string> {
    if wordlist == [] then []
    else (if start <= wordlist[0] then [wordlist[0]] else []) + Matching(wordlist[1..], start)
  }

  /** The matches found before a place in the list. */
  predicate Matched(wordlist: seq<string>, start: string, i: nat, matches: seq<string>) {
    i <= |wordlist| && matches + Matching(wordlist[i..], start) == Matching(wordlist, start)
  }

  lemma MatchingStep(wordlist: seq<string>, start: string, i: nat, matches: seq<string>)
    requires Matched(wordlist, start, i, matches) && i < |wordlist|
    ensures Matched(wordlist, start, i + 1, if start <= wordlist[i] then matches + [wordlist[i]] else matches)
  {
    assert wordlist[i..][1..] == wordlist[i + 1..];
  }

  lemma {:induction false} MatchingIsFilter(wordlist: seq<string>, start: string, w: string)
    ensures w in Matching(wordlist, start) <==> w in wordlist && start <= w
  {
    if wordlist != [] {
      MatchingIsFilter(wordlist[1..], start, w);
    }
  }

  // ---- one input

  datatype Typed = Typed(text: string, shown: seq<string>)

  /** A key, or a click on one of the completions shown. */
  datatype Input = Key(keyCode: int) | Click(word: string)

  function Refreshed(wordlist: seq<string>, t: Typed): Typed {
    if t.text == "" then t
    else
      var matches := Matching(wordlist, LastWord(t.text));
      t.(shown := if matches == [] || |LastWord(t.text)| < 2 then [] else matches)
  }

  function KeyStep(wordlist: seq<string>, t: Typed, keyCode: int): Typed {
    if IsAlphabetic(keyCode) then Refreshed(wordlist, t.(text := t.text + [keyCode as char]))
    else if IsWhitespace(keyCode) then
      if t.text != "" && t.text[|t.text| - 1] != ' ' then Typed(t.text + " ", Refreshed(wordlist, t).shown) else t
    else if keyCode == KEY_DELETE && t.text != "" then Refreshed(wordlist, t.(text := t.text[..|t.text| - 1]))
    else t
  }

  function ClickStep(t: Typed, word: string): Typed { Typed(t.text[..LastWordStart(t.text)] + word + " ", []) }

  function Step(wordlist: seq<string>, t: Typed, input: Input): Typed {
    match input
    case Key(keyCode) => KeyStep(wordlist, t, keyCode)
    case Click(word) => if word in t.shown then ClickStep(t, word) else t
  }

  function Run(wordlist: seq<string>, t: Typed, inputs: seq<Input>): Typed
    decreases |inputs|
  {
    if inputs == [] then t else Run(wordlist, Step(wordlist, t, inputs[0]), inputs[1..])
  }

  // ---- the code

  class SeedInput {
    const wordlist: seq<string>
    var spanBuilder: string
    var autocomplete: seq<string>

    constructor (wordlist: seq<string>)
      ensures this.wordlist == wordlist && Value() == Typed("", [])
    {
      this.wordlist := wordlist;
      spanBuilder, autocomplete := "", [];
    }

    function Value(): Typed
      reads this
    {
      Typed(spanBuilder, autocomplete)
    }

    method GetBip39MatchingWords(start: string) returns (matches: seq<string>)
      ensures matches == Matching(wordlist, start)
    {
      matches := [];
      var i := 0;
      assert wordlist[0..] == wordlist;
      while i < |wordlist|
        invariant 0 <= i <= |wordlist|
        invariant Matched(wordlist, start, i, matches)
      {
        MatchingStep(wordlist, start, i, matches);
        if start <= wordlist[i] {
          matches := matches + [wordlist[i]];
        }
        i := i + 1;
      }
      assert Matching(wordlist[i..], start) == [];
    }

    method RefreshLastWord()
      modifies this`autocomplete
      ensures Value() == Refreshed(wordlist, old(Value()))
    {
      if spanBuilder != "" {
        var lastWord := spanBuilder[LastWordStart(spanBuilder)..];
        var matches := GetBip39MatchingWords(lastWord);
        if matches == [] {
          autocomplete := [];
        } else if |lastWord| < 2 {
          autocomplete := [];
        } else {
          autocomplete := matches;
        }
      }
    }

    method OnKeyPressed(keyCode: int)
      modifies this
      ensures Value() == KeyStep(wordlist, old(Value()), keyCode)
    {
      if IsAlphabetic(keyCode) {
        spanBuilder := spanBuilder + [keyCode as char];
        RefreshLastWord();
      } else if IsWhitespace(keyCode) {
        if spanBuilder != "" && spanBuilder[|spanBuilder| - 1] != ' ' {
          RefreshLastWord();
          spanBuilder := spanBuilder + " ";
        }
      } else if keyCode == KEY_DELETE {
        if spanBuilder == "" {
          spanBuilder := "";
        } else {
          spanBuilder := spanBuilder[..|spanBuilder| - 1];
          RefreshLastWord();
        }
      }
    }

    method OnAutocompleteClick(word: string)
      requires word in autocomplete
      modifies this
      ensures Value() == ClickStep(old(Value()), word)
    {
      autocomplete := [];
      spanBuilder := spanBuilder[..LastWordStart(spanBuilder)];
      spanBuilder := spanBuilder + word + " ";
    }
  }

  // ---- what every text keeps

  /** Letters and single spaces, none in front. */
  ghost predicate Tidy(text: string) {
    && (forall i :: 0 <= i < |text| ==> text[i] == ' ' || IsLetter(text[i]))
    && (text != "" ==> text[0] != ' ')
    && (forall i :: 0 < i < |text| && text[i] == ' ' ==> text[i - 1] != ' ')
  }

  ghost predicate AreLetters(w: string) { forall i :: 0 <= i < |w| ==> IsLetter(w[i]) }

  ghost predicate AreWords(wordlist: seq<string>) { forall w :: w in wordlist ==> w != "" && AreLetters(w) }

  /** The completions shown are words that complete the last one typed: true even of those left over from before a
      space, or before the text was emptied. */
  ghost predicate Completes(wordlist: seq<string>, t: Typed) {
    forall w :: w in t.shown ==> w in wordlist && LastWord(t.text) <= w
  }

  ghost predicate Good(wordlist: seq<string>, t: Typed) { Tidy(t.text) && Completes(wordlist, t) }

  lemma RefreshCompletes(wordlist: seq<string>, t: Typed)
    requires t.text != "" || Completes(wordlist, t)
    ensures Completes(wordlist, Refreshed(wordlist, t))
  {
    if t.text != "" {
      forall w | w in Matching(wordlist, LastWord(t.text)) ensures w in wordlist && LastWord(t.text) <= w {
        MatchingIsFilter(wordlist, LastWord(t.text), w);
      }
    }
  }

  lemma TidyAppend(text: string, more: string)
    requires Tidy(text) && more != "" && AreLetters(more)
    ensures Tidy(text + more) && Tidy(text + more + " ")
  {
  }

  lemma LetterKeepsGood(wordlist: seq<string>, t: Typed, letter: char)
    requires Good(wordlist, t) && IsLetter(letter)
    ensures Good(wordlist, Refreshed(wordlist, t.(text := t.text + [letter])))
  {
    TidyAppend(t.text, [letter]);
    RefreshCompletes(wordlist, t.(text := t.text + [letter]));
    hide Tidy, Completes;
  }

  lemma SpaceKeepsGood(wordlist: seq<string>, t: Typed)
    requires Good(wordlist, t) && t.text != "" && t.text[|t.text| - 1] != ' '
    ensures Good(wordlist, Typed(t.text + " ", Refreshed(wordlist, t).shown))
  {
    RefreshCompletes(wordlist, t);
    assert LastWord(t.text + " ") == "";
    hide Refreshed;
  }

  lemma DeleteKeepsGood(wordlist: seq<string>, t: Typed)
    requires Good(wordlist, t) && t.text != ""
    ensures Good(wordlist, Refreshed(wordlist, t.(text := t.text[..|t.text| - 1])))
  {
    var shorter := t.(text := t.text[..|t.text| - 1]);
    if shorter.text == "" {
      assert LastWord(shorter.text) == "";
    }
    RefreshCompletes(wordlist, shorter);
    hide Refreshed;
  }

  lemma KeyKeepsGood(wordlist: seq<string>, t: Typed, keyCode: int)
    requires Good(wordlist, t)
    ensures Good(wordlist, KeyStep(wordlist, t, keyCode))
  {
    hide Good, Refreshed;
    if IsAlphabetic(keyCode) {
      LetterKeepsGood(wordlist, t, keyCode as char);
    } else if IsWhitespace(keyCode) {
      if t.text != "" && t.text[|t.text| - 1] != ' ' {
        SpaceKeepsGood(wordlist, t);
      }
    } else if keyCode == KEY_DELETE && t.text != "" {
      DeleteKeepsGood(wordlist, t);
    }
  }

  lemma ClickKeepsGood(wordlist: seq<string>, t: Typed, word: string)
    requires Good(wordlist, t) && AreWords(wordlist) && word in t.shown
    ensures Good(wordlist, ClickStep(t, word))
  {
    TidyAppend(t.text[..LastWordStart(t.text)], word);
  }

  lemma {:induction false} RunKeepsGood(wordlist: seq<string>, t: Typed, inputs: seq<Input>)
    requires Good(wordlist, t) && AreWords(wordlist)
    ensures Good(wordlist, Run(wordlist, t, inputs))
    decreases |inputs|
  {
    if inputs != [] {
      match inputs[0] {
        case Key(keyCode) => KeyKeepsGood(wordlist, t, keyCode);
        case Click(word) => if word in t.shown { ClickKeepsGood(wordlist, t, word); }
      }
      RunKeepsGood(wordlist, Step(wordlist, t, inputs[0]), inputs[1..]);
    }
  }

  /** Delete takes back the last character, whatever it was, and does nothing to an empty text: so it undoes a letter.
      */
  lemma DeleteTakesBack(wordlist: seq<string>, t: Typed, letter: char)
    ensures t.text != "" ==> Step(wordlist, t, Key(-1)).text + [t.text[|t.text| - 1]] == t.text
    ensures t.text == "" ==> Step(wordlist, t, Key(-1)) == t
    ensures IsLetter(letter) ==> Step(wordlist, Step(wordlist, t, LetterKey(letter)), Key(-1)).text == t.text
  {
    if IsLetter(letter) {
      LetterStep(wordlist, t, letter);
    }
    hide Refreshed, IsLetter, LetterKey;
  }

  /** A space is added after a letter, and ignored where it would lead or double. */
  lemma SpaceIsAddedOnce(wordlist: seq<string>, t: Typed)
    ensures Step(wordlist, t, Key(32)).text
         == if t.text == "" || t.text[|t.text| - 1] == ' ' then t.text else t.text + " "
  {
    hide Refreshed;
  }

  /** The completions of a text: the words that continue its last one, from the second letter on. */
  predicate IsShownFor(wordlist: seq<string>, text: string, w: string) {
    |LastWord(text)| >= 2 && w in wordlist && LastWord(text) <= w
  }

  /** After a letter, a space or a delete they are those of the text before the space, or after the other keys; an
      emptied text, or an ignored space, leaves them as they were. */
  lemma CompletionsShown(wordlist: seq<string>, t: Typed, letter: char, w: string)
    ensures IsLetter(letter) ==>
              (w in Step(wordlist, t, LetterKey(letter)).shown <==> IsShownFor(wordlist, t.text + [letter], w))
    ensures t.text != "" && t.text[|t.text| - 1] != ' ' ==>
              (w in Step(wordlist, t, Key(32)).shown <==> IsShownFor(wordlist, t.text, w))
    ensures t.text == "" || t.text[|t.text| - 1] == ' ' ==> Step(wordlist, t, Key(32)) == t
    ensures |t.text| > 1 ==>
              (w in Step(wordlist, t, Key(-1)).shown <==> IsShownFor(wordlist, t.text[..|t.text| - 1], w))
    ensures |t.text| == 1 ==> Step(wordlist, t, Key(-1)).shown == t.shown
  {
    if IsLetter(letter) {
      LetterRefreshes(wordlist, t, letter);
      RefreshShows(wordlist, t.(text := t.text + [letter]), w);
    }
    OtherKeysRefresh(wordlist, t);
    hide LastWord, LetterKey, IsShownFor, Refreshed, IsLetter, Step;
    if t.text != "" {
      RefreshShows(wordlist, t, w);
    }
    if |t.text| > 1 {
      RefreshShows(wordlist, t.(text := t.text[..|t.text| - 1]), w);
    }
  }

  lemma OtherKeysRefresh(wordlist: seq<string>, t: Typed)
    ensures t.text != "" && t.text[|t.text| - 1] != ' ' ==>
              Step(wordlist, t, Key(32)).shown == Refreshed(wordlist, t).shown
    ensures t.text == "" || t.text[|t.text| - 1] == ' ' ==> Step(wordlist, t, Key(32)) == t
    ensures |t.text| > 1 ==> Step(wordlist, t, Key(-1)) == Refreshed(wordlist, t.(text := t.text[..|t.text| - 1]))
    ensures |t.text| == 1 ==> Step(wordlist, t, Key(-1)).shown == t.shown
  {
    hide LastWord, Matching;
  }

  lemma LetterRefreshes(wordlist: seq<string>, t: Typed, letter: char)
    requires IsLetter(letter)
    ensures Step(wordlist, t, LetterKey(letter)) == Refreshed(wordlist, t.(text := t.text + [letter]))
  {
    hide Refreshed;
  }

  lemma RefreshShows(wordlist: seq<string>, t: Typed, w: string)
    requires t.text != ""
    ensures w in Refreshed(wordlist, t).shown <==> IsShownFor(wordlist, t.text, w)
  {
    MatchingIsFilter(wordlist, LastWord(t.text), w);
    hide LastWord, Matching;
  }

  // ---- a completion is a shortcut

  function LetterKey(letter: char): Input { Key(letter as int) }

  function Keys(w: string): seq<Input> { if w == "" then [] else [LetterKey(w[0])] + Keys(w[1..]) }

  lemma {:induction false} TypingAppends(wordlist: seq<string>, t: Typed, w: string)
    requires AreLetters(w)
    ensures Run(wordlist, t, Keys(w)).text == t.text + w
    decreases |w|
  {
    if w != "" {
      hide AreLetters, Step, Run, LetterKey;
      FirstLetter(w);
      LetterStep(wordlist, t, w[0]);
      RunInParts(wordlist, t, [LetterKey(w[0])], Keys(w[1..]));
      TypingAppends(wordlist, Step(wordlist, t, LetterKey(w[0])), w[1..]);
      MoveFirst(t.text, w);
    }
  }

  lemma FirstLetter(w: string)
    requires AreLetters(w) && w != ""
    ensures IsLetter(w[0]) && AreLetters(w[1..])
  {
  }

  lemma LetterStep(wordlist: seq<string>, t: Typed, letter: char)
    requires IsLetter(letter)
    ensures Step(wordlist, t, LetterKey(letter)).text == t.text + [letter]
    ensures Run(wordlist, t, [LetterKey(letter)]) == Step(wordlist, t, LetterKey(letter))
  {
    assert [LetterKey(letter)][1..] == [];
  }

  lemma SpaceStep(wordlist: seq<string>, t: Typed)
    requires t.text != "" && t.text[|t.text| - 1] != ' '
    ensures Run(wordlist, t, [Key(KEY_SPACE)]).text == t.text + " "
  {
    assert Run(wordlist, t, [Key(KEY_SPACE)]) == Step(wordlist, t, Key(KEY_SPACE));
  }

  lemma RestOfWord(text: string, word: string)
    requires LastWord(text) <= word
    ensures text + word[|LastWord(text)|..] == text[..LastWordStart(text)] + word
  {
    assert text == text[..LastWordStart(text)] + LastWord(text);
    assert word == LastWord(text) + word[|LastWord(text)|..];
  }

  lemma {:induction false} RunInParts(wordlist: seq<string>, t: Typed, first: seq<Input>, rest: seq<Input>)
    ensures Run(wordlist, t, first + rest) == Run(wordlist, Run(wordlist, t, first), rest)
    decreases |first|
  {
    if first == [] {
      assert first + rest == rest;
    } else {
      assert (first + rest)[1..] == first[1..] + rest;
      RunInParts(wordlist, Step(wordlist, t, first[0]), first[1..], rest);
    }
  }

  /** Clicking on a completion gives the text that typing the rest of the word and a space would give, whenever it is
      shown. */
  lemma ClickIsShortcut(wordlist: seq<string>, t: Typed, word: string)
    requires Good(wordlist, t) && AreWords(wordlist) && word in t.shown
    ensures LastWord(t.text) <= word && Step(wordlist, t, Click(word)).shown == []
    ensures Step(wordlist, t, Click(word)).text
         == Run(wordlist, t, Keys(word[|LastWord(t.text)|..]) + [Key(KEY_SPACE)]).text
  {
    var rest := word[|LastWord(t.text)|..];
    ShownIsWord(wordlist, t, word);
    hide Good, AreWords, Run, Step, LastWordStart, IsLetter;
    RestOfWord(t.text, word);
    TypingAppends(wordlist, t, rest);
    RunInParts(wordlist, t, Keys(rest), [Key(KEY_SPACE)]);
    SpaceStep(wordlist, Run(wordlist, t, Keys(rest)));
  }

  lemma ShownIsWord(wordlist: seq<string>, t: Typed, word: string)
    requires Good(wordlist, t) && AreWords(wordlist) && word in t.shown
    ensures LastWord(t.text) <= word && word != "" && AreLetters(word) && AreLetters(word[|LastWord(t.text)|..])
    ensures !IsLetter(' ')
    ensures Step(wordlist, t, Click(word)) == Typed(t.text[..LastWordStart(t.text)] + word + " ", [])
  {
  }

  // ---- from the text to the words

  function TrimLeft(s: string): string { if s != "" && s[0] <= ' ' then TrimLeft(s[1..]) else s }

  function TrimRight(s: string): string { if s != "" && s[|s| - 1] <= ' ' then TrimRight(s[..|s| - 1]) else s }

  function Trim(s: string): string { TrimRight(TrimLeft(s)) }

  function LowerCase(s: string): (r: string)
    ensures |r| == |s|
    ensures forall i :: 0 <= i < |s| && !('A' <= s[i] <= 'Z') ==> r[i] == s[i]
    ensures forall i :: 0 <= i < |s| && 'A' <= s[i] <= 'Z' ==> r[i] as int - 'a' as int == s[i] as int - 'A' as int
  {
    seq(|s|, i requires 0 <= i < |s| => if 'A' <= s[i] <= 'Z' then ((s[i] as int) + 32) as char else s[i])
  }

  /** Java's split drops the empty parts at the end, unless nothing was split. */
  function JavaSplit(s: string): seq<string> { if ' ' !in s then [s] else DropEmpty(M.Split(s)) }

  function DropEmpty(parts: seq<string>): seq<string> {
    if parts != [] && parts[|parts| - 1] == "" then DropEmpty(parts[..|parts| - 1]) else parts
  }

  function WordsOf(text: string): seq<string> { JavaSplit(LowerCase(Trim(text))) }

  /** Single spaces, none at either end. */
  ghost predicate Gapless(s: string) {
    s != "" ==> s[0] != ' ' && s[|s| - 1] != ' ' && forall i :: 0 < i < |s| && s[i] == ' ' ==> s[i - 1] != ' '
  }

  lemma TidyTrims(text: string)
    requires Tidy(text)
    ensures Trim(text) == (if text != "" && text[|text| - 1] == ' ' then text[..|text| - 1] else text)
    ensures Gapless(Trim(text)) && Tidy(Trim(text))
  {
    assert TrimLeft(text) == text;
    if text != "" && text[|text| - 1] == ' ' {
      var front := text[..|text| - 1];
      assert TrimRight(front) == front;
    }
  }

  lemma LowerKeepsGapless(s: string)
    requires Gapless(s) && Tidy(s)
    ensures Gapless(LowerCase(s))
    ensures forall i :: 0 <= i < |s| ==> LowerCase(s)[i] == ' ' || 'a' <= LowerCase(s)[i] <= 'z'
  {
  }

  /** A part is empty only where a text begins with a space, ends with one or has two in a row. */
  lemma {:induction false} PartsOfGapless(s: string)
    requires s != "" && s[|s| - 1] != ' ' && forall i :: 0 < i < |s| && s[i] == ' ' ==> s[i - 1] != ' '
    ensures forall i :: 0 < i < |M.Split(s)| ==> M.Split(s)[i] != ""
    ensures M.Split(s)[0] == "" <==> s[0] == ' '
  {
    if |s| > 1 {
      var rest := s[1..];
      assert rest[|rest| - 1] == s[|s| - 1];
      forall i | 0 < i < |rest| && rest[i] == ' ' ensures rest[i - 1] != ' ' {
        assert s[i + 1] == ' ';
      }
      PartsOfGapless(rest);
    } else {
      assert s == [s[0]] && s[1..] == "";
    }
  }

  /** What is typed, trimmed and put in lower case falls into non-empty words that make up the text again. */
  lemma WordsOfTyped(text: string)
    requires Tidy(text)
    ensures var words := WordsOf(text);
            && words != []
            && M.Join(words) == LowerCase(Trim(text))
            && (forall i :: 0 <= i < |words| ==> M.IsWord(words[i]))
            && (Trim(text) != "" ==> forall i :: 0 <= i < |words| ==> words[i] != "")
  {
    TidyTrims(text);
    LowerKeepsGapless(Trim(text));
    var s := LowerCase(Trim(text));
    M.JoinSplit(s);
    M.PartsAreWords(s);
    if s != "" {
      PartsOfGapless(s);
      if ' ' !in s {
        M.SplitOne(s);
      }
    }
  }

  /** Whatever was typed and clicked: the words reach the seed file and come back from it. */
  lemma TypedWordsAreStored(wordlist: seq<string>, inputs: seq<Input>, c: M.Codec, passphrase: string)
    requires AreWords(wordlist) && M.CodecLawful(c)
    ensures var text := Run(wordlist, Typed("", []), inputs).text;
            var blob := M.EncodeMnemonics(c, 2, WordsOf(text), Some(passphrase));
            && blob.Ok?
            && M.DecodeV2MnemonicsBlob(c, blob.value) == Ok((WordsOf(text), passphrase))
            && M.Join(WordsOf(text)) == LowerCase(Trim(text))
            && (Trim(text) != "" ==> forall i :: 0 <= i < |WordsOf(text)| ==> WordsOf(text)[i] != "")
  {
    var t := Run(wordlist, Typed("", []), inputs);
    RunKeepsGood(wordlist, Typed("", []), inputs);
    WordsOfTyped(t.text);
    M.DecodeEncode(c, WordsOf(t.text), Some(passphrase));
  }
}
