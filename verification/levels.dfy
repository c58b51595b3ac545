/** The level short-code table and its lookup (`kLogLevelLong2ShortMap`
    and `getLogLevelString` in src/logger_base.ts). */
module Levels {

  /** The levels the facade writes at. The source's level enumeration
      lists only debug, info and error, but the facade also writes at
      winston's `warn` level and the table has an entry for it. */
  datatype Level = Debug | Info | Warn | Error
  {
    /** The level name winston hands to the line formatter. */
    function Name(): string
    {
      match this
      case Debug => "debug"
      case Info => "info"
      case Warn => "warn"
      case Error => "error"
    }

    /** The three-letter code the level is printed with. */
    function Code(): string
    {
      match this
      case Debug => "DBG"
      case Info => "INF"
      case Warn => "WRN"
      case Error => "ERR"
    }
  }

  /** Upper case of an ASCII letter; every other character is kept. */
  function UpperChar(c: char): char
  {
    if 'a' <= c <= 'z' then (c as int - 32) as char else c
  }

  /** Upper-cases every ASCII letter of `s`. */
  function ToUpper(s: string): (r: string)
    ensures |r| == |s|
    ensures forall i :: 0 <= i < |s| ==> r[i] == UpperChar(s[i])
  {
    if s == [] then [] else [UpperChar(s[0])] + ToUpper(s[1..])
  }

  /** Long level name (upper case) to three-letter code. */
  const LongToShort: map<string, string> :=
    map["INFO" := "INF", "DEBUG" := "DBG", "WARN" := "WRN", "ERROR" := "ERR"]

  /** The code used for a level name the table does not know. */
  const DefaultCode: string := "DBG"

  /** Every code the lookup can produce. */
  const Codes: set<string> := {"INF", "DBG", "WRN", "ERR"}

  /** The short code printed for a level name: the name is upper-cased
      and looked up; an unknown name falls back to `DBG`, so the lookup
      never fails. */
  function LevelString(levelName: string): (r: string)
    ensures r in Codes && |r| == 3
    ensures r == "INF" <==> ToUpper(levelName) == "INFO"
    ensures r == "WRN" <==> ToUpper(levelName) == "WARN"
    ensures r == "ERR" <==> ToUpper(levelName) == "ERROR"
    ensures r == "DBG" <==> ToUpper(levelName) !in {"INFO", "WARN", "ERROR"}
  {
    var upper := ToUpper(levelName);
    if upper !in LongToShort then DefaultCode else LongToShort[upper]
  }

  /** The code each of the facade's own levels is printed with. */
  lemma LevelStringOfLevel(l: Level)
    ensures LevelString(l.Name()) == l.Code()
  {
    var n := l.Name();
    assert ToUpper(n) == [UpperChar(n[0])] + ToUpper(n[1..]);
    match l
    case Debug =>
      assert ToUpper(n) == "DEBUG";
    case Info =>
      assert ToUpper(n) == "INFO";
    case Warn =>
      assert ToUpper(n) == "WARN";
    case Error =>
      assert ToUpper(n) == "ERROR";
  }

  /** True when `s` spells the upper-case word `word` with each letter in
      either case: an independent, character-wise reading of ASCII
      case-insensitive equality. */
  predicate SameLettersIgnoringCase(s: string, word: string)
  {
    && |s| == |word|
    && forall i :: 0 <= i < |s| ==>
         s[i] == word[i] || ('A' <= word[i] <= 'Z' && s[i] == (word[i] as int + 32) as char)
  }

  /** True when `word` has no lower-case ASCII letter. */
  predicate NoLowerCase(word: string)
  {
    forall i :: 0 <= i < |word| ==> !('a' <= word[i] <= 'z')
  }

  /** Upper-casing `s` gives the upper-case word `word` exactly when `s`
      is `word` up to the case of its letters. */
  lemma ToUpperMatches(s: string, word: string)
    requires NoLowerCase(word)
    ensures ToUpper(s) == word <==> SameLettersIgnoringCase(s, word)
  {
    if SameLettersIgnoringCase(s, word) {
      assert forall i :: 0 <= i < |s| ==> ToUpper(s)[i] == word[i];
    }
    if ToUpper(s) == word {
      assert forall i :: 0 <= i < |s| ==> UpperChar(s[i]) == word[i];
    }
  }

  /** The lookup is case-insensitive: any spelling of `info`, `warn` or
      `error` in mixed case gets that level's code, and `DBG` is what
      every other name gets. */
  lemma LevelStringIgnoresCase(levelName: string)
    ensures LevelString(levelName) == "INF" <==> SameLettersIgnoringCase(levelName, "INFO")
    ensures LevelString(levelName) == "WRN" <==> SameLettersIgnoringCase(levelName, "WARN")
    ensures LevelString(levelName) == "ERR" <==> SameLettersIgnoringCase(levelName, "ERROR")
    ensures LevelString(levelName) == "DBG" <==>
              && !SameLettersIgnoringCase(levelName, "INFO")
              && !SameLettersIgnoringCase(levelName, "WARN")
              && !SameLettersIgnoringCase(levelName, "ERROR")
  {
    ToUpperMatches(levelName, "INFO");
    ToUpperMatches(levelName, "WARN");
    ToUpperMatches(levelName, "ERROR");
  }

  /** Upper-casing a name first does not change its code. */
  lemma LevelStringOfUpper(levelName: string)
    ensures LevelString(ToUpper(levelName)) == LevelString(levelName)
  {
    assert ToUpper(ToUpper(levelName)) == ToUpper(levelName);
  }
}
