/**
 * `KConMapperConfiguration`: the processor options read from the KSP option map. The only
 * option is whether mapping-mismatch warnings are suppressed.
 */
module Configuration {

  const OPTION_SUPPRESS_MAPPING_MISMATCH_WARNINGS: string := "kconmapper.suppressMappingMismatchWarnings"

  datatype KConMapperConfiguration = KConMapperConfiguration(suppressMappingMismatchWarnings: bool)

  /** The lower-case form of a letter of the Latin alphabet; every other character is kept. */
  function LowerAscii(c: char): (lower: char)
    ensures 'A' <= c <= 'Z' ==> 'a' <= lower <= 'z' && lower as int - c as int == 32
    ensures !('A' <= c <= 'Z') ==> lower == c
  {
    if 'A' <= c <= 'Z' then (c as int + 32) as char else c
  }

  /** `equals(other, ignoreCase = true)` for words of letters of the Latin alphabet. */
  predicate EqualsIgnoreCase(s: string, word: string)
  {
    |s| == |word| && forall i :: 0 <= i < |s| ==> LowerAscii(s[i]) == LowerAscii(word[i])
  }

  /** Kotlin's `String.toBoolean()`: true exactly for "true" in any letter case. */
  function ToBoolean(s: string): bool
  {
    EqualsIgnoreCase(s, "true")
  }

  /** The secondary constructor: the option's value through `toBoolean()`, or false when the
      option is absent. */
  function FromOptions(options: map<string, string>): KConMapperConfiguration
  {
    KConMapperConfiguration(
      if OPTION_SUPPRESS_MAPPING_MISMATCH_WARNINGS in options
      then ToBoolean(options[OPTION_SUPPRESS_MAPPING_MISMATCH_WARNINGS])
      else false)
  }

  /** The four characters of every spelling of "true". */
  predicate IsTrueSpelling(s: string)
  {
    && |s| == 4
    && (s[0] == 't' || s[0] == 'T')
    && (s[1] == 'r' || s[1] == 'R')
    && (s[2] == 'u' || s[2] == 'U')
    && (s[3] == 'e' || s[3] == 'E')
  }

  /** `toBoolean()` holds of exactly the sixteen spellings of "true" that differ only in letter
      case; any other value, "false", "1", "yes" or "" among them, reads as false. */
  lemma ToBooleanIffTrueSpelling(s: string)
    ensures ToBoolean(s) <==> IsTrueSpelling(s)
  {
    if IsTrueSpelling(s) {
      forall i | 0 <= i < |s|
        ensures LowerAscii(s[i]) == LowerAscii("true"[i])
      {
      }
    } else if ToBoolean(s) {
      assert false;
    }
  }

  /** Without the option, mismatch warnings are not suppressed. */
  lemma AbsentOptionDisables(options: map<string, string>)
    requires OPTION_SUPPRESS_MAPPING_MISMATCH_WARNINGS !in options
    ensures !FromOptions(options).suppressMappingMismatchWarnings
  {
  }

  /** With the option present, the flag is set exactly when its value spells "true". */
  lemma PresentOptionIsParsed(options: map<string, string>)
    requires OPTION_SUPPRESS_MAPPING_MISMATCH_WARNINGS in options
    ensures FromOptions(options).suppressMappingMismatchWarnings
            <==> IsTrueSpelling(options[OPTION_SUPPRESS_MAPPING_MISMATCH_WARNINGS])
  {
    ToBooleanIffTrueSpelling(options[OPTION_SUPPRESS_MAPPING_MISMATCH_WARNINGS]);
  }

  /** No other option affects the configuration: two maps that agree on the one key give the
      same configuration. */
  lemma OnlyTheKeyMatters(options: map<string, string>, others: map<string, string>)
    requires OPTION_SUPPRESS_MAPPING_MISMATCH_WARNINGS in options <==> OPTION_SUPPRESS_MAPPING_MISMATCH_WARNINGS in others
    requires OPTION_SUPPRESS_MAPPING_MISMATCH_WARNINGS in options
             ==> options[OPTION_SUPPRESS_MAPPING_MISMATCH_WARNINGS] == others[OPTION_SUPPRESS_MAPPING_MISMATCH_WARNINGS]
    ensures FromOptions(options) == FromOptions(others)
  {
  }

  /** A few option maps: both spellings of "true" enable, other values and other keys do not. */
  lemma SampleValues()
    ensures FromOptions(map[OPTION_SUPPRESS_MAPPING_MISMATCH_WARNINGS := "true"]).suppressMappingMismatchWarnings
    ensures FromOptions(map[OPTION_SUPPRESS_MAPPING_MISMATCH_WARNINGS := "TRUE"]).suppressMappingMismatchWarnings
    ensures !FromOptions(map[OPTION_SUPPRESS_MAPPING_MISMATCH_WARNINGS := "false"]).suppressMappingMismatchWarnings
    ensures !FromOptions(map[OPTION_SUPPRESS_MAPPING_MISMATCH_WARNINGS := "yes"]).suppressMappingMismatchWarnings
    ensures !FromOptions(map["suppressMappingMismatchWarnings" := "true"]).suppressMappingMismatchWarnings
  {
    ToBooleanIffTrueSpelling("true");
    ToBooleanIffTrueSpelling("TRUE");
    ToBooleanIffTrueSpelling("false");
    ToBooleanIffTrueSpelling("yes");
  }
}
