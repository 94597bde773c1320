/**
 * Layouts and the layout preference (src/utils/versionUtils.ts, lines 5-18).
 *
 * The two environment variables the source reads at load time become the
 * fields of a `Config` value, so every operation takes its configuration as
 * a parameter instead of reading process state.
 */
module Layouts {
  import opened Wrappers

  /** The URL shape a dataset host uses: `hf` inserts `/resolve/main`, `flat` does not. */
  datatype Layout = Hf | Flat

  /** The configured preference: one fixed layout, or negotiation (`auto`). */
  datatype Preference = Fixed(layout: Layout) | Auto

  /** The raw environment: `DATASET_URL` and `DATASET_URL_LAYOUT`, `None` when unset. */
  datatype Config = Config(datasetUrl: Option<string>, datasetUrlLayout: Option<string>)

  const DefaultDatasetUrl: string := "https://huggingface.co/datasets"
  const DefaultLayoutSetting: string := "auto"

  /** JavaScript's `value || fallback` on an optional string: unset and empty both fall back. */
  function OrElse(value: Option<string>, fallback: string): string
  {
    if value.Some? && value.value != "" then value.value else fallback
  }

  /** The base host every URL starts with. */
  function BaseHost(cfg: Config): (base: string)
    ensures cfg.datasetUrl.Some? && cfg.datasetUrl.value != "" ==> base == cfg.datasetUrl.value
    ensures !(cfg.datasetUrl.Some? && cfg.datasetUrl.value != "") ==> base == DefaultDatasetUrl
    ensures base != ""
  {
    OrElse(cfg.datasetUrl, DefaultDatasetUrl)
  }

  function LowerChar(c: char): char
  {
    if 'A' <= c <= 'Z' then (c as int + 32) as char else c
  }

  function UpperChar(c: char): char
  {
    if 'a' <= c <= 'z' then (c as int - 32) as char else c
  }

  /** Case folding of the letters A-Z; every other character is kept. */
  function LowerAscii(s: string): (r: string)
    ensures |r| == |s|
    ensures forall i :: 0 <= i < |s| ==> r[i] == LowerChar(s[i])
  {
    if |s| == 0 then [] else [LowerChar(s[0])] + LowerAscii(s[1..])
  }

  /** The normalised preference setting: the variable, or "auto", lower-cased. */
  function Setting(cfg: Config): string
  {
    LowerAscii(OrElse(cfg.datasetUrlLayout, DefaultLayoutSetting))
  }

  /** `getLayoutPreference`: "flat" and "hf" are fixed preferences, anything else is auto. */
  function GetLayoutPreference(cfg: Config): (p: Preference)
    ensures p == Fixed(Flat) <==> Setting(cfg) == "flat"
    ensures p == Fixed(Hf) <==> Setting(cfg) == "hf"
    ensures p == Auto <==> Setting(cfg) != "flat" && Setting(cfg) != "hf"
  {
    var s := Setting(cfg);
    if s == "flat" then Fixed(Flat)
    else if s == "hf" then Fixed(Hf)
    else Auto
  }

  /** `s` spells the lower-case word `word`, each letter in either case. */
  predicate SpellsIgnoringCase(s: string, word: string)
  {
    |s| == |word| && forall i :: 0 <= i < |s| ==> s[i] == word[i] || s[i] == UpperChar(word[i])
  }

  predicate IsLowerWord(word: string)
  {
    forall i :: 0 <= i < |word| ==> 'a' <= word[i] <= 'z'
  }

  /** Lower-casing yields a lower-case word exactly when the input spells it in any mix of cases. */
  lemma LowerAsciiSpells(s: string, word: string)
    requires IsLowerWord(word)
    ensures LowerAscii(s) == word <==> SpellsIgnoringCase(s, word)
  {
  }

  /**
   * The preference is a fixed layout exactly when the variable is set and
   * spells that layout's name in any mix of cases; unset, empty and every
   * other value mean auto.
   */
  lemma PreferenceIgnoresCase(cfg: Config)
    ensures GetLayoutPreference(cfg) == Fixed(Flat)
        <==> cfg.datasetUrlLayout.Some? && SpellsIgnoringCase(cfg.datasetUrlLayout.value, "flat")
    ensures GetLayoutPreference(cfg) == Fixed(Hf)
        <==> cfg.datasetUrlLayout.Some? && SpellsIgnoringCase(cfg.datasetUrlLayout.value, "hf")
  {
  }

  /** An unset or empty variable selects negotiation. */
  lemma UnsetPreferenceIsAuto(cfg: Config)
    requires cfg.datasetUrlLayout.None? || cfg.datasetUrlLayout.value == ""
    ensures GetLayoutPreference(cfg) == Auto
  {
  }
}
