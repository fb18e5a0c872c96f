/**
 * The help formatter every onenv command uses
 * (scripts/utils/arg_help_formatter.py): an argument's help text gets its
 * default value appended, unless the text shows the default already or
 * there is no default worth showing.
 */
module HelpFormatter {
  import opened Util

  /** `argparse.SUPPRESS`. */
  const SUPPRESS: string := "==SUPPRESS=="

  /** The placeholder argparse expands to the default. */
  const DEFAULT_PLACEHOLDER: string := "%(default)"

  const DEFAULT_SUFFIX: string := " (default: %(default)s)"

  /** An action's default: None, a string (possibly `argparse.SUPPRESS`), or any other value. */
  datatype Default = NoDefault | StrDefault(s: string) | OtherDefault

  /** An action's `nargs`: None, a count, or a pattern such as `?`, `*` or `+`. */
  datatype Nargs = NargsNone | NargsCount(n: int) | NargsPattern(p: string)

  /** The parts of an `argparse.Action` the formatter looks at. */
  datatype Action = Action(
    help: string,
    default: Default,
    storeTrue: bool,              // an instance of `_StoreTrueAction`
    optionStrings: seq<string>,
    nargs: Nargs)

  /** The default is shown at all: it is neither `SUPPRESS` nor None, and the action is no flag. */
  predicate HasShownDefault(a: Action)
  {
    a.default != NoDefault && a.default != StrDefault(SUPPRESS) && !a.storeTrue
  }

  /** An optional argument, or a positional one that may be left out. */
  predicate Defaulting(a: Action)
  {
    a.optionStrings != [] || a.nargs == NargsPattern("?") || a.nargs == NargsPattern("*")
  }

  /** `ArgumentsHelpFormatter._get_help_string(action)`. */
  function HelpString(a: Action): (r: string)
    ensures r == a.help || r == a.help + DEFAULT_SUFFIX
  {
    if !Contains(a.help, DEFAULT_PLACEHOLDER) && HasShownDefault(a) && Defaulting(a)
    then a.help + DEFAULT_SUFFIX
    else a.help
  }

  /**
   * The suffix is appended exactly when the help does not mention the
   * default yet, there is a default to show, and the argument is optional
   * or may be left out; otherwise the help is returned as it is.
   */
  lemma HelpStringSpec(a: Action)
    ensures HelpString(a) == a.help + DEFAULT_SUFFIX <==>
              !Contains(a.help, DEFAULT_PLACEHOLDER) && HasShownDefault(a) && Defaulting(a)
    ensures HelpString(a) == a.help <==>
              !(!Contains(a.help, DEFAULT_PLACEHOLDER) && HasShownDefault(a) && Defaulting(a))
  {
    assert |a.help + DEFAULT_SUFFIX| > |a.help|;
  }

  /** The appended text mentions the default. */
  lemma SuffixShowsDefault(help: string)
    ensures Contains(help + DEFAULT_SUFFIX, DEFAULT_PLACEHOLDER)
  {
    assert DEFAULT_SUFFIX[11..21] == DEFAULT_PLACEHOLDER;
    ContainsAt(DEFAULT_SUFFIX, DEFAULT_PLACEHOLDER, 11);
    ContainsAppend(help, DEFAULT_SUFFIX, DEFAULT_PLACEHOLDER);
  }

  /** At most one suffix is ever appended: formatting a formatted help again changes nothing. */
  lemma HelpStringIdempotent(a: Action)
    ensures HelpString(a.(help := HelpString(a))) == HelpString(a)
  {
    if HelpString(a) != a.help {
      SuffixShowsDefault(a.help);
    }
  }
}
