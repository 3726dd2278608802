/**
 * `{key}` placeholder substitution, shared by the notification and the
 * social message pickers: each replacement, in order, rewrites only the
 * first occurrence of its placeholder (`String.prototype.replace` with a
 * string pattern).
 */
module Placeholders {
  import opened Wrappers
  import opened Text

  function Placeholder(key: string): (p: string)
    ensures |p| == |key| + 2 && p[0] == '{'
  {
    "{" + key + "}"
  }

  /** The message once every replacement has been applied, first to last. */
  function Fill(message: string, replacements: seq<(string, string)>): string
    decreases |replacements|
  {
    if replacements == [] then message
    else Fill(ReplaceFirst(message, Placeholder(replacements[0].0), replacements[0].1), replacements[1..])
  }

  /** The `forEach` loop over `Object.entries(replacements)` that reassigns `message`. */
  method FillPlaceholders(message: string, replacements: seq<(string, string)>) returns (r: string)
    ensures r == Fill(message, replacements)
  {
    r := message;
    var i := 0;
    while i < |replacements|
      invariant 0 <= i <= |replacements|
      invariant Fill(r, replacements[i..]) == Fill(message, replacements)
    {
      assert replacements[i..][1..] == replacements[i + 1..];
      r := ReplaceFirst(r, Placeholder(replacements[i].0), replacements[i].1);
      i := i + 1;
    }
    assert replacements[i..] == [];
  }

  /** Placeholders that no replacement names, and replacements whose placeholder is absent, leave the message alone. */
  lemma {:induction false} FillWithoutPlaceholders(message: string, replacements: seq<(string, string)>)
    requires forall k :: 0 <= k < |replacements| ==> !Contains(message, Placeholder(replacements[k].0))
    ensures Fill(message, replacements) == message
    decreases |replacements|
  {
    if replacements != [] {
      assert !Contains(message, Placeholder(replacements[0].0));
      FillWithoutPlaceholders(message, replacements[1..]);
    }
  }

  /**
   * One replacement rewrites the first `{key}` and nothing else: the text
   * before it (which holds no `{`) and everything after it, including any
   * later `{key}`, is kept verbatim.
   */
  lemma FillFirstOnly(pre: string, key: string, post: string, value: string)
    requires '{' !in pre && '$' !in value
    ensures Fill(pre + Placeholder(key) + post, [(key, value)]) == pre + value + post
  {
    var pat := Placeholder(key);
    NoOccurrenceWithoutHead(pre, pat, post);
    ReplaceFirstAt(pre, pat, post, value);
    assert [(key, value)][1..] == [];
  }
}
