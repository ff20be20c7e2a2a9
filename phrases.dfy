/**
 * Phrase look-ups over lower-cased text: "does any of these phrases occur", the tags of every
 * rule whose phrases occur (in rule order), and the first table entry whose key occurs.
 */
module Phrases {
  import opened Wrappers
  import opened Text

  /** `any(p in text for p in phrases)` */
  predicate AnyIn(text: string, phrases: seq<string>)
  {
    exists k | 0 <= k < |phrases| :: Contains(text, phrases[k])
  }

  /** A tag added when any of its phrases occurs. */
  datatype Rule = Rule(tag: string, phrases: seq<string>)

  /** The tags of `rules` name each rule once. */
  predicate DistinctTags(rules: seq<Rule>)
  {
    forall i, j :: 0 <= i < j < |rules| ==> rules[i].tag != rules[j].tag
  }

  /** The position of the first rule tagged `t`, or `|rules|` when there is none. */
  function TagIndex(rules: seq<Rule>, t: string): (i: nat)
    ensures i <= |rules|
    ensures i < |rules| ==> rules[i].tag == t
    ensures forall j :: 0 <= j < i ==> rules[j].tag != t
  {
    if |rules| == 0 then 0
    else if rules[0].tag == t then 0
    else 1 + TagIndex(rules[1..], t)
  }

  /** The tags of the rules from position `i` on whose phrases occur in `text`, in rule order. */
  function TagsFrom(text: string, rules: seq<Rule>, i: nat): (tags: seq<string>)
    requires i <= |rules|
    requires DistinctTags(rules)
    ensures forall j :: i <= j < |rules| ==> (rules[j].tag in tags <==> AnyIn(text, rules[j].phrases))
    ensures forall t :: t in tags ==> i <= TagIndex(rules, t) < |rules|
    ensures forall a, b :: 0 <= a < b < |tags| ==> TagIndex(rules, tags[a]) < TagIndex(rules, tags[b])
    decreases |rules| - i
  {
    if i == |rules| then []
    else
      var rest := TagsFrom(text, rules, i + 1);
      assert TagIndex(rules, rules[i].tag) == i;
      if AnyIn(text, rules[i].phrases) then [rules[i].tag] + rest else rest
  }

  /**
   * The `if any_kw([...]): tags.append(tag)` chain: the tag of every rule with a phrase in
   * `text`, each once and in rule order.
   */
  function Tags(text: string, rules: seq<Rule>): (tags: seq<string>)
    requires DistinctTags(rules)
    ensures forall j :: 0 <= j < |rules| ==> (rules[j].tag in tags <==> AnyIn(text, rules[j].phrases))
    ensures forall t :: t in tags ==> TagIndex(rules, t) < |rules|
    ensures forall a, b :: 0 <= a < b < |tags| ==> TagIndex(rules, tags[a]) < TagIndex(rules, tags[b])
  {
    TagsFrom(text, rules, 0)
  }

  /** Tags listed in rule order are pairwise different. */
  lemma OrderedTagsDistinct(rules: seq<Rule>, tags: seq<string>)
    requires forall a, b :: 0 <= a < b < |tags| ==> TagIndex(rules, tags[a]) < TagIndex(rules, tags[b])
    ensures forall a, b :: 0 <= a < b < |tags| ==> tags[a] != tags[b]
  {
  }

  /** The tags of the rules that apply, or just `fallback` when none does. */
  function TagsOr(text: string, rules: seq<Rule>, fallback: string): (tags: seq<string>)
    requires DistinctTags(rules)
    requires forall k :: 0 <= k < |rules| ==> rules[k].tag != fallback
    ensures |tags| >= 1
    ensures forall k :: 0 <= k < |rules| ==> (rules[k].tag in tags <==> AnyIn(text, rules[k].phrases))
    ensures fallback in tags <==> forall k :: 0 <= k < |rules| ==> !AnyIn(text, rules[k].phrases)
    ensures fallback in tags ==> tags == [fallback]
    ensures forall t :: t in tags && t != fallback ==> TagIndex(rules, t) < |rules|
    ensures forall a, b :: 0 <= a < b < |tags| ==> tags[a] != tags[b]
    ensures forall a, b :: 0 <= a < b < |tags| ==> TagIndex(rules, tags[a]) < TagIndex(rules, tags[b])
  {
    var tags := Tags(text, rules);
    OrderedTagsDistinct(rules, tags);
    if tags == [] then
      [fallback]
    else
      assert forall t :: t in tags ==> rules[TagIndex(rules, t)].tag == t;
      assert tags[0] in tags && rules[TagIndex(rules, tags[0])].tag in tags;
      tags
  }

  /** Entry `k` is the first of the table whose key occurs in `text`. */
  predicate FirstKeyAt(text: string, table: seq<(string, string)>, k: int)
  {
    0 <= k < |table| && Contains(text, table[k].0) && forall j :: 0 <= j < k ==> !Contains(text, table[j].0)
  }

  /**
   * `for key, value in table: if key in text: return value`: the value of the first entry
   * whose key occurs in `text`, or `None` after the loop.
   */
  function FirstFound(text: string, table: seq<(string, string)>): (r: Option<string>)
    ensures r.None? <==> forall k :: 0 <= k < |table| ==> !Contains(text, table[k].0)
    ensures r.Some? ==> exists k :: FirstKeyAt(text, table, k) && r.value == table[k].1
    ensures forall k :: FirstKeyAt(text, table, k) ==> r == Some(table[k].1)
  {
    if |table| == 0 then None
    else if Contains(text, table[0].0) then Some(table[0].1)
    else
      var rest := FirstFound(text, table[1..]);
      assert forall k :: 1 <= k < |table| ==> table[k] == table[1..][k - 1];
      rest
  }
}
