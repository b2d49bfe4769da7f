/**
 * The values `json.loads` produces, and the few Python operations the
 * exam code applies to them: `in`, iteration, and `dict` lookup.
 * An object is kept as its entries in insertion order, as a Python
 * `dict` iterates them; its keys are assumed distinct, as in a `dict`.
 */
module Json {
  import opened Wrappers

  datatype Json =
    | JNull
    | JBool(b: bool)
    | JNum(n: int)
    | JStr(s: string)
    | JArr(items: seq<Json>)
    | JObj(entries: seq<(string, Json)>)

  /** The keys of an object, in insertion order. */
  function KeysOf(es: seq<(string, Json)>): (ks: seq<string>)
    ensures |ks| == |es|
  {
    if es == [] then [] else [es[0].0] + KeysOf(es[1..])
  }

  /** `k in v` for a dict `v`. */
  predicate HasKey(v: Json, k: string) {
    v.JObj? && k in KeysOf(v.entries)
  }

  function Lookup(es: seq<(string, Json)>, k: string): (r: Json)
    requires k in KeysOf(es)
    ensures (k, r) in es
  {
    if es[0].0 == k then es[0].1 else Lookup(es[1..], k)
  }

  /** `v[k]` for a dict `v` that holds `k`. */
  function Get(v: Json, k: string): (r: Json)
    requires HasKey(v, k)
    ensures (k, r) in v.entries
  {
    Lookup(v.entries, k)
  }

  /** Python's `str.__contains__`: `k` occurs as a contiguous part of `s`. */
  predicate IsSubstring(k: string, s: string)
    decreases |s|
  {
    k <= s || (|s| > 0 && IsSubstring(k, s[1..]))
  }

  /** A part of `s` found at offset `k` is a substring of `s`. */
  lemma {:induction false} SubstringAt(k: string, s: string, at: nat)
    requires at + |k| <= |s| && s[at..at + |k|] == k
    ensures IsSubstring(k, s)
    decreases at
  {
    if at > 0 {
      assert s[1..][at - 1..at - 1 + |k|] == s[at..at + |k|];
      SubstringAt(k, s[1..], at - 1);
    } else {
      assert k <= s;
    }
  }

  lemma SubstringOfJoin(a: string, k: string, b: string)
    ensures IsSubstring(k, a + k + b)
  {
    var s := a + k + b;
    assert s[|a|..|a| + |k|] == k;
    SubstringAt(k, s, |a|);
  }

  /**
   * Python's `k in v` for a string `k`: key membership for a dict, element
   * equality for a list, substring test for a string; `None` stands for
   * the TypeError raised on a number, a boolean or `null`.
   */
  function PyIn(k: string, v: Json): (r: Option<bool>)
    ensures r.None? <==> !(v.JObj? || v.JArr? || v.JStr?)
    ensures v.JObj? ==> r == Some(HasKey(v, k))
    ensures v.JArr? ==> r == Some(JStr(k) in v.items)
    ensures v.JStr? ==> r == Some(IsSubstring(k, v.s))
  {
    match v
    case JObj(es) => Some(k in KeysOf(es))
    case JArr(xs) => Some(JStr(k) in xs)
    case JStr(s) => Some(IsSubstring(k, s))
    case _ => None
  }

  /**
   * The elements `for x in v` visits: a list's items, a dict's keys, a
   * string's one-character strings; `None` for a value that is not iterable.
   */
  function Iter(v: Json): (r: Option<seq<Json>>)
    ensures r.None? <==> !(v.JObj? || v.JArr? || v.JStr?)
    ensures v.JArr? ==> r == Some(v.items)
    ensures v.JObj? ==> |r.value| == |v.entries| && forall i :: 0 <= i < |v.entries| ==> r.value[i] == JStr(v.entries[i].0)
    ensures v.JStr? ==> |r.value| == |v.s| && forall i :: 0 <= i < |v.s| ==> r.value[i] == JStr([v.s[i]])
  {
    match v
    case JArr(xs) => Some(xs)
    case JObj(es) => Some(seq(|es|, i requires 0 <= i < |es| => JStr(es[i].0)))
    case JStr(s) => Some(seq(|s|, i requires 0 <= i < |s| => JStr([s[i]])))
    case _ => None
  }

  /**
   * A piece of displayed text: a literal, the text of a JSON value as
   * Python shows it (`str(v)`, or the value itself handed to a document
   * run), or `s.upper()` of a string.
   */
  datatype Piece = Lit(text: string) | Str(value: Json) | Upper(source: string)
}
