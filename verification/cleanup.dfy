/**
 * The cleanup `LLMService._validar_json` applies to the model's reply before
 * it is parsed: strip whitespace, drop a leading and a trailing code-fence
 * line, strip again, and cut a text that opens with `{` at its last `}`.
 */
module Cleanup {
  import opened Wrappers

  const Fence: string := "```"

  /** Python's `str.isspace` for one character: the characters `str.strip()` removes. */
  predicate IsSpace(c: char) {
    || '\U{9}' <= c <= '\U{D}'
    || '\U{1C}' <= c <= '\U{20}'
    || c == '\U{85}' || c == '\U{A0}' || c == '\U{1680}'
    || '\U{2000}' <= c <= '\U{200A}'
    || c == '\U{2028}' || c == '\U{2029}' || c == '\U{202F}' || c == '\U{205F}'
    || c == '\U{3000}'
  }

  /** Neither end of `s` is whitespace. */
  predicate NoEdgeSpace(s: string) {
    s == [] || (!IsSpace(s[0]) && !IsSpace(s[|s| - 1]))
  }

  /** `r` occurs in `s` starting at offset `i`. */
  predicate SliceAt(r: string, s: string, i: nat) {
    i + |r| <= |s| && s[i..i + |r|] == r
  }

  /** `r` is a contiguous part of `s`. */
  ghost predicate IsSlice(r: string, s: string) {
    exists i: nat :: SliceAt(r, s, i)
  }

  lemma SliceAtTrans(a: string, b: string, c: string, i: nat, j: nat)
    requires SliceAt(a, b, i) && SliceAt(b, c, j)
    ensures SliceAt(a, c, j + i)
  {
    forall k | 0 <= k < |a|
      ensures c[j + i + k] == a[k]
    {
      assert b[i + k] == a[k];
      assert c[j + (i + k)] == b[i + k];
    }
  }

  function StartsWith(s: string, p: string): bool { p <= s }

  function EndsWith(s: string, p: string): bool {
    |p| <= |s| && s[|s| - |p|..] == p
  }

  /** Number of whitespace characters at the front of `s`. */
  function LeadingSpaces(s: string): (k: nat)
    ensures k <= |s|
    ensures forall i :: 0 <= i < k ==> IsSpace(s[i])
    ensures k < |s| ==> !IsSpace(s[k])
  {
    if |s| > 0 && IsSpace(s[0]) then 1 + LeadingSpaces(s[1..]) else 0
  }

  /** Number of whitespace characters at the end of `s`. */
  function TrailingSpaces(s: string): (k: nat)
    ensures k <= |s|
    ensures forall i :: |s| - k <= i < |s| ==> IsSpace(s[i])
    ensures k < |s| ==> !IsSpace(s[|s| - 1 - k])
  {
    if |s| > 0 && IsSpace(s[|s| - 1]) then 1 + TrailingSpaces(s[..|s| - 1]) else 0
  }

  /**
   * Python's `s.strip()`: the part of `s` left once every whitespace
   * character at either end is gone.
   */
  function Strip(s: string): (r: string)
    ensures SliceAt(r, s, LeadingSpaces(s))
    ensures forall i :: LeadingSpaces(s) + |r| <= i < |s| ==> IsSpace(s[i])
    ensures NoEdgeSpace(r)
  {
    var rest := s[LeadingSpaces(s)..];
    rest[..|rest| - TrailingSpaces(rest)]
  }

  lemma StripUnchanged(s: string)
    requires NoEdgeSpace(s)
    ensures Strip(s) == s
  {
    if s != [] {
      assert LeadingSpaces(s) == 0;
      assert TrailingSpaces(s) == 0;
    }
  }

  /** Python's `s.find(c)`, with `None` for -1. */
  function Find(s: string, c: char): (r: Option<nat>)
    ensures r.None? <==> c !in s
    ensures r.Some? ==> r.value < |s| && s[r.value] == c && c !in s[..r.value]
  {
    if s == [] then None
    else if s[0] == c then Some(0)
    else match Find(s[1..], c)
      case None => None
      case Some(i) => assert s[..i + 1] == [s[0]] + s[1..][..i]; Some(i + 1)
  }

  /** Python's `s.rfind(c)`, with `None` for -1. */
  function RFind(s: string, c: char): (r: Option<nat>)
    ensures r.None? <==> c !in s
    ensures r.Some? ==> r.value < |s| && s[r.value] == c && c !in s[r.value + 1..]
  {
    if s == [] then None
    else if s[|s| - 1] == c then Some(|s| - 1)
    else
      var init := s[..|s| - 1];
      match RFind(init, c)
      case None => assert s == init + [s[|s| - 1]]; None
      case Some(i) => assert s[i + 1..] == init[i + 1..] + [s[|s| - 1]]; Some(i)
  }

  /**
   * Lines 25-26: a text that opens with a fence loses its first line, the
   * fence and any language tag, up to and including the first newline;
   * `split('\n', 1)[1]` raises IndexError (`None`) when there is no newline.
   */
  function DropLeadingFence(s: string): (r: Option<string>)
    ensures r.None? <==> StartsWith(s, Fence) && '\n' !in s
    ensures r.Some? ==> |r.value| <= |s| && SliceAt(r.value, s, |s| - |r.value|)
    ensures !StartsWith(s, Fence) ==> r == Some(s)
    ensures StartsWith(s, Fence) && r.Some? ==>
      var k := |s| - |r.value| - 1;
      0 <= k && s[k] == '\n' && '\n' !in s[..k] && r.value == s[k + 1..]
  {
    if !StartsWith(s, Fence) then Some(s)
    else match Find(s, '\n')
      case None => None
      case Some(k) => Some(s[k + 1..])
  }

  /**
   * Lines 27-28: a text that closes with a fence loses its last line,
   * from the last newline on; `rsplit('\n', 1)[0]` keeps the whole text
   * when it has no newline.
   */
  function DropTrailingFence(s: string): (r: string)
    ensures SliceAt(r, s, 0)
    ensures !EndsWith(s, Fence) || '\n' !in s ==> r == s
    ensures EndsWith(s, Fence) && '\n' in s ==>
      |r| < |s| && r == s[..|r|] && s[|r|] == '\n' && '\n' !in s[|r| + 1..]
  {
    if !EndsWith(s, Fence) then s
    else match RFind(s, '\n')
      case None => s
      case Some(k) => s[..k]
  }

  /**
   * Lines 32-33: a text that opens with `{` is cut just after its last `}`
   * (`find('{')` is 0 there); with no `}`, `rfind` gives -1 and the slice
   * `[0:0]` is empty. Any other text is kept whole.
   */
  function TrimToObject(s: string): (r: string)
    ensures SliceAt(r, s, 0)
    ensures !StartsWith(s, "{") ==> r == s
    ensures StartsWith(s, "{") && '}' !in s ==> r == []
    ensures StartsWith(s, "{") && '}' in s ==>
      0 < |r| <= |s| && r == s[..|r|] && r[|r| - 1] == '}' && '}' !in s[|r|..]
  {
    if !StartsWith(s, "{") then s
    else match RFind(s, '}')
      case None => []
      case Some(k) => s[..k + 1]
  }

  /**
   * `_validar_json` (lines 19-35): `None` is the IndexError a fence line
   * with no newline raises. The result is a contiguous part of the reply,
   * no longer than it, with no whitespace at either end.
   */
  function Clean(raw: string): (r: Option<string>)
    ensures r.None? <==> StartsWith(Strip(raw), Fence) && '\n' !in Strip(raw)
    ensures r.Some? ==> IsSlice(r.value, raw) && |r.value| <= |raw| && NoEdgeSpace(r.value)
  {
    var s1 := Strip(raw);
    match DropLeadingFence(s1)
    case None => None
    case Some(s2) =>
      var s4 := Strip(DropTrailingFence(s2));
      var s5 := TrimToObject(s4);
      CleanIsSlice(raw, s2);
      NoEdgeSpaceTrim(s4);
      Some(s5)
  }

  lemma NoEdgeSpaceTrim(s: string)
    requires NoEdgeSpace(s)
    ensures NoEdgeSpace(TrimToObject(s))
  {
  }

  lemma CleanIsSlice(raw: string, s2: string)
    requires Some(s2) == DropLeadingFence(Strip(raw))
    ensures IsSlice(TrimToObject(Strip(DropTrailingFence(s2))), raw)
  {
    var front := FrontIsSlice(raw, s2);
    var back := BackIsSlice(s2);
    SliceAtTrans(TrimToObject(Strip(DropTrailingFence(s2))), s2, raw, back, front);
  }

  /** Stripping the reply and dropping its opening fence line leaves a part of it. */
  lemma FrontIsSlice(raw: string, s2: string) returns (at: nat)
    requires Some(s2) == DropLeadingFence(Strip(raw))
    ensures SliceAt(s2, raw, at)
  {
    var s1 := Strip(raw);
    var i, j := LeadingSpaces(raw), |s1| - |s2|;
    assert SliceAt(s1, raw, i);
    assert SliceAt(s2, s1, j);
    SliceAtTrans(s2, s1, raw, j, i);
    at := i + j;
  }

  /** Dropping the closing fence line, stripping and trimming leave a part of the text. */
  lemma BackIsSlice(s2: string) returns (at: nat)
    ensures SliceAt(TrimToObject(Strip(DropTrailingFence(s2))), s2, at)
  {
    var s3 := DropTrailingFence(s2);
    var s4 := Strip(s3);
    var s5 := TrimToObject(s4);
    var c := LeadingSpaces(s3);
    assert SliceAt(s3, s2, 0);
    assert SliceAt(s4, s3, c);
    assert SliceAt(s5, s4, 0);
    SliceAtTrans(s4, s3, s2, c, 0);
    SliceAtTrans(s5, s4, s2, 0, c);
    at := c;
  }

  /**
   * A cleaned text that opens with `{` is a fixed point: cleaning it a
   * second time gives it back unchanged.
   */
  lemma {:induction false} CleanFixedPoint(raw: string, r: string)
    requires Clean(raw) == Some(r) && StartsWith(r, "{")
    ensures Clean(r) == Some(r)
  {
    var s2 := DropLeadingFence(Strip(raw)).value;
    var s4 := Strip(DropTrailingFence(s2));
    assert r == TrimToObject(s4);
    // r opens with `{`, so it came from the cut at the last `}` and ends there.
    assert StartsWith(s4, "{");
    assert '}' in s4 && r[|r| - 1] == '}';
    StripUnchanged(r);
    assert !StartsWith(r, Fence) by { assert r[0] == '{'; }
    assert !EndsWith(r, Fence) by { assert r[|r| - 1] == '}'; }
    assert DropLeadingFence(r) == Some(r);
    assert DropTrailingFence(r) == r;
    assert r[|r| - 1] == '}';
    assert RFind(r, '}') == Some(|r| - 1);
    assert TrimToObject(r) == r[..|r|];
  }

  /** An opening fence line, tag included, is dropped whole. */
  lemma DropOpeningFenceLine(tag: string, rest: string)
    requires '\n' !in tag
    ensures DropLeadingFence(Fence + tag + "\n" + rest) == Some(rest)
  {
    var w := Fence + tag + "\n" + rest;
    var n := |Fence| + |tag|;
    assert w[..3] == Fence;
    assert w[n] == '\n';
    assert '\n' !in w[..n] by { assert w[..n] == Fence + tag; }
    assert Find(w, '\n') == Some(n);
    assert w[n + 1..] == rest;
  }

  /** A closing fence on a line of its own is dropped with its newline. */
  lemma DropClosingFenceLine(t: string)
    ensures DropTrailingFence(t + "\n" + Fence) == t
  {
    var w := t + "\n" + Fence;
    assert w[|w| - 3..] == Fence;
    assert w[|t|] == '\n';
    assert '\n' !in w[|t| + 1..] by { assert w[|t| + 1..] == Fence; }
    assert RFind(w, '\n') == Some(|t|);
    assert w[..|t|] == t;
  }

  /**
   * A reply wrapped in a fenced block, with or without a language tag on the
   * opening line, cleans to what the bare text cleans to, provided the bare
   * text does not itself open or close with a fence.
   */
  lemma FencedBlockIsTransparent(tag: string, t: string)
    requires '\n' !in tag
    requires !StartsWith(Strip(t), Fence) && !EndsWith(Strip(t), Fence)
    ensures Clean(Fence + tag + "\n" + t + "\n" + Fence) == Clean(t)
  {
    var w := Fence + tag + "\n" + (t + "\n" + Fence);
    assert w == Fence + tag + "\n" + t + "\n" + Fence;
    assert w[0] == '`' && w[|w| - 1] == '`';
    StripUnchanged(w);
    DropOpeningFenceLine(tag, t + "\n" + Fence);
    DropClosingFenceLine(t);
    var s := Strip(t);
    assert DropLeadingFence(s) == Some(s);
    assert DropTrailingFence(s) == s;
    StripUnchanged(s);
  }

  /**
   * Prose ahead of a JSON object is never cut away: a stripped reply that
   * opens with neither a fence nor `{`, and does not close with a fence,
   * comes back as it is.
   */
  lemma LeadingProseIsKept(raw: string)
    requires !StartsWith(Strip(raw), Fence) && !EndsWith(Strip(raw), Fence)
    requires !StartsWith(Strip(raw), "{")
    ensures Clean(raw) == Some(Strip(raw))
  {
    StripUnchanged(Strip(raw));
  }

  /** A character absent from a text is absent from each of its prefixes. */
  lemma PrefixAvoids(a: string, s: string, c: char)
    requires a <= s && c !in s
    ensures c !in a
  {
    forall i | 0 <= i < |a| ensures a[i] != c {
      assert a[i] == s[i];
    }
  }

  /**
   * A reply that opens with `{` and holds no `}` at all cleans to the empty
   * string, because `rfind` gives -1 and the slice is `[0:0]`.
   */
  lemma UnclosedObjectCleansToEmpty(raw: string)
    requires StartsWith(Strip(raw), "{") && '}' !in Strip(raw)
    ensures Clean(raw) == Some([])
  {
    var s := Strip(raw);
    assert DropLeadingFence(s) == Some(s) by { assert s[0] != '`'; }
    var s3 := DropTrailingFence(s);
    assert s3 <= s;
    assert 0 < |s3| by {
      assert s[0] != '\n';
    }
    assert s3[0] == '{';
    var s4 := Strip(s3);
    assert LeadingSpaces(s3) == 0;
    assert s4 <= s3;
    PrefixAvoids(s3, s, '}');
    PrefixAvoids(s4, s3, '}');
    assert StartsWith(s4, "{") by { assert s4[0] == s3[0]; }
  }

  /** The cut at the last `}` removes a tail that holds no `}`. */
  lemma CutDropsTail(obj: string, tail: string)
    requires |obj| >= 2 && obj[0] == '{' && obj[|obj| - 1] == '}' && '}' !in tail
    ensures TrimToObject(obj + tail) == obj
  {
    var w := obj + tail;
    assert w[|obj| - 1] == '}';
    assert w[|obj|..] == tail;
    assert RFind(w, '}') == Some(|obj| - 1);
    assert w[..|obj|] == obj;
  }

  /** A text whose last character is not a backtick does not end with a fence. */
  lemma NoClosingFence(s: string)
    requires |s| > 0 && s[|s| - 1] != '`'
    ensures !EndsWith(s, Fence)
  {
    if |Fence| <= |s| {
      assert s[|s| - |Fence|..][|Fence| - 1] == s[|s| - 1];
    }
  }

  /** Past an opening fence line, cleaning goes on with the rest of the text. */
  lemma CleanAfterOpeningFence(tag: string, rest: string)
    requires '\n' !in tag && rest != [] && NoEdgeSpace(rest)
    ensures Clean(Fence + tag + "\n" + rest) == Some(TrimToObject(Strip(DropTrailingFence(rest))))
  {
    var w := Fence + tag + "\n" + rest;
    assert w[0] == '`' && w[|w| - 1] == rest[|rest| - 1];
    StripUnchanged(w);
    DropOpeningFenceLine(tag, rest);
  }

  /** The object followed by a closing fence line and remarks cleans back to the object. */
  lemma ObjectThenRemarks(obj: string, remarks: string)
    requires |obj| >= 2 && obj[0] == '{' && obj[|obj| - 1] == '}'
    requires |remarks| > 0 && !IsSpace(remarks[|remarks| - 1]) && remarks[|remarks| - 1] != '`' && '}' !in remarks
    ensures var rest := obj + ("\n" + Fence + "\n" + remarks);
      NoEdgeSpace(rest) && TrimToObject(Strip(DropTrailingFence(rest))) == obj
  {
    var tail := "\n" + Fence + "\n" + remarks;
    var rest := obj + tail;
    assert rest[0] == '{' && rest[|rest| - 1] == remarks[|remarks| - 1];
    NoClosingFence(rest);
    StripUnchanged(rest);
    assert '}' !in tail by {
      forall i | 0 <= i < |tail| ensures tail[i] != '}' {
        if i >= 5 { assert tail[i] == remarks[i - 5]; }
      }
    }
    CutDropsTail(obj, tail);
  }

  /**
   * A reply in a fenced block with a language tag and remarks after the
   * closing fence still yields the object: the closing-fence step does not
   * apply, since the text no longer ends with a fence, and the cut at the
   * last `}` removes the remarks, provided they hold no `}`.
   */
  lemma FencedReplyWithRemarks(tag: string, obj: string, remarks: string)
    requires '\n' !in tag
    requires |obj| >= 2 && obj[0] == '{' && obj[|obj| - 1] == '}'
    requires |remarks| > 0 && !IsSpace(remarks[|remarks| - 1]) && remarks[|remarks| - 1] != '`' && '}' !in remarks
    ensures Clean(Fence + tag + "\n" + obj + "\n" + Fence + "\n" + remarks) == Some(obj)
  {
    var rest := obj + ("\n" + Fence + "\n" + remarks);
    assert Fence + tag + "\n" + rest == Fence + tag + "\n" + obj + "\n" + Fence + "\n" + remarks;
    ObjectThenRemarks(obj, remarks);
    CleanAfterOpeningFence(tag, rest);
  }
}
