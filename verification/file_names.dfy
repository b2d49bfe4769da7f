/**
 * `criar_nome_arquivo` (app.py): the name of the generated document, built
 * from the discipline, the series and a timestamp, with spaces turned into
 * underscores and every `º` removed. The clock read is a parameter.
 */
module FileNames {

  const Ordinal: char := 'º'

  /** Number of occurrences of `c` in `s`. */
  function Occurrences(s: string, c: char): (n: nat)
    ensures n <= |s|
  {
    if s == [] then 0 else (if s[0] == c then 1 else 0) + Occurrences(s[1..], c)
  }

  /** `s.replace(" ", "_")`: each space becomes `_`, every other character stays in place. */
  function ReplaceSpaces(s: string): (r: string)
    ensures |r| == |s| && ' ' !in r
    ensures forall i :: 0 <= i < |s| ==> r[i] == (if s[i] == ' ' then '_' else s[i])
  {
    if s == [] then [] else [if s[0] == ' ' then '_' else s[0]] + ReplaceSpaces(s[1..])
  }

  /** `s.replace("º", "")`: every `º` is deleted, nothing else is touched. */
  function DeleteOrdinals(s: string): (r: string)
    ensures |r| == |s| - Occurrences(s, Ordinal) && Ordinal !in r
    ensures forall c :: c in r ==> c in s
  {
    if s == [] then [] else (if s[0] == Ordinal then [] else [s[0]]) + DeleteOrdinals(s[1..])
  }

  /** The two replacements of line 12, applied in source order. */
  function Normalize(s: string): (r: string)
    ensures |r| == |s| - Occurrences(s, Ordinal)
    ensures ' ' !in r && Ordinal !in r
  {
    ReplaceSpacesKeepsOrdinals(s);
    DeleteOrdinals(ReplaceSpaces(s))
  }

  lemma {:induction false} ReplaceSpacesKeepsOrdinals(s: string)
    ensures Occurrences(ReplaceSpaces(s), Ordinal) == Occurrences(s, Ordinal)
  {
    if s != [] {
      ReplaceSpacesKeepsOrdinals(s[1..]);
      assert ReplaceSpaces(s)[1..] == ReplaceSpaces(s[1..]);
    }
  }

  /** The fixed parts of the name. */
  const Prefix: string := "Prova_"
  const Separator: string := "_"
  const Extension: string := ".docx"

  /** A string that normalizing leaves alone. */
  predicate Plain(s: string) {
    ' ' !in s && Ordinal !in s
  }

  // FixedPartsPlain and YearPlain model nothing: they state facts about the
  // constants once, so that proofs over them need not unfold the literals.
  lemma FixedPartsPlain()
    ensures Plain(Prefix) && Plain(Separator) && Plain(Extension)
    ensures Separator == "_"
  {
  }

  /**
   * `criar_nome_arquivo(disciplina, serie)` (lines 8-12) with the timestamp
   * `strftime("%Y%m%d_%H%M%S")` would give passed in.
   */
  function FileName(disciplina: string, serie: string, timestamp: string): (r: string)
    ensures |r| >= |Prefix| + |Extension|
    ensures r[..|Prefix|] == Prefix && r[|r| - |Extension|..] == Extension
    ensures ' ' !in r && Ordinal !in r
    ensures var base := Prefix + disciplina + Separator + serie + Separator + timestamp;
      |r| == |base| - Occurrences(base, Ordinal) + |Extension|
  {
    var rest := disciplina + Separator + serie + Separator + timestamp;
    assert Prefix + disciplina + Separator + serie + Separator + timestamp == Prefix + rest;
    PrefixedName(rest);
    Normalize(Prefix + rest) + Extension
  }

  lemma PrefixedName(rest: string)
    ensures var r := Normalize(Prefix + rest) + Extension;
      |r| >= |Prefix| + |Extension| &&
      r[..|Prefix|] == Prefix && r[|r| - |Extension|..] == Extension && ' ' !in r && Ordinal !in r
  {
    FixedPartsPlain();
    PlainEnds(Prefix, rest, Extension);
  }

  /** Plain text on either side of a normalized part is kept verbatim. */
  lemma PlainEnds(p: string, x: string, e: string)
    requires Plain(p) && Plain(e)
    ensures var r := Normalize(p + x) + e;
      |r| >= |p| + |e| && r[..|p|] == p && r[|r| - |e|..] == e && ' ' !in r && Ordinal !in r
  {
    NormalizeAppend(p, x);
    NormalizePlain(p);
    var r := Normalize(p + x) + e;
    assert r == p + (Normalize(x) + e);
  }

  /** Characters other than space and `º` pass through unchanged. */
  lemma NormalizePlain(s: string)
    requires Plain(s)
    ensures Normalize(s) == s
  {
    ReplaceNone(s);
    DeleteNone(s);
  }

  lemma {:induction false} ReplaceNone(s: string)
    requires ' ' !in s
    ensures ReplaceSpaces(s) == s
  {
    if s != [] {
      ReplaceNone(s[1..]);
    }
  }

  lemma {:induction false} DeleteNone(s: string)
    requires Ordinal !in s
    ensures DeleteOrdinals(s) == s
  {
    if s != [] {
      DeleteNone(s[1..]);
    }
  }

  lemma {:induction false} ReplaceSpacesAppend(a: string, b: string)
    ensures ReplaceSpaces(a + b) == ReplaceSpaces(a) + ReplaceSpaces(b)
  {
    if a != [] {
      var head := [if a[0] == ' ' then '_' else a[0]];
      assert (a + b)[0] == a[0] && (a + b)[1..] == a[1..] + b;
      assert ReplaceSpaces(a + b) == head + ReplaceSpaces(a[1..] + b);
      assert ReplaceSpaces(a) == head + ReplaceSpaces(a[1..]);
      ReplaceSpacesAppend(a[1..], b);
      assert head + (ReplaceSpaces(a[1..]) + ReplaceSpaces(b)) == (head + ReplaceSpaces(a[1..])) + ReplaceSpaces(b);
    } else {
      assert a + b == b;
    }
  }

  lemma {:induction false} DeleteOrdinalsAppend(a: string, b: string)
    ensures DeleteOrdinals(a + b) == DeleteOrdinals(a) + DeleteOrdinals(b)
  {
    if a != [] {
      assert (a + b)[1..] == a[1..] + b;
      DeleteOrdinalsAppend(a[1..], b);
    } else {
      assert a + b == b;
    }
  }

  /**
   * Every character other than `º` is kept, in order: the one at position
   * `i` moves left by the number of `º` before it.
   */
  lemma DeleteOrdinalsKeepsOthers(s: string, i: nat)
    requires i < |s| && s[i] != Ordinal
    ensures i - Occurrences(s[..i], Ordinal) < |DeleteOrdinals(s)|
    ensures DeleteOrdinals(s)[i - Occurrences(s[..i], Ordinal)] == s[i]
  {
    var front, c, back := s[..i], [s[i]], s[i + 1..];
    assert s == front + c + back;
    DeleteOrdinalsAppend(front + c, back);
    DeleteOrdinalsAppend(front, c);
    assert c[1..] == [];
    assert DeleteOrdinals(c) == c;
  }

  /**
   * Normalizing works piece by piece, so every character other than space
   * and `º` keeps its relative order.
   */
  lemma NormalizeAppend(a: string, b: string)
    ensures Normalize(a + b) == Normalize(a) + Normalize(b)
  {
    ReplaceSpacesAppend(a, b);
    DeleteOrdinalsAppend(ReplaceSpaces(a), ReplaceSpaces(b));
  }

  /**
   * The name is the fixed parts joined with the normalized discipline,
   * series and timestamp: `Prova_<d>_<s>_<t>.docx`.
   */
  lemma FileNameSegments(disciplina: string, serie: string, timestamp: string)
    ensures FileName(disciplina, serie, timestamp) ==
      Prefix + Normalize(disciplina) + Separator + Normalize(serie) + Separator + Normalize(timestamp) + Extension
  {
    FixedPartsPlain();
    var rest := disciplina + Separator + serie + Separator + timestamp;
    assert Prefix + rest == Prefix + disciplina + Separator + serie + Separator + timestamp;
    JoinSegments(Prefix, Separator, disciplina, serie, timestamp);
  }

  lemma JoinSegments(p: string, sep: string, a: string, b: string, c: string)
    requires Plain(p) && Plain(sep)
    ensures Normalize(p + a + sep + b + sep + c) ==
      p + Normalize(a) + sep + Normalize(b) + sep + Normalize(c)
  {
    NormalizePlain(p);
    NormalizePlain(sep);
    NormalizeAppend(p, a);
    NormalizeAppend(p + a, sep);
    NormalizeAppend(p + a + sep, b);
    NormalizeAppend(p + a + sep + b, sep);
    NormalizeAppend(p + a + sep + b + sep, c);
  }

  /** The digit character for 1 to 9. */
  function Digit(i: nat): (c: char)
    requires 1 <= i <= 9
    ensures '1' <= c <= '9'
  {
    ['1', '2', '3', '4', '5', '6', '7', '8', '9'][i - 1]
  }

  /** The text after the digit in every series label of config.py. */
  const Year: string := "ano"
  const LabelSuffix: string := [Ordinal, ' '] + Year

  /** The series labels of config.py, `f"{i}º ano"` for i from 1 to 9. */
  function SeriesLabel(i: nat): string
    requires 1 <= i <= 9
  {
    [Digit(i)] + LabelSuffix
  }

  /** Normalizing a single character. */
  lemma NormalizeChar(c: char)
    ensures Normalize([c]) == (if c == ' ' then "_" else if c == Ordinal then [] else [c])
  {
    assert [c][1..] == [];
  }

  /** `º` followed by a space and plain text normalizes to `_` and that text. */
  lemma OrdinalSpaceThen(t: string)
    requires Plain(t)
    ensures Normalize([Ordinal, ' '] + t) == "_" + t
  {
    var head: string := [Ordinal, ' '];
    ReplaceSpacesAppend(head, t);
    ReplaceNone(t);
    assert ReplaceSpaces(head) == [Ordinal, '_'] by {
      assert head[1..] == [' '];
    }
    DeleteOrdinalsAppend([Ordinal, '_'], t);
    DeleteNone(t);
    assert DeleteOrdinals([Ordinal, '_']) == "_" by {
      assert [Ordinal, '_'][1..] == "_";
      DeleteNone("_");
    }
  }

  /** Each configured series label `iº ano` becomes the segment `i_ano`. */
  lemma SeriesSegment(i: nat)
    requires 1 <= i <= 9
    ensures Normalize(SeriesLabel(i)) == [Digit(i)] + Separator + Year
  {
    FixedPartsPlain();
    YearPlain(Year);
    OrdinalSpaceThen(Year);
    NormalizeAppend([Digit(i)], LabelSuffix);
    NormalizePlain([Digit(i)]);
  }

  lemma YearPlain(y: string)
    requires y == Year
    ensures Plain(y)
  {
  }
}
