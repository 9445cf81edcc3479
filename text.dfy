/**
 * The .NET string operations the connector relies on: String.Trim and the
 * whitespace-and-NUL trimming of bool.TryParse, the ordinal prefix test, and
 * the ASCII case folding used by case-insensitive comparisons.
 */
module Text {

  /** char.IsWhiteSpace: the characters with the Unicode White_Space property. */
  predicate IsWhiteSpace(c: char) {
    c == ' ' || ('\t' <= c <= '\r') || c == '\U{85}' || c == '\U{A0}' || c == '\U{1680}'
    || ('\U{2000}' <= c <= '\U{200A}') || c == '\U{2028}' || c == '\U{2029}'
    || c == '\U{202F}' || c == '\U{205F}' || c == '\U{3000}'
  }

  /** What bool.TryParse trims before its second comparison: whitespace and NUL. */
  predicate IsWhiteSpaceOrNull(c: char) {
    IsWhiteSpace(c) || c == '\0'
  }

  predicate AllSatisfy(s: string, drop: char -> bool) {
    forall i :: 0 <= i < |s| ==> drop(s[i])
  }

  /** Drops the longest prefix of characters satisfying `drop`. */
  function TrimStart(s: string, drop: char -> bool): (r: string)
    ensures |r| <= |s| && r == s[|s| - |r|..]
    ensures forall i :: 0 <= i < |s| - |r| ==> drop(s[i])
    ensures r == [] || !drop(r[0])
    decreases |s|
  {
    if |s| > 0 && drop(s[0]) then TrimStart(s[1..], drop) else s
  }

  /** Drops the longest suffix of characters satisfying `drop`. */
  function TrimEnd(s: string, drop: char -> bool): (r: string)
    ensures |r| <= |s| && r == s[..|r|]
    ensures forall i :: |r| <= i < |s| ==> drop(s[i])
    ensures r == [] || !drop(r[|r| - 1])
    decreases |s|
  {
    if |s| > 0 && drop(s[|s| - 1]) then TrimEnd(s[..|s| - 1], drop) else s
  }

  /** Both ends trimmed: the result neither starts nor ends with a dropped character. */
  function Trim(s: string, drop: char -> bool): (r: string)
    ensures |r| <= |s|
    ensures r == [] || (!drop(r[0]) && !drop(r[|r| - 1]))
  {
    var t := TrimStart(s, drop);
    var r := TrimEnd(t, drop);
    assert r != [] ==> r[0] == t[0];
    r
  }

  /** String.Trim() with no arguments. */
  function StringTrim(s: string): string {
    Trim(s, IsWhiteSpace)
  }

  /** Ordinal prefix test. */
  predicate StartsWith(s: string, prefix: string) {
    |prefix| <= |s| && s[..|prefix|] == prefix
  }

  /** Maps the ASCII capitals to lower case and leaves every other character alone. */
  function FoldChar(c: char): char {
    if 'A' <= c <= 'Z' then (c as int + 32) as char else c
  }

  function Fold(s: string): (r: string)
    ensures |r| == |s|
  {
    seq(|s|, i requires 0 <= i < |s| => FoldChar(s[i]))
  }

  predicate EqualsIgnoreCase(a: string, b: string) {
    Fold(a) == Fold(b)
  }

  lemma FoldIdempotent(s: string)
    ensures Fold(Fold(s)) == Fold(s)
  {
  }

  /** Leading dropped characters never reach the result. */
  lemma {:induction false} TrimStartSkipsPrefix(ws: string, s: string, drop: char -> bool)
    requires AllSatisfy(ws, drop)
    ensures TrimStart(ws + s, drop) == TrimStart(s, drop)
    decreases |ws|
  {
    if ws != [] {
      assert (ws + s)[1..] == ws[1..] + s;
      TrimStartSkipsPrefix(ws[1..], s, drop);
    } else {
      assert ws + s == s;
    }
  }

  /** Trailing dropped characters never reach the result. */
  lemma {:induction false} TrimEndSkipsSuffix(s: string, ws: string, drop: char -> bool)
    requires AllSatisfy(ws, drop)
    ensures TrimEnd(s + ws, drop) == TrimEnd(s, drop)
    decreases |ws|
  {
    if ws != [] {
      var n := |ws| - 1;
      assert (s + ws)[..|s + ws| - 1] == s + ws[..n];
      TrimEndSkipsSuffix(s, ws[..n], drop);
    } else {
      assert s + ws == s;
    }
  }

  /** Trimming the start of a concatenation stops inside the first part unless it is all dropped. */
  lemma {:induction false} TrimStartAppend(s: string, t: string, drop: char -> bool)
    ensures TrimStart(s + t, drop) == if AllSatisfy(s, drop) then TrimStart(t, drop) else TrimStart(s, drop) + t
    decreases |s|
  {
    if s == [] {
      assert s + t == t;
    } else if drop(s[0]) {
      assert (s + t)[1..] == s[1..] + t;
      TrimStartAppend(s[1..], t, drop);
      assert AllSatisfy(s, drop) == AllSatisfy(s[1..], drop);
    }
  }

  /** Concatenation is associative; kept apart so that the step costs nothing inside larger proofs. */
  lemma AppendAssoc(a: string, b: string, c: string)
    ensures a + b + c == a + (b + c)
  {
  }

  /** Characters to be dropped around a string never change what Trim returns. */
  lemma TrimIgnoresSurrounding(ws1: string, s: string, ws2: string, drop: char -> bool)
    requires AllSatisfy(ws1, drop) && AllSatisfy(ws2, drop)
    ensures Trim(ws1 + s + ws2, drop) == Trim(s, drop)
  {
    AppendAssoc(ws1, s, ws2);
    TrimStartSkipsPrefix(ws1, s + ws2, drop);
    TrimStartAppend(s, ws2, drop);
    assert TrimStart(ws1 + s + ws2, drop) == TrimStart(s + ws2, drop);
    if AllSatisfy(s, drop) {
      TrimStartSkipsPrefix(ws2, [], drop);
      TrimStartSkipsPrefix(s, [], drop);
      assert ws2 + [] == ws2 && s + [] == s;
      assert TrimStart(ws1 + s + ws2, drop) == [] && TrimStart(s, drop) == [];
    } else {
      var t := TrimStart(s, drop);
      assert TrimStart(ws1 + s + ws2, drop) == t + ws2;
      TrimEndSkipsSuffix(t, ws2, drop);
    }
  }

  /** A string that neither starts nor ends with a dropped character is its own trim. */
  lemma TrimKeepsTrimmed(s: string, drop: char -> bool)
    requires s == [] || (!drop(s[0]) && !drop(s[|s| - 1]))
    ensures Trim(s, drop) == s
  {
  }
}
