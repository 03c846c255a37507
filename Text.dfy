/** Text operations the triage rules are built from: ASCII case mapping
    (`str.lower`, `str.title`), substring search (`word in text`), whitespace
    stripping, and `str.join` / `str.split` on one separator character. */
module Text {

  predicate IsUpper(c: char) { 'A' <= c <= 'Z' }
  predicate IsLowerLetter(c: char) { 'a' <= c <= 'z' }
  predicate IsLetter(c: char) { IsUpper(c) || IsLowerLetter(c) }

  function LowerChar(c: char): char
  {
    if IsUpper(c) then (c as int + 32) as char else c
  }

  function UpperChar(c: char): char
  {
    if IsLowerLetter(c) then (c as int - 32) as char else c
  }

  /** `s.lower()` on ASCII letters; every other character is kept. */
  function Lower(s: string): string
  {
    seq(|s|, i requires 0 <= i < |s| => LowerChar(s[i]))
  }

  /** Lowercasing twice is lowercasing once, and the result has no capital. */
  lemma LowerIdempotent(s: string)
    ensures Lower(Lower(s)) == Lower(s)
    ensures forall i :: 0 <= i < |Lower(s)| ==> !IsUpper(Lower(s)[i])
  {
    assert |Lower(Lower(s))| == |s|;
    forall i | 0 <= i < |s|
      ensures Lower(Lower(s))[i] == Lower(s)[i]
    {
      assert !IsUpper(Lower(s)[i]);
    }
  }

  /** Lowercasing works character by character, so it distributes over `+`. */
  lemma LowerAppend(a: string, b: string)
    ensures Lower(a + b) == Lower(a) + Lower(b)
  {
    var l, r := Lower(a + b), Lower(a) + Lower(b);
    assert |l| == |r|;
    forall i | 0 <= i < |l| ensures l[i] == r[i] {
      if i < |a| { assert (a + b)[i] == a[i]; } else { assert (a + b)[i] == b[i - |a|]; }
    }
  }

  /** `word` occurs in `text` starting at position `i`. */
  predicate OccursAt(text: string, word: string, i: int)
  {
    0 <= i <= |text| - |word| && forall j :: 0 <= j < |word| ==> text[i + j] == word[j]
  }

  /** Python's `word in text` on strings. */
  predicate Contains(text: string, word: string)
  {
    exists i | 0 <= i <= |text| - |word| :: OccursAt(text, word, i)
  }

  /** `any(word in text for word in words)`. */
  predicate ContainsAny(text: string, words: seq<string>)
  {
    exists k :: 0 <= k < |words| && Contains(text, words[k])
  }

  /** A substring of a substring is a substring. */
  lemma ContainsTransitive(a: string, b: string, c: string)
    requires Contains(a, b) && Contains(b, c)
    ensures Contains(a, c)
  {
    var i :| 0 <= i <= |a| - |b| && OccursAt(a, b, i);
    var j :| 0 <= j <= |b| - |c| && OccursAt(b, c, j);
    forall k | 0 <= k < |c| ensures a[i + j + k] == c[k] {
      assert b[j + k] == c[k];
      assert a[i + (j + k)] == b[j + k];
    }
    assert OccursAt(a, c, i + j);
  }

  /** A word found in `b` is found in any text that has `b` inside it. */
  lemma ContainsWithin(a: string, b: string, c: string, word: string)
    requires Contains(b, word)
    ensures Contains(a + b + c, word)
  {
    var i :| 0 <= i <= |b| - |word| && OccursAt(b, word, i);
    var t := a + b + c;
    forall k | 0 <= k < |word| ensures t[|a| + i + k] == word[k] {
      assert b[i + k] == word[k];
    }
    assert OccursAt(t, word, |a| + i);
  }

  /** Lowercasing keeps every occurrence, lowercased. */
  lemma LowerContains(text: string, word: string)
    requires Contains(text, word)
    ensures Contains(Lower(text), Lower(word))
  {
    var i :| 0 <= i <= |text| - |word| && OccursAt(text, word, i);
    var l := Lower(text);
    forall k | 0 <= k < |word| ensures l[i + k] == Lower(word)[k] {
      assert text[i + k] == word[k];
    }
    assert OccursAt(l, Lower(word), i);
  }

  /** Keyword `words[k]` found in the text makes `ContainsAny` hold. */
  lemma ContainsAnyAt(text: string, words: seq<string>, k: nat)
    requires k < |words| && Contains(text, words[k])
    ensures ContainsAny(text, words)
  {
  }

  /** Index of the first row of an ordered keyword table with a keyword in
      `text`, or `|table|` when no row matches: the search that
      `for label, words in table.items(): if any(w in text ...): return label`
      performs. */
  function FirstMatch<L>(text: string, table: seq<(L, seq<string>)>): (k: nat)
    ensures k <= |table|
    ensures k < |table| ==> ContainsAny(text, table[k].1)
    ensures forall j :: 0 <= j < k ==> !ContainsAny(text, table[j].1)
    decreases |table|
  {
    if |table| == 0 then 0
    else if ContainsAny(text, table[0].1) then 0
    else 1 + FirstMatch(text, table[1..])
  }

  /** The label of the first matching row, or `default`. */
  function FirstLabel<L>(text: string, table: seq<(L, seq<string>)>, default: L): L
  {
    var k := FirstMatch(text, table);
    if k < |table| then table[k].0 else default
  }

  /** When row `k` is the first row with a keyword in the text, its label wins;
      when no row matches, the default is returned. */
  lemma FirstLabelIs<L>(text: string, table: seq<(L, seq<string>)>, default: L, k: nat)
    requires k <= |table|
    requires k < |table| ==> ContainsAny(text, table[k].1)
    requires forall j :: 0 <= j < k ==> !ContainsAny(text, table[j].1)
    ensures FirstLabel(text, table, default) == if k < |table| then table[k].0 else default
  {
  }

  /** `s.title()` for ASCII: a letter that follows a letter is lowercased, any
      other letter is capitalised, and non-letters are kept. */
  function Title(s: string): string
  {
    seq(|s|, i requires 0 <= i < |s| =>
      if IsLetter(s[i]) then
        (if i > 0 && IsLetter(s[i - 1]) then LowerChar(s[i]) else UpperChar(s[i]))
      else s[i])
  }

  /** Title-casing keeps the length, keeps every non-letter in place, and is
      idempotent. */
  lemma TitleProperties(s: string)
    ensures |Title(s)| == |s|
    ensures forall i :: 0 <= i < |s| ==> (IsLetter(Title(s)[i]) <==> IsLetter(s[i]))
    ensures forall i :: 0 <= i < |s| && !IsLetter(s[i]) ==> Title(s)[i] == s[i]
    ensures Title(Title(s)) == Title(s)
  {
    var t := Title(s);
    assert forall i :: 0 <= i < |s| ==> (IsLetter(t[i]) <==> IsLetter(s[i]));
    assert |Title(t)| == |t|;
    forall i | 0 <= i < |s| ensures Title(t)[i] == t[i] {
    }
  }

  /** Title-casing ignores the case it is given: "HIGH", "high" and "High"
      all become "High". */
  lemma TitleIgnoresCase(s: string)
    ensures Title(Lower(s)) == Title(s)
  {
    var l := Lower(s);
    forall i | 0 <= i < |s| ensures Title(l)[i] == Title(s)[i] {
      assert IsLetter(l[i]) <==> IsLetter(s[i]);
      if i > 0 {
        assert IsLetter(l[i - 1]) <==> IsLetter(s[i - 1]);
      }
    }
  }

  /** Whitespace as `str.strip()` removes it: the ASCII and C0 separator
      characters, NEL and NO-BREAK SPACE. */
  predicate IsSpace(c: char)
  {
    c == ' ' || '\t' <= c <= '\r' || '\U{1c}' <= c <= '\U{1f}' || c == '\U{85}' || c == '\U{a0}'
  }

  /** The end of the run of whitespace that starts at `from`. */
  function SpaceRunEnd(s: string, from: nat): (n: nat)
    requires from <= |s|
    ensures from <= n <= |s|
    ensures forall i :: from <= i < n ==> IsSpace(s[i])
    ensures n < |s| ==> !IsSpace(s[n])
    decreases |s| - from
  {
    if from < |s| && IsSpace(s[from]) then SpaceRunEnd(s, from + 1) else from
  }

  /** The start of the run of whitespace that ends at `upto`. */
  function SpaceRunStart(s: string, upto: nat): (n: nat)
    requires upto <= |s|
    ensures n <= upto
    ensures forall i :: n <= i < upto ==> IsSpace(s[i])
    ensures n > 0 ==> !IsSpace(s[n - 1])
  {
    if upto > 0 && IsSpace(s[upto - 1]) then SpaceRunStart(s, upto - 1) else upto
  }

  function StripLeading(s: string): (r: string)
    ensures |r| <= |s| && r == s[|s| - |r|..]
    ensures r == [] || !IsSpace(r[0])
    ensures forall i :: 0 <= i < |s| - |r| ==> IsSpace(s[i])
  {
    s[SpaceRunEnd(s, 0)..]
  }

  function StripTrailing(s: string): (r: string)
    ensures |r| <= |s| && r == s[..|r|]
    ensures r == [] || !IsSpace(r[|r| - 1])
    ensures forall i :: |r| <= i < |s| ==> IsSpace(s[i])
  {
    s[..SpaceRunStart(s, |s|)]
  }

  /** `s.strip()`: the result neither begins nor ends with whitespace, and it
      is empty exactly when `s` is all whitespace. */
  function Strip(s: string): (r: string)
    ensures |r| <= |s|
    ensures r == [] || (!IsSpace(r[0]) && !IsSpace(r[|r| - 1]))
    ensures r == [] <==> forall k :: 0 <= k < |s| ==> IsSpace(s[k])
  {
    var a := StripLeading(s);
    var r := StripTrailing(a);
    assert forall k :: 0 <= k < |a| ==> a[k] == s[|s| - |a| + k];
    r
  }

  /** Stripping twice is stripping once. */
  lemma StripIdempotent(s: string)
    ensures Strip(Strip(s)) == Strip(s)
  {
    var r := Strip(s);
    assert StripLeading(r) == r;
    assert StripTrailing(r) == r;
  }

  /** `sep.join(parts)`. */
  function Join(parts: seq<string>, sep: string): string
  {
    if |parts| == 0 then ""
    else if |parts| == 1 then parts[0]
    else parts[0] + sep + Join(parts[1..], sep)
  }

  /** `s.split(c)` for a one-character separator: always at least one piece. */
  function Split(s: string, c: char): (r: seq<string>)
    ensures |r| >= 1
  {
    if |s| == 0 then [""]
    else
      var rest := Split(s[1..], c);
      if s[0] == c then [""] + rest else [[s[0]] + rest[0]] + rest[1..]
  }

  lemma {:induction false} SplitPrefix(a: string, b: string, c: char)
    requires c !in a
    ensures Split(a + b, c) == [a + Split(b, c)[0]] + Split(b, c)[1..]
    decreases |a|
  {
    if |a| > 0 {
      assert (a + b)[0] == a[0] && (a + b)[1..] == a[1..] + b;
      SplitPrefix(a[1..], b, c);
      assert [a[0]] + (a[1..] + Split(b, c)[0]) == a + Split(b, c)[0];
    } else {
      assert a + b == b && a + Split(b, c)[0] == Split(b, c)[0];
      assert Split(b, c) == [Split(b, c)[0]] + Split(b, c)[1..];
    }
  }

  /** Splitting a join on its separator gives the parts back, provided no part
      contains the separator. */
  lemma {:induction false} SplitJoin(parts: seq<string>, c: char)
    requires |parts| >= 1
    requires forall k :: 0 <= k < |parts| ==> c !in parts[k]
    ensures Split(Join(parts, [c]), c) == parts
    decreases |parts|
  {
    if |parts| == 1 {
      SplitPrefix(parts[0], "", c);
      assert parts[0] + "" == parts[0];
    } else {
      var tail := Join(parts[1..], [c]);
      SplitJoin(parts[1..], c);
      assert Join(parts, [c]) == parts[0] + ([c] + tail);
      SplitPrefix(parts[0], [c] + tail, c);
      assert ([c] + tail)[1..] == tail;
      assert Split([c] + tail, c) == [""] + parts[1..];
      assert parts[0] + "" == parts[0];
    }
  }

  /** `s.replace(from, to)` for single characters. */
  function ReplaceChar(s: string, from: char, to: char): string
  {
    seq(|s|, i requires 0 <= i < |s| => if s[i] == from then to else s[i])
  }
}
