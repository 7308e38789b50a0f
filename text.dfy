/**
 * The string operations of the JavaScript runtime that the action relies on:
 * `String.prototype.trim`, splitting on the regular expression `\s+`, ASCII
 * case-insensitive comparison, splitting on '/', and decimal conversion of
 * integers (`JSON.stringify` of a number and a strict `parseInt`).
 */
module Text {
  import opened Results

  /** The WhiteSpace and LineTerminator characters of ECMAScript: what `trim` removes and `\s` matches. */
  predicate IsSpace(c: char) {
    || c == ' ' || c == '\t' || c == '\n' || c == '\U{000B}' || c == '\U{000C}' || c == '\r'
    || c == '\U{00A0}' || c == '\U{1680}' || ('\U{2000}' <= c <= '\U{200A}')
    || c == '\U{2028}' || c == '\U{2029}' || c == '\U{202F}' || c == '\U{205F}'
    || c == '\U{3000}' || c == '\U{FEFF}'
  }

  predicate NoSpace(s: string) {
    forall i :: 0 <= i < |s| ==> !IsSpace(s[i])
  }

  predicate AllSpace(s: string) {
    forall i :: 0 <= i < |s| ==> IsSpace(s[i])
  }

  /** The number of whitespace characters at the start of `s`. */
  function LeadingSpaces(s: string): (k: nat)
    ensures k <= |s|
    ensures AllSpace(s[..k])
    ensures k < |s| ==> !IsSpace(s[k])
  {
    if s != [] && IsSpace(s[0]) then 1 + LeadingSpaces(s[1..]) else 0
  }

  /** The length of `s` without its trailing whitespace. */
  function ContentEnd(s: string): (k: nat)
    ensures k <= |s|
    ensures AllSpace(s[k..])
    ensures 0 < k ==> !IsSpace(s[k - 1])
  {
    if s != [] && IsSpace(s[|s| - 1]) then
      var k := ContentEnd(s[..|s| - 1]);
      assert s[..|s| - 1][k..] + [s[|s| - 1]] == s[k..];
      k
    else
      |s|
  }

  /** `s.trim()`: `s` without leading and trailing whitespace. */
  function Trim(s: string): (r: string)
    ensures |r| <= |s|
    ensures r == [] || (!IsSpace(r[0]) && !IsSpace(r[|r| - 1]))
    ensures r == [] <==> AllSpace(s)
  {
    var i := LeadingSpaces(s);
    var t := s[i..];
    var j := ContentEnd(t);
    assert s == s[..i] + t;
    assert AllSpace(s) ==> AllSpace(t) && j == 0;
    assert j == 0 ==> AllSpace(s) by {
      if j == 0 {
        assert t[j..] == t;
        assert i == |s|;
        assert s[..i] == s;
      }
    }
    t[..j]
  }

  /** The characters of `s` that are not whitespace, in order. */
  function RemoveSpaces(s: string): string {
    if s == [] then []
    else (if IsSpace(s[0]) then [] else [s[0]]) + RemoveSpaces(s[1..])
  }

  lemma {:induction false} RemoveSpacesAppend(a: string, b: string)
    ensures RemoveSpaces(a + b) == RemoveSpaces(a) + RemoveSpaces(b)
  {
    if a != [] {
      assert (a + b)[0] == a[0];
      assert (a + b)[1..] == a[1..] + b;
      RemoveSpacesAppend(a[1..], b);
      assert RemoveSpaces(a) + RemoveSpaces(b)
        == (if IsSpace(a[0]) then [] else [a[0]]) + (RemoveSpaces(a[1..]) + RemoveSpaces(b));
    } else {
      assert a + b == b;
    }
  }

  lemma {:induction false} RemoveSpacesEmpty(s: string)
    ensures RemoveSpaces(s) == [] <==> AllSpace(s)
  {
    if s != [] {
      RemoveSpacesEmpty(s[1..]);
      if AllSpace(s[1..]) && IsSpace(s[0]) {
        forall i | 0 <= i < |s| ensures IsSpace(s[i]) {
          if i > 0 { assert s[i] == s[1..][i - 1]; }
        }
      }
    }
  }

  lemma {:induction false} RemoveSpacesOfNoSpace(s: string)
    requires NoSpace(s)
    ensures RemoveSpaces(s) == s
  {
    if s != [] {
      RemoveSpacesOfNoSpace(s[1..]);
    }
  }

  lemma {:induction false} RemoveSpacesOfAllSpace(s: string)
    requires AllSpace(s)
    ensures RemoveSpaces(s) == []
  {
    RemoveSpacesEmpty(s);
  }

  /** Trimming never drops a non-whitespace character. */
  lemma TrimKeepsContent(s: string)
    ensures RemoveSpaces(Trim(s)) == RemoveSpaces(s)
  {
    var i := LeadingSpaces(s);
    var t := s[i..];
    var j := ContentEnd(t);
    var lead, body, tail := s[..i], t[..j], t[j..];
    assert Trim(s) == body;
    assert s == lead + t;
    assert t == body + tail;
    RemoveSpacesAppend(lead, t);
    RemoveSpacesAppend(body, tail);
    RemoveSpacesOfAllSpace(lead);
    RemoveSpacesOfAllSpace(tail);
    assert RemoveSpaces(s) == RemoveSpaces(t) == RemoveSpaces(body) + [];
  }

  /** A string that starts and ends with non-whitespace is its own trim. */
  lemma TrimOfTrimmed(s: string)
    requires s == [] || (!IsSpace(s[0]) && !IsSpace(s[|s| - 1]))
    ensures Trim(s) == s
  {
    if s != [] {
      var i := LeadingSpaces(s);
      assert i == 0;
      var j := ContentEnd(s);
      assert j == |s|;
    }
  }

  /** Trimming `a + s + b` with `a` and `b` whitespace and `s` already trimmed leaves `s`. */
  lemma TrimAround(a: string, s: string, b: string)
    requires AllSpace(a) && AllSpace(b)
    requires s != [] && !IsSpace(s[0]) && !IsSpace(s[|s| - 1])
    ensures Trim(a + s + b) == s
  {
    var x := a + s + b;
    var i := LeadingSpaces(x);
    assert x[|a|] == s[0];
    assert AllSpace(x[..|a|]);
    assert i == |a|;
    var t := x[i..];
    assert t == s + b;
    var j := ContentEnd(t);
    assert t[|s| - 1] == s[|s| - 1];
    assert AllSpace(t[|s|..]);
    assert j == |s|;
    assert t[..j] == s;
  }

  /** The length of the non-whitespace run at the start of `s`. */
  function WordEnd(s: string): (n: nat)
    ensures n <= |s|
    ensures NoSpace(s[..n])
    ensures n < |s| ==> IsSpace(s[n])
  {
    if s != [] && !IsSpace(s[0]) then 1 + WordEnd(s[1..]) else 0
  }

  /** The maximal runs of non-whitespace characters of `s`, in order. */
  function Words(s: string): (r: seq<string>)
    ensures forall i :: 0 <= i < |r| ==> r[i] != [] && NoSpace(r[i])
    decreases |s|
  {
    if s == [] then []
    else if IsSpace(s[0]) then Words(s[1..])
    else
      var n := WordEnd(s);
      [s[..n]] + Words(s[n..])
  }

  /** The concatenation of a list of strings. */
  function Concat(ts: seq<string>): string {
    if ts == [] then [] else ts[0] + Concat(ts[1..])
  }

  /** The words of `s` are exactly its non-whitespace characters, in order. */
  lemma {:induction false} WordsContents(s: string)
    ensures Concat(Words(s)) == RemoveSpaces(s)
    decreases |s|
  {
    if s != [] {
      if IsSpace(s[0]) {
        WordsContents(s[1..]);
      } else {
        var n := WordEnd(s);
        var w := Words(s);
        assert w == [s[..n]] + Words(s[n..]);
        assert w[1..] == Words(s[n..]);
        WordsContents(s[n..]);
        assert s == s[..n] + s[n..];
        RemoveSpacesAppend(s[..n], s[n..]);
        RemoveSpacesOfNoSpace(s[..n]);
      }
    }
  }

  /** A string with a non-whitespace character has at least one word. */
  lemma WordsNonEmpty(s: string)
    requires !AllSpace(s)
    ensures Words(s) != []
  {
    WordsContents(s);
    RemoveSpacesEmpty(s);
  }

  /** A word that ends where whitespace (or the end of the text) begins ends at the same place when that text follows. */
  lemma {:induction false} WordEndAppend(a: string, b: string)
    requires b == [] || IsSpace(b[0])
    ensures WordEnd(a + b) == WordEnd(a)
    decreases |a|
  {
    if a == [] {
      assert a + b == b;
    } else if !IsSpace(a[0]) {
      assert (a + b)[0] == a[0];
      assert (a + b)[1..] == a[1..] + b;
      WordEndAppend(a[1..], b);
    } else {
      assert (a + b)[0] == a[0];
    }
  }

  /** Leading whitespace contributes no word. */
  lemma {:induction false} WordsSkipSpaces(a: string, b: string)
    requires AllSpace(a)
    ensures Words(a + b) == Words(b)
    decreases |a|
  {
    if a != [] {
      assert (a + b)[0] == a[0];
      assert (a + b)[1..] == a[1..] + b;
      WordsSkipSpaces(a[1..], b);
    } else {
      assert a + b == b;
    }
  }

  /**
   * Words never span whitespace: the words of `a + b`, where `b` is empty or
   * starts with whitespace, are the words of `a` followed by those of `b`.
   * So every word is a maximal run of non-whitespace characters.
   */
  lemma {:induction false} WordsSplit(a: string, b: string)
    requires b == [] || IsSpace(b[0])
    ensures Words(a + b) == Words(a) + Words(b)
    decreases |a|
  {
    if a == [] {
      assert a + b == b;
    } else if IsSpace(a[0]) {
      assert (a + b)[0] == a[0];
      assert (a + b)[1..] == a[1..] + b;
      WordsSplit(a[1..], b);
    } else {
      assert (a + b)[0] == a[0];
      WordEndAppend(a, b);
      var n := WordEnd(a);
      assert (a + b)[..n] == a[..n];
      assert (a + b)[n..] == a[n..] + b;
      WordsSplit(a[n..], b);
    }
  }

  /** A non-empty string without whitespace is a single word. */
  lemma WordsOfWord(w: string)
    requires w != [] && NoSpace(w)
    ensures Words(w) == [w]
  {
    WordEndAppend(w, []);
    assert w + [] == w;
    var n := WordEnd(w);
    assert n == |w|;
    assert w[n..] == [];
  }

  /** Trimming does not change the words. */
  lemma WordsOfTrim(s: string)
    ensures Words(Trim(s)) == Words(s)
  {
    var i := LeadingSpaces(s);
    var t := s[i..];
    var j := ContentEnd(t);
    var lead, body, tail := s[..i], t[..j], t[j..];
    assert Trim(s) == body;
    assert s == lead + (body + tail);
    WordsSkipSpaces(lead, body + tail);
    assert tail == [] || IsSpace(tail[0]);
    WordsSplit(body, tail);
    WordsSkipSpaces(tail, []);
    assert tail + [] == tail;
  }

  /** The strings of `ts` separated by single spaces. */
  function JoinWords(ts: seq<string>): string {
    if |ts| == 0 then ""
    else if |ts| == 1 then ts[0]
    else ts[0] + " " + JoinWords(ts[1..])
  }

  lemma WordEndOfWord(a: string, b: string)
    requires NoSpace(a)
    requires b == [] || IsSpace(b[0])
    ensures WordEnd(a + b) == |a|
  {
    var n := WordEnd(a + b);
    assert forall k :: 0 <= k < |a| ==> (a + b)[k] == a[k];
    assert |a| < |a + b| ==> (a + b)[|a|] == b[0];
  }

  /** Separating words by single spaces and splitting again gives back the words. */
  lemma {:induction false} WordsOfJoin(ts: seq<string>)
    requires forall i :: 0 <= i < |ts| ==> ts[i] != [] && NoSpace(ts[i])
    ensures Words(JoinWords(ts)) == ts
  {
    if |ts| == 1 {
      WordEndOfWord(ts[0], []);
      assert ts[0] + [] == ts[0];
      assert JoinWords(ts)[|ts[0]|..] == [];
    } else if |ts| > 1 {
      var s := JoinWords(ts);
      var rest := JoinWords(ts[1..]);
      assert s == ts[0] + (" " + rest);
      WordEndOfWord(ts[0], " " + rest);
      assert s[..|ts[0]|] == ts[0];
      assert s[|ts[0]|..] == " " + rest;
      assert (" " + rest)[1..] == rest;
      WordsOfJoin(ts[1..]);
    }
  }

  lemma {:induction false} JoinWordsEnds(ts: seq<string>)
    requires forall i :: 0 <= i < |ts| ==> ts[i] != [] && NoSpace(ts[i])
    ensures var s := JoinWords(ts); s == [] || (!IsSpace(s[0]) && !IsSpace(s[|s| - 1]))
    ensures ts != [] ==> JoinWords(ts) != []
  {
    if |ts| > 1 {
      JoinWordsEnds(ts[1..]);
      var rest := JoinWords(ts[1..]);
      assert JoinWords(ts) == ts[0] + (" " + rest);
    }
  }

  /** Lower-case of an ASCII letter; every other character is unchanged. */
  function LowerAscii(c: char): char {
    if 'A' <= c <= 'Z' then (c as int + 32) as char else c
  }

  /** `s` with every ASCII letter in lower case. */
  function Lower(s: string): (r: string)
    ensures |r| == |s|
    ensures forall i :: 0 <= i < |s| ==> r[i] == LowerAscii(s[i])
  {
    seq(|s|, i requires 0 <= i < |s| => LowerAscii(s[i]))
  }

  /** Equality up to ASCII case, as a regular expression with the `i` flag compares. */
  predicate EqualsIgnoreCase(a: string, b: string) {
    |a| == |b| && forall i :: 0 <= i < |a| ==> LowerAscii(a[i]) == LowerAscii(b[i])
  }

  /** The position of the first `c` in `s`, or `|s|` when there is none. */
  function IndexOf(s: string, c: char): (i: nat)
    ensures i <= |s|
    ensures forall j :: 0 <= j < i ==> s[j] != c
    ensures i < |s| ==> s[i] == c
  {
    if s == [] || s[0] == c then 0 else 1 + IndexOf(s[1..], c)
  }

  lemma IndexOfAfter(a: string, b: string, c: char)
    requires forall j :: 0 <= j < |a| ==> a[j] != c
    requires b == [] || b[0] == c
    ensures IndexOf(a + b, c) == |a|
  {
    var i := IndexOf(a + b, c);
    assert forall k :: 0 <= k < |a| ==> (a + b)[k] == a[k];
    assert |a| < |a + b| ==> (a + b)[|a|] == b[0];
  }

  predicate IsDigit(c: char) {
    '0' <= c <= '9'
  }

  predicate AllDigits(s: string) {
    forall i :: 0 <= i < |s| ==> IsDigit(s[i])
  }

  function DigitChar(d: nat): (c: char)
    requires d < 10
    ensures IsDigit(c)
  {
    ('0' as int + d) as char
  }

  /** The decimal representation of `n` (`JSON.stringify` of a non-negative integer). */
  function NatToString(n: nat): (s: string)
    ensures s != [] && AllDigits(s)
    decreases n
  {
    if n < 10 then [DigitChar(n)] else NatToString(n / 10) + [DigitChar(n % 10)]
  }

  /** The value of a string of decimal digits. */
  function DigitsValue(s: string): nat
    requires AllDigits(s)
  {
    if s == [] then 0 else 10 * DigitsValue(s[..|s| - 1]) + (s[|s| - 1] as int - '0' as int)
  }

  /** `parseInt` restricted to plain decimal strings; `None` stands for `NaN`. */
  function ParseDecimal(s: string): Option<nat> {
    if s != [] && AllDigits(s) then Some(DigitsValue(s)) else None
  }

  /** Reading back a persisted decimal gives the number that was written. */
  lemma {:induction false} ParseDecimalOfNatToString(n: nat)
    ensures ParseDecimal(NatToString(n)) == Some(n)
    decreases n
  {
    var s := NatToString(n);
    if n >= 10 {
      ParseDecimalOfNatToString(n / 10);
      var p := NatToString(n / 10);
      assert s == p + [DigitChar(n % 10)];
      assert s[..|s| - 1] == p;
      assert s[|s| - 1] as int - '0' as int == n % 10;
      assert DigitsValue(s) == 10 * (n / 10) + n % 10;
    }
  }
}
