/**
 * Ticker normalisation: trim, upper-case, then drop one trailing exchange
 * suffix (".NS" for the National Stock Exchange, ".BO" for the Bombay Stock
 * Exchange). The same steps run in `get_stock_data` and in `add_stock`,
 * where the result is the key a holding is stored under.
 */
module Ticker {

  /** The characters Python's `str.strip()` removes (those for which `str.isspace()` holds). */
  predicate IsSpace(c: char) {
    c == ' ' || ('\t' <= c <= '\r') || ('\U{1c}' <= c <= '\U{1f}')
    || c == '\U{85}' || c == '\U{a0}' || c == '\U{1680}'
    || ('\U{2000}' <= c <= '\U{200a}') || c == '\U{2028}' || c == '\U{2029}'
    || c == '\U{202f}' || c == '\U{205f}' || c == '\U{3000}'
  }

  /** Leading whitespace removed: what is dropped is whitespace, what is kept is a suffix of `s`. */
  function TrimStart(s: string): (r: string)
    ensures |r| <= |s| && r == s[|s| - |r|..]
    ensures forall i :: 0 <= i < |s| - |r| ==> IsSpace(s[i])
    ensures r == [] || !IsSpace(r[0])
  {
    if s != [] && IsSpace(s[0]) then TrimStart(s[1..]) else s
  }

  /** Trailing whitespace removed: what is dropped is whitespace, what is kept is a prefix of `s`. */
  function TrimEnd(s: string): (r: string)
    ensures |r| <= |s| && r == s[..|r|]
    ensures forall i :: |r| <= i < |s| ==> IsSpace(s[i])
    ensures r == [] || !IsSpace(r[|r| - 1])
  {
    if s != [] && IsSpace(s[|s| - 1]) then TrimEnd(s[..|s| - 1]) else s
  }

  /** `r` sits in `s` at offset `i` with nothing but whitespace around it. */
  ghost predicate StrippedAt(s: string, r: string, i: int) {
    && 0 <= i && i + |r| <= |s|
    && s[i..i + |r|] == r
    && (forall k :: 0 <= k < i ==> IsSpace(s[k]))
    && (forall k :: i + |r| <= k < |s| ==> IsSpace(s[k]))
  }

  /** Python's `s.strip()`. */
  function Strip(s: string): (r: string)
    ensures r == [] || (!IsSpace(r[0]) && !IsSpace(r[|r| - 1]))
    ensures exists i :: StrippedAt(s, r, i)
  {
    var front := TrimStart(s);
    var r := TrimEnd(front);
    StripWitness(s, front, r);
    r
  }

  /** Whitespace dropped from the front and then from the back leaves the rest where it was. */
  lemma StripWitness(s: string, front: string, r: string)
    requires |front| <= |s| && front == s[|s| - |front|..]
    requires forall i :: 0 <= i < |s| - |front| ==> IsSpace(s[i])
    requires |r| <= |front| && r == front[..|r|]
    requires forall i :: |r| <= i < |front| ==> IsSpace(front[i])
    ensures StrippedAt(s, r, |s| - |front|)
  {
    var k := |s| - |front|;
    assert s[k..k + |r|] == r by {
      assert forall j :: 0 <= j < |r| ==> s[k + j] == front[j] == r[j];
    }
    forall i | k + |r| <= i < |s|
      ensures IsSpace(s[i])
    {
      assert s[i] == front[i - k];
    }
  }

  predicate IsLowerAscii(c: char) {
    'a' <= c <= 'z'
  }

  /** No character of `s` is a lower-case ASCII letter. */
  predicate NoLowerCase(s: string) {
    forall i :: 0 <= i < |s| ==> !IsLowerAscii(s[i])
  }

  /** Python's `upper()` on one character, for the ASCII letters (see README, "Left out"). */
  function UpperChar(c: char): char {
    if IsLowerAscii(c) then (c as int - 'a' as int + 'A' as int) as char else c
  }

  /** Python's `s.upper()`: the same length, each character upper-cased in place. */
  function Upper(s: string): (r: string)
    ensures |r| == |s|
    ensures forall i :: 0 <= i < |s| ==> r[i] == UpperChar(s[i])
    ensures NoLowerCase(r)
  {
    seq(|s|, i requires 0 <= i < |s| => UpperChar(s[i]))
  }

  predicate EndsWith(s: string, suffix: string) {
    |suffix| <= |s| && s[|s| - |suffix|..] == suffix
  }

  const NseSuffix: string := ".NS"
  const BseSuffix: string := ".BO"

  predicate HasExchangeSuffix(s: string) {
    EndsWith(s, NseSuffix) || EndsWith(s, BseSuffix)
  }

  /** The trimmed, upper-cased ticker, before any suffix is removed. */
  function Cleaned(raw: string): string {
    Upper(Strip(raw))
  }

  /** A base symbol as normalisation produces it: no leading whitespace, no lower-case letter. */
  predicate IsNormalForm(b: string) {
    (b == [] || !IsSpace(b[0])) && NoLowerCase(b)
  }

  /**
   * Removes exactly one trailing ".NS" or ".BO", or nothing when `t` carries
   * neither; never more than one, so "INFY.NS.NS" keeps its inner suffix.
   */
  function DropExchangeSuffix(t: string): (base: string)
    ensures HasExchangeSuffix(t) ==>
      |base| + 3 == |t| && base == t[..|base|] && t[|base|..] in {NseSuffix, BseSuffix}
    ensures !HasExchangeSuffix(t) ==> base == t
  {
    if HasExchangeSuffix(t) then
      t[..|t| - 3]
    else
      t
  }

  /** The base ticker: the cleaned ticker with its exchange suffix dropped. */
  function BaseSymbol(raw: string): string {
    DropExchangeSuffix(Cleaned(raw))
  }

  /** Every base ticker is in normal form, whatever the raw input. */
  lemma BaseSymbolIsNormalForm(raw: string)
    ensures IsNormalForm(BaseSymbol(raw))
  {
    var t := Cleaned(raw);
    CleanedIsNormalForm(raw);
    var b := BaseSymbol(raw);
    if HasExchangeSuffix(t) {
      assert b == t[..|t| - 3];
      NormalFormPrefix(t, |t| - 3);
    } else {
      assert b == t;
    }
  }

  /** Upper-casing never turns a non-space character into whitespace. */
  lemma UpperCharKeepsNonSpace(c: char)
    requires !IsSpace(c)
    ensures !IsSpace(UpperChar(c))
  {
  }

  lemma CleanedIsNormalForm(raw: string)
    ensures IsNormalForm(Cleaned(raw))
  {
    var s := Strip(raw);
    if s != [] {
      UpperCharKeepsNonSpace(s[0]);
    }
  }

  lemma NormalFormPrefix(t: string, n: nat)
    requires IsNormalForm(t) && n <= |t|
    ensures IsNormalForm(t[..n])
  {
  }

  /** Upper-casing leaves a string alone when it has no lower-case letter. */
  lemma {:induction false} UpperKeepsUpper(s: string)
    requires NoLowerCase(s)
    ensures Upper(s) == s
  {
    var u := Upper(s);
    assert forall i :: 0 <= i < |s| ==> u[i] == s[i];
  }

  /**
   * Normalisation undoes qualification: a base symbol with ".NS" or ".BO"
   * appended normalises back to that base symbol. This is why a holding
   * saved with symbol "TCS.NS" is looked up again under base "TCS".
   */
  lemma {:induction false} QualifiedNormalisesToBase(b: string, suffix: string)
    requires IsNormalForm(b)
    requires suffix == NseSuffix || suffix == BseSuffix
    ensures BaseSymbol(b + suffix) == b
  {
    QualifiedIsClean(b, suffix);
    QualifiedDropsSuffix(b, suffix);
  }

  /** A normal-form base with a suffix appended is already trimmed and upper-case. */
  lemma QualifiedIsClean(b: string, suffix: string)
    requires IsNormalForm(b)
    requires suffix == NseSuffix || suffix == BseSuffix
    ensures Cleaned(b + suffix) == b + suffix
  {
    var u := b + suffix;
    assert !IsSpace(suffix[0]) && !IsSpace(suffix[2]);
    assert NoLowerCase(suffix) by {
      assert !IsLowerAscii(suffix[0]) && !IsLowerAscii(suffix[1]) && !IsLowerAscii(suffix[2]);
    }
    NoLowerCaseConcat(b, suffix);
    UpperKeepsUpper(u);
  }

  lemma NoLowerCaseConcat(a: string, b: string)
    requires NoLowerCase(a) && NoLowerCase(b)
    ensures NoLowerCase(a + b)
  {
    forall i | 0 <= i < |a + b|
      ensures !IsLowerAscii((a + b)[i])
    {
      if i < |a| {
        assert (a + b)[i] == a[i];
      } else {
        assert (a + b)[i] == b[i - |a|];
      }
    }
  }

  /** Appending a suffix and dropping it again gives the original string. */
  lemma QualifiedDropsSuffix(b: string, suffix: string)
    requires suffix == NseSuffix || suffix == BseSuffix
    ensures DropExchangeSuffix(b + suffix) == b
  {
    var u := b + suffix;
    assert u[|u| - 3..] == suffix;
    assert HasExchangeSuffix(u);
    assert u[..|u| - 3] == b;
  }

  /**
   * Exactly one suffix is removed: a doubly suffixed ticker keeps its inner
   * suffix, so "INFY.NS.NS" normalises to "INFY.NS".
   */
  lemma {:induction false} OnlyOneSuffixRemoved(b: string, inner: string, outer: string)
    requires IsNormalForm(b)
    requires inner == NseSuffix || inner == BseSuffix
    requires outer == NseSuffix || outer == BseSuffix
    ensures BaseSymbol(b + inner + outer) == b + inner
  {
    var q := b + inner;
    assert NoLowerCase(inner) by {
      assert !IsLowerAscii(inner[0]) && !IsLowerAscii(inner[1]) && !IsLowerAscii(inner[2]);
    }
    NoLowerCaseConcat(b, inner);
    assert q[0] == if b == [] then inner[0] else b[0];
    assert IsNormalForm(q);
    QualifiedNormalisesToBase(q, outer);
  }

  /**
   * A lower-case ticker typed with blanks around it and a lower-case ".bo"
   * suffix normalises to its upper-cased base: `" infy.bo "` gives "INFY",
   * the key `add_stock` stores it under.
   */
  lemma {:induction false} LowerCaseSuffixRemoved(b: string)
    requires b == [] || !IsSpace(b[0])
    ensures BaseSymbol(" " + b + ".bo ") == Upper(b)
  {
    PaddedLowerCleans(b);
    QualifiedDropsSuffix(Upper(b), BseSuffix);
  }

  /** Trimming and upper-casing `" " + b + ".bo "` gives the upper-cased base with ".BO". */
  lemma PaddedLowerCleans(b: string)
    requires b == [] || !IsSpace(b[0])
    ensures Cleaned(" " + b + ".bo ") == Upper(b) + BseSuffix
  {
    var y := b + ".bo";
    assert " " + b + ".bo " == " " + y + " ";
    assert y[0] == if b == [] then '.' else b[0];
    assert y[|y| - 1] == 'o';
    PaddedStrip(y);
    UpperConcat(b, ".bo");
    UpperBo();
  }

  lemma UpperBo()
    ensures Upper(".bo") == BseSuffix
  {
    assert UpperChar('.') == '.' && UpperChar('b') == 'B' && UpperChar('o') == 'O';
  }

  /** One blank on either side of a string with non-blank ends is exactly what stripping removes. */
  lemma {:induction false} PaddedStrip(y: string)
    requires y != [] && !IsSpace(y[0]) && !IsSpace(y[|y| - 1])
    ensures Strip(" " + y + " ") == y
  {
    var s := " " + y + " ";
    var t := y + " ";
    assert s[0] == ' ' && s[1..] == t;
    assert t[0] == y[0];
    assert TrimStart(t) == t;
    assert TrimStart(s) == t;
    assert t[|t| - 1] == ' ' && t[..|t| - 1] == y;
    assert TrimEnd(y) == y;
    assert TrimEnd(t) == y;
  }

  /** Upper-casing works character by character, so it distributes over concatenation. */
  lemma UpperConcat(a: string, c: string)
    ensures Upper(a + c) == Upper(a) + Upper(c)
  {
    var l := Upper(a + c);
    var r := Upper(a) + Upper(c);
    forall i | 0 <= i < |a + c|
      ensures l[i] == r[i]
    {
      if i < |a| {
        assert (a + c)[i] == a[i];
      } else {
        assert (a + c)[i] == c[i - |a|];
      }
    }
  }
}
