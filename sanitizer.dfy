/**
 * The two deletion passes of `_clean_xml` in tally_mcp.py: first every
 * numeric character reference matched by the illegal-reference pattern is
 * removed, then every raw control character that XML 1.0 forbids.
 */
module Sanitizer {
  import opened Text
  import Seqs

  /** The raw-character class `[\x00-\x08\x0b\x0c\x0e-\x1f]`. */
  predicate IllegalRaw(c: char) {
    c <= '\U{08}' || c == '\U{0B}' || c == '\U{0C}' || '\U{0E}' <= c <= '\U{1F}'
  }

  predicate LegalRaw(c: char) {
    !IllegalRaw(c)
  }

  /** The code points whose numeric references the first pass deletes. */
  predicate IllegalCode(n: nat) {
    n <= 8 || n == 10 || n == 11 || 14 <= n <= 31
  }

  /** The characters a numeric reference is made of. */
  predicate RefChar(c: char) {
    c == '&' || c == '#' || c == ';' || IsDigit(c)
  }

  /** The two-digit alternatives `1[0-1]`, `1[4-9]`, `2[0-9]` and `3[01]`. */
  predicate TwoDigitIllegal(a: char, b: char) {
    (a == '1' && (b == '0' || b == '1' || '4' <= b <= '9'))
    || (a == '2' && IsDigit(b))
    || (a == '3' && (b == '0' || b == '1'))
  }

  /**
   * The length of the match of `&#([0-8]|1[0-1]|1[4-9]|2[0-9]|3[01]);` at the
   * start of `s`, or 0 when it does not match there. The one-digit alternative
   * is tried first, as the regular-expression engine does.
   */
  function RefLength(s: string): (k: nat)
    ensures k == 0 || k == 4 || k == 5
    ensures k <= |s|
    ensures k > 0 ==> s[0] == '&' && s[1] == '#' && s[k - 1] == ';'
    ensures k > 0 ==> AllDigits(s[2..k - 1]) && IllegalCode(DigitsValue(s[2..k - 1]))
    ensures forall i :: 0 <= i < k ==> RefChar(s[i])
  {
    if |s| >= 4 && s[0] == '&' && s[1] == '#' && '0' <= s[2] <= '8' && s[3] == ';' then
      assert s[2..3][..0] == [];
      4
    else if |s| >= 5 && s[0] == '&' && s[1] == '#' && TwoDigitIllegal(s[2], s[3]) && s[4] == ';' then
      TwoDigitsValue(s[2..4]);
      5
    else 0
  }

  lemma TwoDigitsValue(t: string)
    requires |t| == 2 && AllDigits(t)
    ensures DigitsValue(t) == (t[0] as int - '0' as int) * 10 + (t[1] as int - '0' as int)
  {
    var head := t[..1];
    assert head[..0] == [] && head[0] == t[0];
    assert DigitsValue(head) == t[0] as int - '0' as int;
  }

  lemma OneDigitRef(c: char, rest: string)
    requires '0' <= c <= '8'
    ensures RefLength(['&', '#', c, ';'] + rest) == 4
  {
  }

  lemma TwoDigitRef(a: char, b: char, rest: string)
    requires TwoDigitIllegal(a, b)
    ensures RefLength(['&', '#', a, b, ';'] + rest) == 5
  {
  }

  lemma TensDigits(n: nat)
    requires IllegalCode(n) && n >= 10
    ensures TwoDigitIllegal(DigitChar(n / 10), DigitChar(n % 10))
  {
    if n < 20 {
      assert n / 10 == 1 && n % 10 == n - 10;
    } else if n < 30 {
      assert n / 10 == 2 && n % 10 == n - 20;
    } else {
      assert n / 10 == 3 && n % 10 == n - 30;
    }
  }

  /**
   * Conversely, the canonical reference to every code in the illegal set is
   * matched in full.
   */
  lemma RefOfIllegalCode(n: nat, rest: string)
    requires IllegalCode(n)
    ensures RefLength("&#" + NatToDecimal(n) + ";" + rest) == 3 + |NatToDecimal(n)|
  {
    if n < 10 {
      OneDigitCode(n, rest);
    } else {
      TwoDigitCode(n, rest);
    }
  }

  lemma OneDigitCode(n: nat, rest: string)
    requires n <= 8
    ensures |NatToDecimal(n)| == 1 && RefLength("&#" + NatToDecimal(n) + ";" + rest) == 4
  {
    var d := NatToDecimal(n);
    assert d == [DigitChar(n)];
    assert "&#" + d + ";" + rest == ['&', '#', DigitChar(n), ';'] + rest;
    OneDigitRef(DigitChar(n), rest);
  }

  lemma TwoDigitCode(n: nat, rest: string)
    requires IllegalCode(n) && n >= 10
    ensures |NatToDecimal(n)| == 2 && RefLength("&#" + NatToDecimal(n) + ";" + rest) == 5
  {
    var d := NatToDecimal(n);
    var hi, lo := n / 10, n % 10;
    TensDigits(n);
    assert d == [DigitChar(hi)] + [DigitChar(lo)];
    assert "&#" + d + ";" + rest == ['&', '#', DigitChar(hi), DigitChar(lo), ';'] + rest;
    TwoDigitRef(DigitChar(hi), DigitChar(lo), rest);
  }

  /** The first pass: `re.sub` of the reference pattern, scanning left to right. */
  function StripRefs(s: string): (r: string)
    decreases |s|
  {
    if s == [] then []
    else if RefLength(s) > 0 then StripRefs(s[RefLength(s)..])
    else [s[0]] + StripRefs(s[1..])
  }

  /** The second pass: `re.sub` of the raw-character class. */
  function StripRaw(s: string): (r: string) {
    Seqs.Filter(s, LegalRaw)
  }

  /**
   * `_clean_xml`: the result holds no forbidden raw control character and is
   * never longer than the input.
   */
  function CleanXml(raw: string): (r: string)
    ensures |r| <= |raw|
    ensures forall i :: 0 <= i < |r| ==> !IllegalRaw(r[i])
  {
    var refsGone := StripRefs(raw);
    StripRefsSubsequence(raw);
    Seqs.SubsequenceShorter(refsGone, raw);
    var r := StripRaw(refsGone);
    assert forall i :: 0 <= i < |r| ==> r[i] in r;
    r
  }

  lemma {:induction false} StripRefsSubsequence(s: string)
    ensures Seqs.IsSubsequence(StripRefs(s), s)
    decreases |s|
  {
    if s != [] {
      var k := RefLength(s);
      if k > 0 {
        StripRefsSubsequence(s[k..]);
        Seqs.SubsequenceOfSuffix(StripRefs(s[k..]), s, k);
      } else {
        StripRefsSubsequence(s[1..]);
        Seqs.SubsequenceCons(s[0], StripRefs(s[1..]), s);
      }
    }
  }

  /** `_clean_xml` only deletes: what is left appears in the input, in the same order. */
  lemma CleanXmlSubsequence(raw: string)
    ensures Seqs.IsSubsequence(CleanXml(raw), raw)
  {
    StripRefsSubsequence(raw);
    Seqs.FilterIsSubsequence(StripRefs(raw), LegalRaw);
    Seqs.SubsequenceTransitive(CleanXml(raw), StripRefs(raw), raw);
  }

  lemma {:induction false} NoRefCharsOutside(s: string, k: nat, c: char)
    requires k <= |s|
    requires forall i :: 0 <= i < k ==> RefChar(s[i])
    requires !RefChar(c)
    ensures multiset(s)[c] == multiset(s[k..])[c]
    decreases k
  {
    if k > 0 {
      assert s == [s[0]] + s[1..];
      assert s[1..][k - 1..] == s[k..];
      NoRefCharsOutside(s[1..], k - 1, c);
    }
  }

  /** The reference pass never removes a character that cannot be part of a reference. */
  lemma {:induction false} StripRefsKeeps(s: string, c: char)
    requires !RefChar(c)
    ensures multiset(StripRefs(s))[c] == multiset(s)[c]
    decreases |s|
  {
    if s != [] {
      var k := RefLength(s);
      if k > 0 {
        StripRefsKeeps(s[k..], c);
        NoRefCharsOutside(s, k, c);
      } else {
        StripRefsKeeps(s[1..], c);
        assert s == [s[0]] + s[1..];
      }
    }
  }

  /** Tab, line feed and carriage return survive both passes, every occurrence of them. */
  lemma CleanXmlKeepsWhitespace(raw: string, c: char)
    requires c == '\t' || c == '\n' || c == '\r'
    ensures multiset(CleanXml(raw))[c] == multiset(raw)[c]
  {
    StripRefsKeeps(raw, c);
    Seqs.FilterCount(StripRefs(raw), LegalRaw, c);
  }

  /** The raw-character pass alone is idempotent. */
  lemma StripRawIdempotent(s: string)
    ensures StripRaw(StripRaw(s)) == StripRaw(s)
  {
    Seqs.FilterIdempotent(s, LegalRaw);
  }

  /**
   * `_clean_xml` as a whole is not idempotent: deleting the inner `&#4;` of
   * `&#&#4;4;` joins the remaining characters into a new illegal reference.
   */
  lemma CleanXmlNotIdempotent()
    ensures CleanXml("&#&#4;4;") == "&#4;"
    ensures CleanXml(CleanXml("&#&#4;4;")) == ""
  {
    var s := "&#&#4;4;";
    assert RefLength(s) == 0;
    assert s[1..] == "#&#4;4;";
    assert RefLength(s[1..]) == 0;
    assert s[1..][1..] == "&#4;4;";
    assert RefLength("&#4;4;") == 4;
    assert "&#4;4;"[4..] == "4;";
    assert StripRefs("4;") == "4;" by {
      assert RefLength("4;") == 0;
      assert "4;"[1..] == ";";
      assert RefLength(";") == 0;
      assert ";"[1..] == [];
    }
    assert StripRefs(s) == "&#4;";
    StripRawNoControl("&#4;");
    assert StripRefs("&#4;") == [] by {
      assert RefLength("&#4;") == 4;
      assert "&#4;"[4..] == [];
    }
    assert StripRaw([]) == [];
  }

  lemma StripRawNoControl(s: string)
    requires forall i :: 0 <= i < |s| ==> LegalRaw(s[i])
    ensures StripRaw(s) == s
  {
    if s != [] {
      StripRawNoControl(s[1..]);
      assert s == [s[0]] + s[1..];
    }
  }

  /**
   * The reference pattern deletes `&#10;` and `&#11;` but keeps `&#9;`,
   * `&#12;` and `&#13;`, although XML 1.0 allows only code points 9, 10 and
   * 13 among the control characters.
   */
  lemma ReferenceCases()
    ensures RefLength("&#10;") == 5 && RefLength("&#11;") == 5
    ensures RefLength("&#9;") == 0 && RefLength("&#12;") == 0 && RefLength("&#13;") == 0
  {
  }

  /**
   * A leading zero or the hexadecimal form hides an illegal code from the
   * reference pattern: `&#04;` and `&#x4;` are kept, though XML 1.0 forbids
   * both like `&#12;` and `&#13;`.
   */
  lemma PaddedAndHexKept()
    ensures RefLength("&#04;") == 0 && RefLength("&#x4;") == 0
    ensures StripRefs("a&#04;b") == "a&#04;b" && StripRefs("a&#x4;b") == "a&#x4;b"
  {
    var padded, hex := "a&#04;b", "a&#x4;b";
    forall i | 0 <= i < |padded| ensures RefLength(padded[i..]) == 0 {
      assert padded[i..][0] == padded[i];
      if i == 1 {
        assert padded[i..][2] == '0' && padded[i..][3] == '4';
      }
    }
    forall i | 0 <= i < |hex| ensures RefLength(hex[i..]) == 0 {
      assert hex[i..][0] == hex[i];
      if i == 1 {
        assert hex[i..][2] == 'x';
      }
    }
    StripRefsNoRef(padded);
    StripRefsNoRef(hex);
  }

  /** Text in which no position starts a reference passes the first pass unchanged. */
  lemma {:induction false} StripRefsNoRef(s: string)
    requires forall i :: 0 <= i < |s| ==> RefLength(s[i..]) == 0
    ensures StripRefs(s) == s
    decreases |s|
  {
    if s != [] {
      assert RefLength(s[0..]) == 0 && s[0..] == s;
      forall i | 0 <= i < |s[1..]| ensures RefLength(s[1..][i..]) == 0 {
        assert s[1..][i..] == s[i + 1..];
      }
      StripRefsNoRef(s[1..]);
    }
  }
}
