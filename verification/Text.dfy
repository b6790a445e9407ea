/** Text normalisation, for ASCII text. */
module Text {
  predicate IsSpace(c: char) {
    c == ' ' || '\t' <= c <= '\r'
  }

  function TrimLeft(s: string): string {
    if s != [] && IsSpace(s[0]) then TrimLeft(s[1..]) else s
  }

  function TrimRight(s: string): string {
    if s != [] && IsSpace(s[|s| - 1]) then TrimRight(s[..|s| - 1]) else s
  }

  function TrimSpace(s: string): string {
    TrimRight(TrimLeft(s))
  }

  function Lower(c: char): char {
    if 'A' <= c <= 'Z' then c - 'A' + 'a' else c
  }

  function ToLower(s: string): string {
    seq(|s|, i requires 0 <= i < |s| => Lower(s[i]))
  }

  function Digits(n: nat): string {
    var last := [('0' as int + n % 10) as char];
    if n < 10 then last else Digits(n / 10) + last
  }

  /** Decimal notation. */
  function Decimal(n: int): string {
    if n < 0 then "-" + Digits(-n) else Digits(n)
  }

  // ---------- What trimming keeps ----------

  lemma {:induction false} TrimRightKeepsStart(s: string)
    requires s != "" && !IsSpace(s[0])
    ensures TrimRight(s) != ""
  {
    if IsSpace(s[|s| - 1]) {
      TrimRightKeepsStart(s[..|s| - 1]);
    }
  }

  lemma {:induction false} TrimLeftFindsStart(s: string, i: nat)
    requires i < |s| && !IsSpace(s[i])
    ensures TrimLeft(s) != "" && !IsSpace(TrimLeft(s)[0])
  {
    if IsSpace(s[0]) {
      TrimLeftFindsStart(s[1..], i - 1);
    }
  }

  /** Text with a character that is not a space is not trimmed away. */
  lemma TrimKeepsText(s: string, i: nat)
    requires i < |s| && !IsSpace(s[i])
    ensures TrimSpace(s) != ""
  {
    TrimLeftFindsStart(s, i);
    TrimRightKeepsStart(TrimLeft(s));
  }

  lemma {:induction false} TrimRightEndsInText(s: string)
    ensures TrimRight(s) != "" ==> !IsSpace(TrimRight(s)[|TrimRight(s)| - 1])
  {
    if s != "" && IsSpace(s[|s| - 1]) {
      TrimRightEndsInText(s[..|s| - 1]);
    }
  }

  /** What remains after trimming remains after trimming again. */
  lemma TrimmedTextStays(s: string)
    requires TrimSpace(s) != ""
    ensures TrimSpace(TrimSpace(s)) != ""
  {
    TrimRightEndsInText(TrimLeft(s));
    TrimKeepsText(TrimSpace(s), |TrimSpace(s)| - 1);
  }

  /** A number in decimal notation is not trimmed away. */
  lemma DecimalIsText(n: int)
    ensures TrimSpace(Decimal(n)) != ""
  {
    var s := Decimal(n);
    assert s != "" && !IsSpace(s[|s| - 1]);
    TrimKeepsText(s, |s| - 1);
  }

  // ---------- What normalisation means ----------

  /** The letter in lower or in upper case; other characters stand for themselves. */
  predicate SameLetter(c: char, lower: char) {
    c == lower || ('a' <= lower <= 'z' && c as int + 32 == lower as int)
  }

  /** The text is the word between spaces, starting at i, in whatever case. */
  predicate SpellsAt(text: string, word: string, i: nat) {
    && i + |word| <= |text|
    && (forall n | 0 <= n < i :: IsSpace(text[n]))
    && (forall n | 0 <= n < |word| :: SameLetter(text[i + n], word[n]))
    && (forall n | i + |word| <= n < |text| :: IsSpace(text[n]))
  }

  ghost predicate Spells(text: string, word: string) {
    exists i: nat :: SpellsAt(text, word, i)
  }

  /** A word without capitals that neither starts nor ends with a space. */
  predicate IsPlain(word: string) {
    && word != "" && !IsSpace(word[0]) && !IsSpace(word[|word| - 1])
    && forall n | 0 <= n < |word| :: !('A' <= word[n] <= 'Z')
  }

  lemma {:induction false} TrimLeftCuts(s: string) returns (i: nat)
    ensures i <= |s| && TrimLeft(s) == s[i..]
    ensures (forall n | 0 <= n < i :: IsSpace(s[n])) && (i < |s| ==> !IsSpace(s[i]))
  {
    i := 0;
    if s != "" && IsSpace(s[0]) {
      var j := TrimLeftCuts(s[1..]);
      i := j + 1;
      forall n | 0 <= n < i ensures IsSpace(s[n]) {
        assert n > 0 ==> s[n] == s[1..][n - 1];
      }
    }
  }

  lemma {:induction false} TrimRightCuts(s: string) returns (j: nat)
    ensures j <= |s| && TrimRight(s) == s[..j]
    ensures (forall n | j <= n < |s| :: IsSpace(s[n])) && (j > 0 ==> !IsSpace(s[j - 1]))
  {
    j := |s|;
    if s != "" && IsSpace(s[|s| - 1]) {
      j := TrimRightCuts(s[..|s| - 1]);
      forall n | j <= n < |s| ensures IsSpace(s[n]) {
        assert n < |s| - 1 ==> s[n] == s[..|s| - 1][n];
      }
    }
  }

  /** Trimming cuts off spaces, and leaves none at either end. */
  lemma TrimSpaceCuts(s: string) returns (i: nat, j: nat)
    ensures i <= j <= |s| && TrimSpace(s) == s[i..j]
    ensures forall n | 0 <= n < i || j <= n < |s| :: IsSpace(s[n])
    ensures i < j ==> !IsSpace(s[i]) && !IsSpace(s[j - 1])
  {
    i := TrimLeftCuts(s);
    var k := TrimRightCuts(s[i..]);
    j := i + k;
    forall n | j <= n < |s| ensures IsSpace(s[n]) {
      assert s[n] == s[i..][n - i];
    }
  }

  /** Normalised text is a word iff the text spells it. */
  lemma NormalisedIffSpells(text: string, word: string)
    requires IsPlain(word)
    ensures ToLower(TrimSpace(text)) == word <==> Spells(text, word)
  {
    var i, j := TrimSpaceCuts(text);
    var lower := ToLower(TrimSpace(text));
    if lower == word {
      forall n | 0 <= n < |word| ensures SameLetter(text[i + n], word[n]) {
        assert word[n] == Lower(text[i + n]);
      }
      assert SpellsAt(text, word, i);
    }
    if Spells(text, word) {
      var k: nat :| SpellsAt(text, word, k);
      assert SameLetter(text[k], word[0]) && SameLetter(text[k + |word| - 1], word[|word| - 1]);
      assert k == i && k + |word| == j;
      forall n | 0 <= n < |word| ensures lower[n] == word[n] {
        assert SameLetter(text[k + n], word[n]);
      }
    }
  }

  // ---------- What decimal notation means ----------

  predicate IsNumeral(s: string) {
    && s != "" && (|s| > 1 ==> s[0] != '0')
    && forall n | 0 <= n < |s| :: '0' <= s[n] <= '9'
  }

  /** The number that the digits stand for. */
  function Value(s: string): int {
    if s == "" then 0 else 10 * Value(s[..|s| - 1]) + (s[|s| - 1] as int - '0' as int)
  }

  lemma AppendedDigit(s: string, d: nat)
    requires IsNumeral(s) && s[0] != '0' && d < 10
    ensures var more := s + [('0' as int + d) as char];
            IsNumeral(more) && more[0] != '0' && Value(more) == 10 * Value(s) + d
  {
    var more := s + [('0' as int + d) as char];
    assert more[..|s|] == s;
  }

  lemma {:induction false} DigitsAreRead(n: nat)
    ensures IsNumeral(Digits(n)) && Value(Digits(n)) == n && (n > 0 ==> Digits(n)[0] != '0')
  {
    if n < 10 {
      assert Digits(n)[..0] == "";
    } else {
      DigitsAreRead(n / 10);
      AppendedDigit(Digits(n / 10), n % 10);
    }
  }

  /** Decimal notation is a numeral that reads as the number, after a sign if it is negative. */
  lemma DecimalIsRead(n: int)
    ensures n >= 0 ==> IsNumeral(Decimal(n)) && Value(Decimal(n)) == n
    ensures n < 0 ==> Decimal(n)[0] == '-' && IsNumeral(Decimal(n)[1..]) && Value(Decimal(n)[1..]) == -n
  {
    DigitsAreRead(if n >= 0 then n else -n);
    if n < 0 {
      assert Decimal(n)[1..] == Digits(-n);
    }
  }

  /** Different numbers have different notations. */
  lemma DecimalsDiffer(m: int, n: int)
    requires Decimal(m) == Decimal(n)
    ensures m == n
  {
    DecimalIsRead(m);
    DecimalIsRead(n);
  }
}
