/** Lexical scanning shared by the desktop and Android expression parsers, whose
    number and name readers are the same code: whitespace is removed up front, a
    number is digits with at most one '.' and at most one exponent marker, and a
    name is a run of letters and underscores. */
module JvmLexing {
  import opened Common

  /** The constructor removes every whitespace character. */
  function StripWhitespace(s: string): (r: string)
    ensures forall c :: c in r ==> !IsSpace(c)
    ensures forall c :: !IsSpace(c) ==> (c in r <==> c in s)
  {
    Remove(s, IsSpace)
  }

  // ---------------------------------------------------------------------------
  // Numbers

  /** The end of the number text read from `i` by the loop of `parseNumber`, which
      began at `start`: digits, one '.' unless `hasDot`, and one 'e' or 'E' (not
      first, and optionally followed by a sign) unless `hasE`. */
  function NumberScan(s: string, start: nat, i: nat, hasDot: bool, hasE: bool): (j: nat)
    requires start <= i <= |s|
    ensures i <= j <= |s|
    ensures i < |s| && (IsDigit(s[i]) || (s[i] == '.' && !hasDot)) ==> i < j
    decreases |s| - i
  {
    if i == |s| then i
    else if IsDigit(s[i]) then NumberScan(s, start, i + 1, hasDot, hasE)
    else if s[i] == '.' && !hasDot then NumberScan(s, start, i + 1, true, hasE)
    else if (s[i] == 'e' || s[i] == 'E') && !hasE && i > start then
      var k := if i + 1 < |s| && (s[i + 1] == '+' || s[i + 1] == '-') then i + 2 else i + 1;
      NumberScan(s, start, k, hasDot, true)
    else i
  }

  function NumberEnd(s: string, i: nat): (j: nat)
    requires i <= |s|
    ensures i <= j <= |s|
  {
    NumberScan(s, i, i, false, false)
  }

  /** The number text holds at most one '.', and none once one has been seen. */
  lemma {:induction false} NumberScanDots(s: string, start: nat, i: nat, hasDot: bool, hasE: bool)
    requires start <= i <= |s|
    ensures hasDot ==> forall k :: i <= k < NumberScan(s, start, i, hasDot, hasE) ==> s[k] != '.'
    ensures forall k, m :: i <= k < m < NumberScan(s, start, i, hasDot, hasE) ==> !(s[k] == '.' && s[m] == '.')
    decreases |s| - i
  {
    if i < |s| {
      if IsDigit(s[i]) {
        NumberScanDots(s, start, i + 1, hasDot, hasE);
      } else if s[i] == '.' && !hasDot {
        NumberScanDots(s, start, i + 1, true, hasE);
      } else if (s[i] == 'e' || s[i] == 'E') && !hasE && i > start {
        var k := if i + 1 < |s| && (s[i + 1] == '+' || s[i + 1] == '-') then i + 2 else i + 1;
        NumberScanDots(s, start, k, hasDot, true);
      }
    }
  }

  predicate IsExponentMarker(c: char) { c == 'e' || c == 'E' }

  /** The number text holds at most one exponent marker, never at its first
      character, and none once one has been seen. */
  lemma {:induction false} NumberScanExponents(s: string, start: nat, i: nat, hasDot: bool, hasE: bool)
    requires start <= i <= |s|
    ensures hasE ==> forall k :: i <= k < NumberScan(s, start, i, hasDot, hasE) ==> !IsExponentMarker(s[k])
    ensures forall k, m :: i <= k < m < NumberScan(s, start, i, hasDot, hasE)
                           ==> !(IsExponentMarker(s[k]) && IsExponentMarker(s[m]))
    ensures i == start && i < NumberScan(s, start, i, hasDot, hasE) ==> !IsExponentMarker(s[start])
    decreases |s| - i
  {
    if i < |s| {
      if IsDigit(s[i]) {
        NumberScanExponents(s, start, i + 1, hasDot, hasE);
      } else if s[i] == '.' && !hasDot {
        NumberScanExponents(s, start, i + 1, true, hasE);
      } else if (s[i] == 'e' || s[i] == 'E') && !hasE && i > start {
        var k := if i + 1 < |s| && (s[i + 1] == '+' || s[i + 1] == '-') then i + 2 else i + 1;
        NumberScanExponents(s, start, k, hasDot, true);
      }
    }
  }

  // ---------------------------------------------------------------------------
  // Names

  /** Names are letters and underscores; digits end them. */
  predicate IsNameChar(c: char) { IsLetter(c) || c == '_' }

  function NameEnd(s: string, i: nat): (j: nat)
    requires i <= |s|
    ensures i <= j <= |s|
    ensures forall k :: i <= k < j ==> IsNameChar(s[k])
    ensures j < |s| ==> !IsNameChar(s[j])
    decreases |s| - i
  {
    if i < |s| && IsNameChar(s[i]) then NameEnd(s, i + 1) else i
  }

  /** Names never contain digits, so the table entries `log10` and `log2` are
      never looked up: "log10(x)" reads the name "log" followed by the number 10. */
  lemma NamesHaveNoDigits(s: string, i: nat)
    requires i <= |s|
    ensures forall c :: c in Lower(s[i..NameEnd(s, i)]) ==> !IsDigit(c)
    ensures Lower(s[i..NameEnd(s, i)]) != "log10" && Lower(s[i..NameEnd(s, i)]) != "log2"
  {
    var name := Lower(s[i..NameEnd(s, i)]);
    assert forall k :: 0 <= k < |name| ==> !IsDigit(name[k]) by {
      forall k | 0 <= k < |name|
        ensures !IsDigit(name[k])
      {
        assert IsNameChar(s[i + k]);
      }
    }
    if |name| == 5 {
      assert !IsDigit(name[3]) && IsDigit("log10"[3]);
    }
    if |name| == 4 {
      assert !IsDigit(name[3]) && IsDigit("log2"[3]);
    }
  }

  /** A non-empty run of decimal digits. */
  predicate IsNumeral(a: string)
  {
    |a| > 0 && forall i :: 0 <= i < |a| ==> IsDigit(a[i])
  }

  /** Nothing at `k` can continue a number that ends there. */
  predicate EndsNumber(s: string, k: nat)
  {
    k < |s| ==> !IsDigit(s[k]) && s[k] != '.' && !IsExponentMarker(s[k])
  }

  lemma {:induction false} DigitsScan(s: string, start: nat, i: nat, j: nat)
    requires start <= i <= j <= |s|
    requires forall k :: i <= k < j ==> IsDigit(s[k])
    requires EndsNumber(s, j)
    ensures NumberScan(s, start, i, false, false) == j
    decreases j - i
  {
    if i < j {
      DigitsScan(s, start, i + 1, j);
    }
  }

  lemma {:induction false} NameRun(s: string, i: nat, j: nat)
    requires i <= j <= |s|
    requires forall k :: i <= k < j ==> IsLetter(s[k])
    requires j < |s| ==> !IsNameChar(s[j])
    ensures NameEnd(s, i) == j
    decreases j - i
  {
    if i < j {
      NameRun(s, i + 1, j);
    }
  }

}
