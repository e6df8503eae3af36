/** The pure helpers of the browser script: formatNumber, which puts a comma
    before every group of three digits counted from the right, the e-mail and
    Indian mobile-number validators, and validateForm, which checks a form's
    values against a table of field rules. */
module Frontend {
  import opened Optional

  // ----- decimal digits -----

  predicate IsDigit(c: char)
  {
    '0' <= c <= '9'
  }

  predicate AllDigits(s: string)
  {
    forall k :: 0 <= k < |s| ==> IsDigit(s[k])
  }

  function DigitChar(d: nat): (c: char)
    requires d < 10
    ensures IsDigit(c)
  {
    ('0' as int + d) as char
  }

  function DigitValue(c: char): (d: nat)
    requires IsDigit(c)
    ensures d < 10
    ensures DigitChar(d) == c
  {
    c as int - '0' as int
  }

  /** The number a string of decimal digits denotes (the empty string denotes 0). */
  function NumberValue(s: string): (n: nat)
    requires AllDigits(s)
  {
    if s == [] then 0 else NumberValue(s[..|s| - 1]) * 10 + DigitValue(s[|s| - 1])
  }

  function Pow10(k: nat): (p: nat)
    ensures p >= 1
  {
    if k == 0 then 1 else 10 * Pow10(k - 1)
  }

  /** Number.prototype.toString on a non-negative integer: decimal digits, no leading zero. */
  function Digits(n: nat): (r: string)
    ensures |r| >= 1 && AllDigits(r)
    ensures NumberValue(r) == n
    ensures r[0] == '0' ==> n == 0
    ensures r[0] == '0' ==> r == "0"
  {
    if n < 10 then [DigitChar(n)]
    else
      var prefix := Digits(n / 10);
      var r := prefix + [DigitChar(n % 10)];
      assert r[..|r| - 1] == prefix;
      assert r[0] == prefix[0];
      r
  }

  /** toString on any integer: a minus sign before the digits of a negative one. */
  function IntegerString(n: int): (r: string)
  {
    if n < 0 then "-" + Digits(-n) else Digits(n)
  }

  /** A string of digits is below the power of ten of its length. */
  lemma {:induction false} NumberValueBelow(s: string)
    requires AllDigits(s)
    ensures NumberValue(s) < Pow10(|s|)
  {
    if s != [] {
      NumberValueBelow(s[..|s| - 1]);
    }
  }

  /** The leading digit of a string weighs its power of ten. */
  lemma {:induction false} NumberValueLeading(c: char, t: string)
    requires IsDigit(c) && AllDigits(t)
    ensures AllDigits([c] + t)
    ensures NumberValue([c] + t) == DigitValue(c) * Pow10(|t|) + NumberValue(t)
    decreases |t|
  {
    var s := [c] + t;
    if t == [] {
      assert s[..0] == [];
    } else {
      var t' := t[..|t| - 1];
      assert s[..|s| - 1] == [c] + t';
      assert t[..|t| - 1] == t';
      NumberValueLeading(c, t');
      ShiftDigit(DigitValue(c), Pow10(|t'|), NumberValue(t'), DigitValue(t[|t| - 1]));
    }
  }

  /** Appending a digit multiplies the leading digit's weight by ten. */
  lemma ShiftDigit(lead: int, weight: int, rest: int, last: int)
    ensures (lead * weight + rest) * 10 + last == lead * (10 * weight) + (rest * 10 + last)
  {
  }

  // ----- formatNumber -----

  /** \w in a JavaScript regular expression: ASCII letters, digits and '_'. */
  predicate IsWordChar(c: char)
  {
    IsDigit(c) || 'a' <= c <= 'z' || 'A' <= c <= 'Z' || c == '_'
  }

  /** \B at position p of s: the characters on either side (none at the ends)
      are both word characters or both not. */
  ghost predicate NotWordBoundary(s: string, p: int)
    requires 0 <= p <= |s|
  {
    (p > 0 && IsWordChar(s[p - 1])) == (p < |s| && IsWordChar(s[p]))
  }

  /** (?=(\d{3})+(?!\d)) at position p of s: some positive number of whole
      three-digit groups follows, and no digit after them. */
  ghost predicate DigitGroupsAhead(s: string, p: int)
    requires 0 <= p <= |s|
  {
    exists k :: 1 <= k && p + 3 * k <= |s| && AllDigits(s[p..p + 3 * k])
      && (p + 3 * k == |s| || !IsDigit(s[p + 3 * k]))
  }

  /** The pattern /\B(?=(\d{3})+(?!\d))/ matches, empty, at position p. */
  ghost predicate CommaPatternAt(s: string, p: int)
    requires 0 <= p <= |s|
  {
    NotWordBoundary(s, p) && DigitGroupsAhead(s, p)
  }

  /** s.replace(pattern, ",") with the global flag, from position i on: every
      empty match inserts a comma in front of the character at its position. */
  ghost function RegexReplace(s: string, i: nat): string
    requires i <= |s|
    decreases |s| - i
  {
    if i == |s| then []
    else (if CommaPatternAt(s, i) then [','] else []) + [s[i]] + RegexReplace(s, i + 1)
  }

  /** The scan formatNumber performs on a digit string, from position i on:
      a comma before every digit other than the first whose distance from the
      end is a multiple of three. */
  function CommaScan(ds: string, i: nat): (r: string)
    requires i <= |ds|
    decreases |ds| - i
  {
    if i == |ds| then []
    else (if 0 < i && (|ds| - i) % 3 == 0 then [','] else []) + [ds[i]] + CommaScan(ds, i + 1)
  }

  /** formatNumber on an integer. */
  function FormatNumber(n: int): (r: string)
  {
    if n < 0 then "-" + CommaScan(Digits(-n), 0) else CommaScan(Digits(n), 0)
  }

  /** On a digit string, the pattern matches exactly where CommaScan puts a comma. */
  lemma CommaPatternOnDigits(ds: string, p: nat)
    requires AllDigits(ds) && p <= |ds|
    ensures CommaPatternAt(ds, p) <==> 0 < p < |ds| && (|ds| - p) % 3 == 0
  {
    if 0 < p < |ds| && (|ds| - p) % 3 == 0 {
      var k := (|ds| - p) / 3;
      assert p + 3 * k == |ds|;
      assert AllDigits(ds[p..p + 3 * k]);
    }
    if CommaPatternAt(ds, p) {
      var k :| 1 <= k && p + 3 * k <= |ds| && AllDigits(ds[p..p + 3 * k])
        && (p + 3 * k == |ds| || !IsDigit(ds[p + 3 * k]));
      assert p + 3 * k == |ds|;
    }
  }

  /** After a minus sign the pattern matches exactly where it matches in the digits alone. */
  lemma CommaPatternAfterSign(ds: string, p: nat)
    requires AllDigits(ds) && |ds| >= 1 && p <= |ds|
    ensures CommaPatternAt("-" + ds, p + 1) <==> CommaPatternAt(ds, p)
    ensures !CommaPatternAt("-" + ds, 0)
  {
    SignKeepsBoundary(ds, p);
    SignKeepsGroups(ds, p);
    SignNoMatchAtStart(ds);
  }

  /** A leading minus sign is not a word character, just like the start of the string. */
  lemma SignKeepsBoundary(ds: string, p: nat)
    requires AllDigits(ds) && |ds| >= 1 && p <= |ds|
    ensures NotWordBoundary("-" + ds, p + 1) == NotWordBoundary(ds, p)
  {
    var s := "-" + ds;
    assert s[p] == if p == 0 then '-' else ds[p - 1];
    if p < |ds| {
      assert s[p + 1] == ds[p];
    }
  }

  lemma SignKeepsGroups(ds: string, p: nat)
    requires p <= |ds|
    ensures DigitGroupsAhead("-" + ds, p + 1) == DigitGroupsAhead(ds, p)
  {
    var s := "-" + ds;
    forall k | 1 <= k && p + 3 * k <= |ds|
      ensures s[p + 1..p + 1 + 3 * k] == ds[p..p + 3 * k]
      ensures p + 3 * k < |ds| ==> s[p + 1 + 3 * k] == ds[p + 3 * k]
    {
    }
    if DigitGroupsAhead(s, p + 1) {
      var k :| 1 <= k && p + 1 + 3 * k <= |s| && AllDigits(s[p + 1..p + 1 + 3 * k])
        && (p + 1 + 3 * k == |s| || !IsDigit(s[p + 1 + 3 * k]));
      assert AllDigits(ds[p..p + 3 * k]);
    }
    if DigitGroupsAhead(ds, p) {
      var k :| 1 <= k && p + 3 * k <= |ds| && AllDigits(ds[p..p + 3 * k])
        && (p + 3 * k == |ds| || !IsDigit(ds[p + 3 * k]));
      assert AllDigits(s[p + 1..p + 1 + 3 * k]);
    }
  }

  /** The pattern never matches in front of the minus sign: no digit group starts there. */
  lemma SignNoMatchAtStart(ds: string)
    ensures !CommaPatternAt("-" + ds, 0)
  {
    var s := "-" + ds;
    assert !IsDigit(s[0]);
    assert forall k :: 1 <= k && 3 * k <= |s| ==> s[0..3 * k][0] == s[0];
  }

  lemma {:induction false} RegexReplaceOnDigits(ds: string, i: nat)
    requires AllDigits(ds) && i <= |ds|
    ensures RegexReplace(ds, i) == CommaScan(ds, i)
    decreases |ds| - i
  {
    if i < |ds| {
      CommaPatternOnDigits(ds, i);
      RegexReplaceOnDigits(ds, i + 1);
    }
  }

  lemma {:induction false} RegexReplaceAfterSign(ds: string, i: nat)
    requires AllDigits(ds) && |ds| >= 1 && i <= |ds|
    ensures RegexReplace("-" + ds, i + 1) == CommaScan(ds, i)
    decreases |ds| - i
  {
    var s := "-" + ds;
    if i < |ds| {
      CommaPatternAfterSign(ds, i);
      CommaPatternOnDigits(ds, i);
      assert s[i + 1] == ds[i];
      RegexReplaceAfterSign(ds, i + 1);
    }
  }

  /** formatNumber is exactly the regular-expression replacement applied to toString. */
  lemma FormatNumberIsRegexReplace(n: int)
    ensures FormatNumber(n) == RegexReplace(IntegerString(n), 0)
  {
    if n < 0 {
      var s := IntegerString(n);
      CommaPatternAfterSign(Digits(-n), 0);
      RegexReplaceAfterSign(Digits(-n), 0);
      assert RegexReplace(s, 0) == [s[0]] + RegexReplace(s, 1);
    } else {
      RegexReplaceOnDigits(Digits(n), 0);
    }
  }

  /** One and a half million is grouped by thousands ("1,500,000"), not in
      the lakh style of the currency formatter ("15,00,000"). */
  lemma FormatNumberThousands()
    ensures FormatNumber(1500000) == "1,500,000"
  {
    DigitsOfExample();
    CommaScanOfExample();
  }

  lemma DigitsOfExample()
    ensures Digits(1500000) == "1500000"
  {
    assert Digits(1) == "1";
    assert Digits(15) == "15";
    assert Digits(150) == "150";
    assert Digits(1500) == "1500";
    assert Digits(15000) == "15000";
    assert Digits(150000) == "150000";
  }

  lemma CommaScanOfExample()
    ensures CommaScan("1500000", 0) == "1,500,000"
  {
    var one := CommaScan("1", 0);
    CommaScanShort("1", 0);
    assert one == "1";
    var small := CommaScan("1500", 0);
    CommaScanSplit("1500", 0);
    assert "1500"[..1] == "1";
    assert "1500"[1..] == "500";
    assert small == one + [','] + "500";
    assert small == "1,500";
    CommaScanSplit("1500000", 0);
    assert "1500000"[..4] == "1500";
    assert "1500000"[4..] == "000";
    assert CommaScan("1500000", 0) == small + [','] + "000";
  }

  /** Removes every comma. */
  function WithoutCommas(s: string): (r: string)
    ensures |r| <= |s|
    ensures ',' !in r
  {
    if s == [] then [] else (if s[0] == ',' then [] else [s[0]]) + WithoutCommas(s[1..])
  }

  lemma {:induction false} CommaScanRemoved(ds: string, i: nat)
    requires AllDigits(ds) && i <= |ds|
    ensures WithoutCommas(CommaScan(ds, i)) == ds[i..]
    decreases |ds| - i
  {
    if i < |ds| {
      CommaScanRemoved(ds, i + 1);
      CommaScanRemovedStep(ds, i);
    }
  }

  lemma CommaScanRemovedStep(ds: string, i: nat)
    requires AllDigits(ds) && i < |ds|
    requires WithoutCommas(CommaScan(ds, i + 1)) == ds[i + 1..]
    ensures WithoutCommas(CommaScan(ds, i)) == ds[i..]
  {
    var rest := CommaScan(ds, i + 1);
    assert WithoutCommas(CommaScan(ds, i)) == WithoutCommas([ds[i]] + rest) by {
      CommaScanDropsHead(ds, i);
    }
    assert WithoutCommas([ds[i]] + rest) == [ds[i]] + ds[i + 1..] by {
      assert IsDigit(ds[i]);
      WithoutCommasKeeps(ds[i], rest);
    }
    SuffixCons(ds, i);
  }

  lemma SuffixCons(s: string, i: nat)
    requires i < |s|
    ensures s[i..] == [s[i]] + s[i + 1..]
  {
  }

  /** Removing commas forgets whether the scan put one before position i. */
  lemma CommaScanDropsHead(ds: string, i: nat)
    requires i < |ds|
    ensures WithoutCommas(CommaScan(ds, i)) == WithoutCommas([ds[i]] + CommaScan(ds, i + 1))
  {
    var kept := [ds[i]] + CommaScan(ds, i + 1);
    if 0 < i && (|ds| - i) % 3 == 0 {
      assert CommaScan(ds, i) == [','] + kept;
      WithoutCommasDrops(kept);
    } else {
      assert CommaScan(ds, i) == [] + kept;
      assert [] + kept == kept;
    }
  }

  lemma WithoutCommasKeeps(c: char, t: string)
    requires c != ','
    ensures WithoutCommas([c] + t) == [c] + WithoutCommas(t)
  {
    assert ([c] + t)[1..] == t;
  }

  lemma WithoutCommasDrops(t: string)
    ensures WithoutCommas([','] + t) == WithoutCommas(t)
  {
    assert ([','] + t)[1..] == t;
  }

  lemma {:induction false} WithoutCommasAppend(a: string, b: string)
    ensures WithoutCommas(a + b) == WithoutCommas(a) + WithoutCommas(b)
  {
    if a != [] {
      var head := if a[0] == ',' then [] else [a[0]];
      assert (a + b)[0] == a[0];
      assert (a + b)[1..] == a[1..] + b;
      WithoutCommasAppend(a[1..], b);
      calc {
        WithoutCommas(a + b);
        head + WithoutCommas(a[1..] + b);
        head + (WithoutCommas(a[1..]) + WithoutCommas(b));
        (head + WithoutCommas(a[1..])) + WithoutCommas(b);
        WithoutCommas(a) + WithoutCommas(b);
      }
    } else {
      assert a + b == b;
    }
  }

  /** Dropping the commas from formatNumber's output gives back toString. */
  lemma FormatNumberRemovesToString(n: int)
    ensures WithoutCommas(FormatNumber(n)) == IntegerString(n)
  {
    var ds := Digits(if n < 0 then -n else n);
    CommaScanRemoved(ds, 0);
    assert ds[0..] == ds;
    if n < 0 {
      WithoutCommasAppend("-", CommaScan(ds, 0));
    }
  }

  /** Splitting off the last three digits: the scan of the rest, a comma, and those digits. */
  lemma {:induction false} CommaScanSplit(ds: string, i: nat)
    requires |ds| > 3 && i <= |ds| - 3
    ensures CommaScan(ds, i) == CommaScan(ds[..|ds| - 3], i) + [','] + ds[|ds| - 3..]
    decreases |ds| - i
  {
    if i == |ds| - 3 {
      CommaScanLastGroup(ds);
      CommaScanAtEnd(ds[..|ds| - 3]);
    } else {
      CommaScanSplit(ds, i + 1);
      CommaScanSameStep(ds, i);
    }
  }

  /** The last three digits of a longer string: a comma, then the digits. */
  lemma CommaScanLastGroup(ds: string)
    requires |ds| > 3
    ensures CommaScan(ds, |ds| - 3) == [','] + ds[|ds| - 3..]
  {
    var n := |ds|;
    CommaScanGroupStart(ds);
    CommaScanLastTwo(ds, n - 2);
    PrependToSuffix(ds, n - 3);
  }

  /** Three digits before the end, the scan puts a comma. */
  lemma CommaScanGroupStart(ds: string)
    requires |ds| > 3
    ensures CommaScan(ds, |ds| - 3) == [','] + [ds[|ds| - 3]] + CommaScan(ds, |ds| - 2)
  {
    var n := |ds|;
    assert 0 < n - 3 && (n - (n - 3)) % 3 == 0;
  }

  lemma PrependToSuffix(ds: string, i: nat)
    requires i < |ds|
    ensures [','] + [ds[i]] + ds[i + 1..] == [','] + ds[i..]
  {
    SuffixCons(ds, i);
  }

  /** The scan past the end is empty. */
  lemma CommaScanAtEnd(ds: string)
    ensures CommaScan(ds, |ds|) == []
  {
  }

  /** The last two digits never take a comma. */
  lemma {:induction false} CommaScanLastTwo(ds: string, i: nat)
    requires i <= |ds| <= i + 2
    ensures CommaScan(ds, i) == ds[i..]
    decreases |ds| - i
  {
    if i < |ds| {
      CommaScanLastTwo(ds, i + 1);
      assert (|ds| - i) % 3 != 0;
      assert ds[i..] == [ds[i]] + ds[i + 1..];
    }
  }

  /** Below the last group, the scan of ds and of ds without its last three
      digits take the same step. */
  lemma CommaScanSameStep(ds: string, i: nat)
    requires |ds| > 3 && i < |ds| - 3
    ensures var front := ds[..|ds| - 3];
      var head := if 0 < i && (|ds| - i) % 3 == 0 then [','] else [];
      && CommaScan(ds, i) == head + [ds[i]] + CommaScan(ds, i + 1)
      && CommaScan(front, i) == head + [ds[i]] + CommaScan(front, i + 1)
  {
    var front := ds[..|ds| - 3];
    assert |ds| - i == (|front| - i) + 3;
    assert front[i] == ds[i];
  }

  /** The grouping formatNumber produces on a non-negative number: a comma
      stands exactly at the positions other than the first that lie a multiple
      of four before the end, so the first group has one to three digits and
      every later group three. */
  lemma {:induction false} CommaScanGroups(ds: string)
    requires AllDigits(ds) && |ds| >= 1
    ensures |CommaScan(ds, 0)| == |ds| + (|ds| - 1) / 3
    ensures forall i :: 0 <= i < |CommaScan(ds, 0)| ==>
      (CommaScan(ds, 0)[i] == ',' <==> i > 0 && (|CommaScan(ds, 0)| - i) % 4 == 0)
    decreases |ds|
  {
    var r := CommaScan(ds, 0);
    if |ds| <= 3 {
      CommaScanShort(ds, 0);
      assert r == ds;
    } else {
      var front := ds[..|ds| - 3];
      var tail := ds[|ds| - 3..];
      CommaScanGroups(front);
      CommaScanSplit(ds, 0);
      var f := CommaScan(front, 0);
      assert r == f + [','] + tail;
      assert |r| == |f| + 4;
      GroupsExtend(f, tail);
    }
  }

  /** Appending a comma and a group of three digits keeps the comma positions
      a multiple of four before the end. */
  lemma GroupsExtend(f: string, tail: string)
    requires |f| >= 1 && |tail| == 3 && AllDigits(tail)
    requires forall i :: 0 <= i < |f| ==> (f[i] == ',' <==> i > 0 && (|f| - i) % 4 == 0)
    ensures var r := f + [','] + tail;
      forall i :: 0 <= i < |r| ==> (r[i] == ',' <==> i > 0 && (|r| - i) % 4 == 0)
  {
    var r := f + [','] + tail;
    forall i | 0 <= i < |r|
      ensures r[i] == ',' <==> i > 0 && (|r| - i) % 4 == 0
    {
      if i < |f| {
        assert r[i] == f[i];
        assert |r| - i == (|f| - i) + 4;
      } else if i > |f| {
        assert r[i] == tail[i - |f| - 1];
        assert IsDigit(r[i]);
        assert 1 <= |r| - i <= 3;
      } else {
        assert |r| - i == 4;
      }
    }
  }

  /** Digits short enough for one group get no comma. */
  lemma {:induction false} CommaScanShort(ds: string, i: nat)
    requires i <= |ds| <= 3
    ensures CommaScan(ds, i) == ds[i..]
    decreases |ds| - i
  {
    if i < |ds| {
      CommaScanShort(ds, i + 1);
      assert |ds| - i == 1 || |ds| - i == 2 || i == 0;
      assert ds[i..] == [ds[i]] + ds[i + 1..];
    }
  }

  // ----- isValidPhone -----

  /** phone.replace(/\D/g, ''): keeps only the ASCII digits. */
  function DigitsOnly(s: string): (r: string)
    ensures AllDigits(r)
    ensures |r| <= |s|
  {
    if s == [] then [] else (if IsDigit(s[0]) then [s[0]] else []) + DigitsOnly(s[1..])
  }

  /** isValidPhone: after dropping every non-digit, /^[6-9]\d{9}$/ must match. */
  function IsValidPhone(phone: string): bool
  {
    var d := DigitsOnly(phone);
    |d| == 10 && '6' <= d[0] <= '9'
  }

  lemma {:induction false} DigitsOnlyAppend(a: string, b: string)
    ensures DigitsOnly(a + b) == DigitsOnly(a) + DigitsOnly(b)
  {
    if a == [] {
      assert a + b == b;
    } else {
      assert (a + b)[0] == a[0];
      assert (a + b)[1..] == a[1..] + b;
      DigitsOnlyAppend(a[1..], b);
    }
  }

  lemma {:induction false} DigitsOnlyOfDigits(s: string)
    requires AllDigits(s)
    ensures DigitsOnly(s) == s
  {
    if s != [] {
      DigitsOnlyOfDigits(s[1..]);
    }
  }

  /** A separator (any non-digit) inserted anywhere never changes the verdict. */
  lemma PhoneIgnoresSeparators(a: string, sep: char, b: string)
    requires !IsDigit(sep)
    ensures IsValidPhone(a + [sep] + b) == IsValidPhone(a + b)
  {
    DigitsOnlyAppend(a + [sep], b);
    DigitsOnlyAppend(a, [sep]);
    DigitsOnlyAppend(a, b);
    assert DigitsOnly([sep]) == [];
  }

  /** Stripping the separators first gives the same verdict. */
  lemma PhoneStrippedFirst(phone: string)
    ensures IsValidPhone(DigitsOnly(phone)) == IsValidPhone(phone)
  {
    DigitsOnlyOfDigits(DigitsOnly(phone));
  }

  /** A phone is valid exactly when its digits are ten and, read as a number,
      lie from 6,000,000,000 up (ten digits never exceed 9,999,999,999). */
  lemma PhoneNumberRange(phone: string)
    ensures IsValidPhone(phone) <==>
      |DigitsOnly(phone)| == 10 && NumberValue(DigitsOnly(phone)) >= 6000000000
  {
    var d := DigitsOnly(phone);
    if |d| == 10 {
      var t := d[1..];
      assert d == [d[0]] + t;
      NumberValueLeading(d[0], t);
      NumberValueBelow(t);
      assert Pow10(9) == 1000000000;
      assert NumberValue(d) == DigitValue(d[0]) * 1000000000 + NumberValue(t);
    }
  }

  /** A number with a country code in front (eleven or more digits) is rejected. */
  lemma CountryCodeRejected(phone: string)
    requires IsValidPhone(phone)
    ensures !IsValidPhone("+91 " + phone)
    ensures !IsValidPhone("0" + phone)
  {
    DigitsOnlyAppend("+91 ", phone);
    DigitsOnlyAppend("0", phone);
    assert DigitsOnly("+91 ") == "91";
    assert DigitsOnly("0") == "0";
  }

  // ----- isValidEmail -----

  /** \s in a JavaScript regular expression: the white-space and line-terminator characters. */
  predicate IsJsSpace(c: char)
  {
    c == '\t' || c == '\n' || c == '\U{000B}' || c == '\U{000C}' || c == '\r' || c == ' '
    || c == '\U{00A0}' || c == '\U{1680}' || '\U{2000}' <= c <= '\U{200A}'
    || c == '\U{2028}' || c == '\U{2029}' || c == '\U{202F}' || c == '\U{205F}'
    || c == '\U{3000}' || c == '\U{FEFF}'
  }

  /** [^\s@]: neither white space nor '@'. */
  predicate EmailChar(c: char)
  {
    !IsJsSpace(c) && c != '@'
  }

  /** /^[^\s@]+@[^\s@]+\.[^\s@]+$/ matches s: an '@' at i with something before
      it, a '.' at j with something between and after, and every other
      character neither white space nor '@'. */
  ghost predicate EmailPatternMatches(s: string)
  {
    exists i, j :: 0 < i && i + 1 < j < |s| - 1 && s[i] == '@' && s[j] == '.'
      && forall k :: 0 <= k < |s| && k != i ==> EmailChar(s[k])
  }

  /** The index of the first occurrence of c, or |s| when there is none. */
  function FirstIndex(s: string, c: char): (r: nat)
    ensures r <= |s|
    ensures r < |s| ==> s[r] == c
    ensures forall k :: 0 <= k < r ==> s[k] != c
  {
    if s == [] then 0
    else if s[0] == c then 0
    else 1 + FirstIndex(s[1..], c)
  }

  /** isValidEmail: one '@', not first, no white space, and a '.' in the part
      after the '@' that is neither its first nor the string's last character. */
  function IsValidEmail(email: string): bool
  {
    var at := FirstIndex(email, '@');
    && 0 < at < |email|
    && (forall k :: 0 <= k < |email| ==> !IsJsSpace(email[k]))
    && (forall k :: at < k < |email| ==> email[k] != '@')
    && (exists j :: at + 1 < j < |email| - 1 && email[j] == '.')
  }

  /** isValidEmail accepts exactly the strings the pattern matches. */
  lemma EmailIsPattern(email: string)
    ensures IsValidEmail(email) <==> EmailPatternMatches(email)
  {
    var at := FirstIndex(email, '@');
    if IsValidEmail(email) {
      var j :| at + 1 < j < |email| - 1 && email[j] == '.';
      assert forall k :: 0 <= k < |email| && k != at ==> EmailChar(email[k]);
    }
    if EmailPatternMatches(email) {
      var i, j :| 0 < i && i + 1 < j < |email| - 1 && email[i] == '@' && email[j] == '.'
        && forall k :: 0 <= k < |email| && k != i ==> EmailChar(email[k]);
      assert at == i;
      assert !IsJsSpace(email[i]);
    }
  }

  // ----- validateForm -----

  /** One entry of the rules object: rule.fieldLabel, rule.required, rule.type
      (absent is None) and rule.min (absent is None). */
  datatype Rule = Rule(fieldLabel: string, required: bool, kind: Option<string>, min: Option<int>)

  /** The message chosen for a field; its text carries the label (and the minimum). */
  datatype FieldError = Required(fieldLabel: string) | Invalid(fieldLabel: string) | TooSmall(fieldLabel: string, min: int)

  /** Object.entries(rules): field names are distinct. */
  predicate DistinctFields(rules: seq<(string, Rule)>)
  {
    forall i, j :: 0 <= i < j < |rules| ==> rules[i].0 != rules[j].0
  }

  /** formData[field]: undefined (None) when the form has no such key. */
  function FieldValue(formData: map<string, string>, field: string): (v: Option<string>)
    ensures v.Some? <==> field in formData
  {
    if field in formData then Some(formData[field]) else None
  }

  /** A form value is truthy when present and not the empty string. */
  predicate Truthy(v: Option<string>)
  {
    v.Some? && v.value != ""
  }

  /** rule.min is truthy: present and not zero. */
  predicate MinActive(rule: Rule)
  {
    rule.min.Some? && rule.min.value != 0
  }

  /** The number `value < rule.min` compares: the empty string is 0, a string of
      digits its decimal value; anything else is NaN (None). */
  function JsNumber(s: string): (r: Option<nat>)
    ensures s == "" ==> r == Some(0)
    ensures s != "" && AllDigits(s) ==> r == Some(NumberValue(s))
    ensures !AllDigits(s) ==> r.None?
  {
    if AllDigits(s) then Some(NumberValue(s)) else None
  }

  /** `value < min`: false for an absent value (undefined) and for NaN. */
  predicate LessThan(v: Option<string>, min: int)
  {
    v.Some? && JsNumber(v.value).Some? && JsNumber(v.value).value < min
  }

  /** The error validateForm records for one field, or None. */
  function FieldCheck(v: Option<string>, rule: Rule): Option<FieldError>
  {
    if rule.required && !Truthy(v) then Some(Required(rule.fieldLabel))
    else if Truthy(v) && rule.kind == Some("email") && !IsValidEmail(v.value) then Some(Invalid(rule.fieldLabel))
    else if Truthy(v) && rule.kind == Some("phone") && !IsValidPhone(v.value) then Some(Invalid(rule.fieldLabel))
    else if MinActive(rule) && LessThan(v, rule.min.value) then Some(TooSmall(rule.fieldLabel, rule.min.value))
    else None
  }

  /** validateForm: walks the rules in order and records at most one error per field. */
  method ValidateForm(formData: map<string, string>, rules: seq<(string, Rule)>)
    returns (errors: map<string, FieldError>)
    requires DistinctFields(rules)
    ensures forall f :: f in errors ==> exists i :: 0 <= i < |rules| && rules[i].0 == f
    ensures forall i :: 0 <= i < |rules| ==>
      (rules[i].0 in errors <==> FieldCheck(FieldValue(formData, rules[i].0), rules[i].1).Some?)
    ensures forall i :: 0 <= i < |rules| && rules[i].0 in errors ==>
      Some(errors[rules[i].0]) == FieldCheck(FieldValue(formData, rules[i].0), rules[i].1)
  {
    errors := map[];
    for n := 0 to |rules|
      invariant forall f :: f in errors ==> exists i :: 0 <= i < n && rules[i].0 == f
      invariant forall i :: 0 <= i < n ==>
        (rules[i].0 in errors <==> FieldCheck(FieldValue(formData, rules[i].0), rules[i].1).Some?)
      invariant forall i :: 0 <= i < n && rules[i].0 in errors ==>
        Some(errors[rules[i].0]) == FieldCheck(FieldValue(formData, rules[i].0), rules[i].1)
    {
      var (field, rule) := rules[n];
      var value := FieldValue(formData, field);
      if rule.required && !Truthy(value) {
        errors := errors[field := Required(rule.fieldLabel)];
      } else if Truthy(value) && rule.kind == Some("email") && !IsValidEmail(value.value) {
        errors := errors[field := Invalid(rule.fieldLabel)];
      } else if Truthy(value) && rule.kind == Some("phone") && !IsValidPhone(value.value) {
        errors := errors[field := Invalid(rule.fieldLabel)];
      } else if MinActive(rule) && LessThan(value, rule.min.value) {
        errors := errors[field := TooSmall(rule.fieldLabel, rule.min.value)];
      }
    }
  }

  /** A field passes exactly when every one of its rules holds, whatever the
      order in which they are tried. */
  lemma FieldPassesIff(v: Option<string>, rule: Rule)
    ensures FieldCheck(v, rule).None? <==>
      && (rule.required ==> Truthy(v))
      && (Truthy(v) && rule.kind == Some("email") ==> IsValidEmail(v.value))
      && (Truthy(v) && rule.kind == Some("phone") ==> IsValidPhone(v.value))
      && !(MinActive(rule) && LessThan(v, rule.min.value))
  {
  }

  /** What each recorded error means about the value and the rule. */
  lemma FieldErrorMeaning(v: Option<string>, rule: Rule, e: FieldError)
    requires FieldCheck(v, rule) == Some(e)
    ensures e.fieldLabel == rule.fieldLabel
    ensures e.Required? <==> rule.required && !Truthy(v)
    ensures e.Invalid? ==>
      && Truthy(v)
      && ((rule.kind == Some("email") && !IsValidEmail(v.value))
          || (rule.kind == Some("phone") && !IsValidPhone(v.value)))
    ensures e.TooSmall? ==> MinActive(rule) && e.min == rule.min.value && LessThan(v, e.min)
    ensures e.TooSmall? ==>
      && !(rule.required && !Truthy(v))
      && !(Truthy(v) && rule.kind == Some("email") && !IsValidEmail(v.value))
      && !(Truthy(v) && rule.kind == Some("phone") && !IsValidPhone(v.value))
  {
  }

  /** A missing optional field passes, but the same field present and empty
      fails a positive minimum, since "" compares as 0. */
  lemma EmptyOptionalFieldBelowMinimum(rule: Rule, m: int)
    requires !rule.required && rule.min == Some(m) && m > 0
    ensures FieldCheck(None, rule) == None
    ensures FieldCheck(Some(""), rule) == Some(TooSmall(rule.fieldLabel, m))
  {
  }

  /** A filled numeric field with a non-zero minimum fails exactly when its number is below it. */
  lemma NumericFieldAgainstMinimum(digits: string, rule: Rule, m: int)
    requires digits != "" && AllDigits(digits)
    requires rule.kind.None? && rule.min == Some(m) && m != 0
    ensures FieldCheck(Some(digits), rule).Some? <==> NumberValue(digits) < m
  {
  }
}
