/**
 * The `pin` option of the generic analog node is read with the C call
 * `sscanf(pin, "%d %d", &device, &pin)`, and the node only goes on to open
 * the channel when that call converts exactly two integers.
 *
 * This module models that conversion on `seq<char>`: each `%d` skips
 * white space (C `isspace`), accepts one optional sign and then the longest
 * run of decimal digits, of which there must be at least one. The blank in
 * the format skips zero or more white-space characters, which the second
 * `%d` would skip anyway. Whatever follows the second number is ignored.
 */
module PinParse {

  datatype Option<T> = None | Some(value: T)

  /** C `isspace` in the "C" locale: blank, and '\t' '\n' '\v' '\f' '\r'. */
  predicate IsSpace(c: char) {
    c == ' ' || ('\t' <= c <= '\r')
  }

  predicate IsDigit(c: char) {
    '0' <= c <= '9'
  }

  predicate AllDigits(s: string) {
    forall i :: 0 <= i < |s| ==> IsDigit(s[i])
  }

  function DigitValue(c: char): (d: nat)
    requires IsDigit(c)
    ensures d < 10
  {
    (c as int) - ('0' as int)
  }

  function DigitChar(d: nat): (c: char)
    requires d < 10
    ensures IsDigit(c) && DigitValue(c) == d
  {
    (('0' as int) + d) as char
  }

  /** The value of a run of decimal digits, most significant first. */
  function DigitsValue(ds: string): (v: nat)
    requires AllDigits(ds)
  {
    if ds == [] then 0
    else DigitsValue(ds[..|ds| - 1]) * 10 + DigitValue(ds[|ds| - 1])
  }

  /** What is left of `s` once its leading white space is skipped. */
  function SkipSpace(s: string): (r: string)
    ensures |r| <= |s|
    ensures r == [] || !IsSpace(r[0])
  {
    if s != [] && IsSpace(s[0]) then SkipSpace(s[1..]) else s
  }

  /** `r` is what is left of `s` once some prefix is dropped. */
  predicate IsSuffix(r: string, s: string) {
    |r| <= |s| && r == s[|s| - |r|..]
  }

  /** A suffix of a suffix of `s` is a suffix of `s`. */
  lemma SuffixOfSuffix(s: string, t: string, r: string)
    requires IsSuffix(t, s) && IsSuffix(r, t)
    ensures IsSuffix(r, s)
  {
    forall i | 0 <= i < |r|
      ensures r[i] == s[|s| - |r| + i]
    {
      assert r[i] == t[|t| - |r| + i];
    }
  }

  /** Skipping white space only drops characters from the front. */
  lemma {:induction false} SkipSpaceSuffix(s: string)
    ensures IsSuffix(SkipSpace(s), s)
  {
    if s != [] && IsSpace(s[0]) {
      SkipSpaceSuffix(s[1..]);
      SuffixOfSuffix(s, s[1..], SkipSpace(s));
    }
  }

  /** Every character skipped is white space. */
  lemma {:induction false} SkipSpaceOnlySpace(s: string)
    ensures forall i :: 0 <= i < |s| - |SkipSpace(s)| ==> IsSpace(s[i])
  {
    if s != [] && IsSpace(s[0]) {
      SkipSpaceOnlySpace(s[1..]);
      forall i | 1 <= i < |s| - |SkipSpace(s)|
        ensures IsSpace(s[i])
      {
        assert s[i] == s[1..][i - 1];
      }
    }
  }

  /** The length of the longest prefix of `s` made of digits. */
  function DigitRun(s: string): (n: nat)
    ensures n <= |s|
    ensures forall i :: 0 <= i < n ==> IsDigit(s[i])
    ensures n == |s| || !IsDigit(s[n])
  {
    if s != [] && IsDigit(s[0]) then 1 + DigitRun(s[1..]) else 0
  }

  /**
   * The digits part of a `%d` conversion: the value of the longest run of
   * digits at the head of `u` and what follows it, or None when `u` does
   * not start with a digit.
   */
  function ScanDigits(u: string): (r: Option<(nat, string)>)
    ensures r.Some? <==> u != [] && IsDigit(u[0])
    ensures r.Some? ==> |r.value.1| < |u| && (r.value.1 == [] || !IsDigit(r.value.1[0]))
  {
    var n := DigitRun(u);
    if n == 0 then None else Some((DigitsValue(u[..n]), u[n..]))
  }

  /**
   * A `%d` conversion once white space is skipped: an optional sign, then
   * the digits part.
   */
  function ScanSigned(t: string): (r: Option<(int, string)>)
    // the longest digit run is taken: what is left never starts with a digit
    ensures r.Some? ==> |r.value.1| < |t| && (r.value.1 == [] || !IsDigit(r.value.1[0]))
  {
    var negative := t != [] && t[0] == '-';
    var u := if t != [] && (t[0] == '+' || negative) then t[1..] else t;
    var digits := ScanDigits(u);
    if digits.None? then None
    else Some((if negative then -(digits.value.0 as int) else digits.value.0, digits.value.1))
  }

  /**
   * One `%d` conversion: the value read and the unread rest of the input,
   * or None when no digit follows the white space and optional sign.
   */
  function ScanInt(s: string): (r: Option<(int, string)>)
    ensures r.Some? ==> |r.value.1| < |s| && (r.value.1 == [] || !IsDigit(r.value.1[0]))
  {
    ScanSigned(SkipSpace(s))
  }

  /**
   * `sscanf(text, "%d %d", &device, &pin) == 2`: the pair (device, pin)
   * when both conversions succeed, None otherwise.
   */
  function ScanPin(text: string): (r: Option<(int, int)>)
    ensures r.Some? <==> ScanInt(text).Some? && ScanInt(ScanInt(text).value.1).Some?
  {
    var device := ScanInt(text);
    if device.None? then None
    else
      var pin := ScanInt(device.value.1);
      if pin.None? then None else Some((device.value.0, pin.value.0))
  }

  /** The decimal text of a natural number, without leading zeros. */
  function NatText(n: nat): (t: string)
    ensures t != []
  {
    if n < 10 then [DigitChar(n)] else NatText(n / 10) + [DigitChar(n % 10)]
  }

  /** The decimal text of an integer, as `printf("%d")` writes it. */
  function IntText(i: int): (t: string)
  {
    if i < 0 then "-" + NatText(-i) else NatText(i)
  }

  /** The text of a number is a nonempty run of digits that reads back as the number. */
  lemma {:induction false} NatTextDigits(n: nat)
    ensures NatText(n) != [] && AllDigits(NatText(n))
    ensures DigitsValue(NatText(n)) == n
  {
    if n >= 10 {
      NatTextDigits(n / 10);
      var prefix := NatText(n / 10);
      var text := NatText(n);
      assert text == prefix + [DigitChar(n % 10)];
      assert text[..|text| - 1] == prefix;
    }
  }

  /** A digit run stops exactly where the digits stop. */
  lemma {:induction false} DigitRunOfDigits(ds: string, rest: string)
    requires AllDigits(ds)
    requires rest == [] || !IsDigit(rest[0])
    ensures DigitRun(ds + rest) == |ds|
  {
    if ds != [] {
      assert (ds + rest)[1..] == ds[1..] + rest;
      DigitRunOfDigits(ds[1..], rest);
    }
  }

  /** The digits part of `%d` reads a whole run of digits and stops after it. */
  lemma ScanDigitsOfDigits(ds: string, rest: string)
    requires ds != [] && AllDigits(ds)
    requires rest == [] || !IsDigit(rest[0])
    ensures ScanDigits(ds + rest) == Some((DigitsValue(ds), rest))
  {
    DigitRunOfDigits(ds, rest);
    assert (ds + rest)[..|ds|] == ds;
    assert (ds + rest)[|ds|..] == rest;
  }

  /** Past the white space, digits with no sign in front read as they are. */
  lemma ScanSignedUnsigned(u: string, magnitude: nat, rest: string)
    requires ScanDigits(u) == Some((magnitude, rest))
    ensures ScanSigned(u) == Some((magnitude, rest))
  {
  }

  /** Past the white space, a minus sign negates the digits that follow it. */
  lemma ScanSignedNegative(u: string, magnitude: nat, rest: string)
    requires ScanDigits(u) == Some((magnitude, rest))
    ensures ScanSigned("-" + u) == Some((-(magnitude as int), rest))
  {
    var t := "-" + u;
    assert t[0] == '-';
    assert t[1..] == u;
  }

  /** The digits of a number, followed by a non-digit, read back as the number. */
  lemma ScanDigitsText(n: nat, rest: string)
    requires rest == [] || !IsDigit(rest[0])
    ensures ScanDigits(NatText(n) + rest) == Some((n, rest))
  {
    NatTextDigits(n);
    ScanDigitsOfDigits(NatText(n), rest);
  }

  /** Past the white space, a minus sign and the digits of a number read back as its negation. */
  lemma ScanSignedMinusText(n: nat, rest: string)
    requires rest == [] || !IsDigit(rest[0])
    ensures ScanSigned("-" + NatText(n) + rest) == Some((-(n as int), rest))
  {
    var u := NatText(n) + rest;
    assert "-" + NatText(n) + rest == "-" + u;
    ScanDigitsText(n, rest);
    ScanSignedNegative(u, n, rest);
  }

  /** Past the white space, `%d` reads back the number `IntText` wrote. */
  lemma ScanSignedText(i: int, rest: string)
    requires rest == [] || !IsDigit(rest[0])
    ensures ScanSigned(IntText(i) + rest) == Some((i, rest))
  {
    if i < 0 {
      assert IntText(i) == "-" + NatText(-i);
      ScanSignedMinusText(-i, rest);
    } else {
      ScanDigitsText(i, rest);
      ScanSignedUnsigned(NatText(i) + rest, i, rest);
    }
  }

  /** One `%d` reads back the number `IntText` wrote, leaving what follows it. */
  lemma ScanIntText(i: int, rest: string)
    requires rest == [] || !IsDigit(rest[0])
    ensures ScanInt(IntText(i) + rest) == Some((i, rest))
  {
    var s := IntText(i) + rest;
    NatTextDigits(if i < 0 then -i else i);
    assert s[0] == '-' || IsDigit(s[0]);
    assert SkipSpace(s) == s;
    ScanSignedText(i, rest);
  }

  /** White space in front of a number does not change what `%d` reads. */
  lemma ScanIntSkipsSpace(c: char, s: string)
    requires IsSpace(c)
    ensures ScanInt([c] + s) == ScanInt(s)
  {
    assert ([c] + s)[1..] == s;
    assert SkipSpace([c] + s) == SkipSpace(s);
  }

  /** Any amount of white space in front of a number does not change what `%d` reads. */
  lemma {:induction false} ScanIntSkipsSpaces(ws: string, s: string)
    requires forall i :: 0 <= i < |ws| ==> IsSpace(ws[i])
    ensures ScanInt(ws + s) == ScanInt(s)
    decreases |ws|
  {
    if ws != [] {
      var more := ws[1..];
      assert ws + s == [ws[0]] + (more + s);
      assert IsSpace(ws[0]);
      ScanIntSkipsSpace(ws[0], more + s);
      ScanIntSkipsSpaces(more, s);
    } else {
      assert ws + s == s;
    }
  }

  /** Blanks, then the text of a number, read back as that number. */
  lemma ScanIntSpacedText(ws: string, i: int, rest: string)
    requires forall k :: 0 <= k < |ws| ==> IsSpace(ws[k])
    requires rest == [] || !IsDigit(rest[0])
    ensures ScanInt(ws + IntText(i) + rest) == Some((i, rest))
  {
    assert ws + IntText(i) + rest == ws + (IntText(i) + rest);
    ScanIntSkipsSpaces(ws, IntText(i) + rest);
    ScanIntText(i, rest);
  }

  /** Two successive `%d` conversions that both succeed make `ScanPin` succeed. */
  lemma ScanPinOfScans(text: string, device: int, rest: string, pin: int, tail: string)
    requires ScanInt(text) == Some((device, rest))
    requires ScanInt(rest) == Some((pin, tail))
    ensures ScanPin(text) == Some((device, pin))
  {
  }

  /**
   * The text "<device> <pin>" yields exactly (device, pin), whatever
   * follows it as long as it does not extend the second number.
   */
  lemma ScanPinText(device: int, pin: int, tail: string)
    requires tail == [] || !IsDigit(tail[0])
    ensures ScanPin(IntText(device) + " " + IntText(pin) + tail) == Some((device, pin))
  {
    var rest := IntText(pin) + tail;
    var second := " " + rest;
    var text := IntText(device) + " " + IntText(pin) + tail;
    assert text == IntText(device) + second;
    ScanIntText(device, second);
    ScanIntSkipsSpace(' ', rest);
    ScanIntText(pin, tail);
    ScanPinOfScans(text, device, second, pin, tail);
  }

  /**
   * The round trip with any white space the format accepts: blanks before
   * the device number, and blanks between the two numbers, which may be
   * left out only when the pin carries a minus sign.
   */
  lemma ScanPinSpacedText(ws1: string, device: int, ws2: string, pin: int, tail: string)
    requires forall i :: 0 <= i < |ws1| ==> IsSpace(ws1[i])
    requires forall i :: 0 <= i < |ws2| ==> IsSpace(ws2[i])
    requires ws2 != [] || pin < 0
    requires tail == [] || !IsDigit(tail[0])
    ensures ScanPin(ws1 + IntText(device) + ws2 + IntText(pin) + tail) == Some((device, pin))
  {
    var second := ws2 + IntText(pin) + tail;
    var text := ws1 + IntText(device) + ws2 + IntText(pin) + tail;
    assert text == ws1 + IntText(device) + second;
    assert second[0] == '-' || IsSpace(second[0]);
    ScanIntSpacedText(ws1, device, second);
    ScanIntSpacedText(ws2, pin, tail);
    ScanPinOfScans(text, device, second, pin, tail);
  }

  /** A `%d` conversion fails on text that has no decimal digit. */
  lemma NoDigitNoInt(text: string)
    requires forall i :: 0 <= i < |text| ==> !IsDigit(text[i])
    ensures ScanInt(text) == None
  {
    var t := SkipSpace(text);
    SkipSpaceSuffix(text);
    var signed := t != [] && (t[0] == '+' || t[0] == '-');
    var u := if signed then t[1..] else t;
    if u != [] {
      assert u[0] == text[|text| - |u|];
    }
    assert ScanDigits(u) == None;
  }

  /** What a signed conversion leaves unread is what its digits part leaves. */
  lemma ScanSignedRest(t: string)
    requires ScanSigned(t).Some?
    ensures var u := if t != [] && (t[0] == '+' || t[0] == '-') then t[1..] else t;
      ScanDigits(u).Some? && ScanSigned(t).value.1 == ScanDigits(u).value.1
  {
  }

  /** After a successful signed conversion, the unread rest is a suffix that follows a digit. */
  lemma ScanSignedShape(t: string)
    requires ScanSigned(t).Some?
    ensures var rest := ScanSigned(t).value.1;
      IsSuffix(rest, t) && IsDigit(t[|t| - |rest| - 1])
  {
    var u := if t != [] && (t[0] == '+' || t[0] == '-') then t[1..] else t;
    ScanSignedRest(t);
    var n := DigitRun(u);
    var rest := u[n..];
    assert ScanSigned(t).value.1 == rest;
    assert IsSuffix(u, t);
    SuffixOfSuffix(t, u, rest);
    assert u[n - 1] == t[|t| - |rest| - 1];
  }

  /**
   * After a successful `%d`, the unread rest is a suffix of the input that
   * starts right after a digit and does not itself start with one.
   */
  lemma ScanIntShape(s: string)
    requires ScanInt(s).Some?
    ensures var rest := ScanInt(s).value.1;
      |rest| < |s| && IsSuffix(rest, s) && IsDigit(s[|s| - |rest| - 1])
      && (rest == [] || !IsDigit(rest[0]))
  {
    var t := SkipSpace(s);
    SkipSpaceSuffix(s);
    ScanSignedShape(t);
    var rest := ScanSigned(t).value.1;
    assert ScanInt(s).value.1 == rest;
    SuffixOfSuffix(s, t, rest);
    assert t[|t| - |rest| - 1] == s[|s| - |rest| - 1];
  }

  /** All the decimal digits of `text` stand in one unbroken run: it holds at most one number. */
  predicate OneDigitRun(text: string) {
    forall i, j, k :: 0 <= i < j < k < |text| && IsDigit(text[i]) && IsDigit(text[k]) ==> IsDigit(text[j])
  }

  /** Text with no decimal digit (the empty string among others) never yields a pin. */
  lemma NoDigitNoPin(text: string)
    requires forall i :: 0 <= i < |text| ==> !IsDigit(text[i])
    ensures ScanPin(text) == None
  {
    NoDigitNoInt(text);
  }

  /**
   * One number alone is not enough: text whose digits form a single run,
   * however it is written (leading blanks, a sign, leading zeros, trailing
   * text), never yields a pin.
   */
  lemma OneRunNoPin(text: string)
    requires OneDigitRun(text)
    ensures ScanPin(text) == None
  {
    if ScanInt(text).Some? {
      ScanIntShape(text);
      var rest := ScanInt(text).value.1;
      var p := |text| - |rest|;
      forall k | 0 <= k < |rest|
        ensures !IsDigit(rest[k])
      {
        assert rest[k] == text[p + k];
        if k > 0 {
          assert rest[0] == text[p];
          assert IsDigit(text[p - 1]) && !IsDigit(text[p]);
        }
      }
      NoDigitNoInt(rest);
    }
  }

  /** In particular, the text of one number followed by digit-free text yields no pin. */
  lemma OneNumberNoPin(device: int, tail: string)
    requires forall i :: 0 <= i < |tail| ==> !IsDigit(tail[i])
    ensures ScanPin(IntText(device) + tail) == None
  {
    ScanIntText(device, tail);
    NoDigitNoInt(tail);
  }

  /** Written with a blank, a plus sign and leading zeros, one number is still refused. */
  lemma OneSignedNumberNoPin()
    ensures ScanPin(" +07 x") == None
  {
    OneRunNoPin(" +07 x");
  }

  /** A sign directly after the device number starts the pin: "0-2" is device 0, pin -2. */
  lemma ScanPinSignedWithoutBlank()
    ensures ScanPin("0-2") == Some((0, -2))
  {
    assert IntText(0) == "0";
    assert IntText(-2) == "-2";
    ScanIntText(0, "-2");
    assert "0-2" == IntText(0) + "-2";
    ScanIntText(-2, "");
    assert "-2" == IntText(-2) + "";
  }
}
