/** Ugandan phone-number display (`formatUgandaPhone`): `+256` followed by
    nine digits is shown as `+256 ddd ddd ddd`; anything else is shown as the
    author typed it. */
module Phone {

  /** `\d` of a JavaScript regular expression without the `u` flag. */
  predicate IsDigit(c: char) {
    '0' <= c <= '9'
  }

  /** The characters `[^\d+]` does not match. */
  predicate IsPhoneChar(c: char) {
    IsDigit(c) || c == '+'
  }

  /** `\s`: the WhiteSpace and LineTerminator code points of ECMA-262 (tab,
      line feed, vertical tab, form feed, carriage return, space, no-break
      space, the Zs separators, the line and paragraph separators, and the
      byte order mark). */
  predicate IsJsSpace(c: char) {
    var u := c as int;
    || (0x09 <= u <= 0x0D) || u == 0x20 || u == 0xA0 || u == 0x1680
    || (0x2000 <= u <= 0x200A) || u == 0x2028 || u == 0x2029 || u == 0x202F
    || u == 0x205F || u == 0x3000 || u == 0xFEFF
  }

  /** `raw.replace(/[^\d+]/g, '')`: every character but digits and `+` removed. */
  function Clean(s: string): (r: string)
    ensures |r| <= |s|
    ensures forall i :: 0 <= i < |r| ==> IsPhoneChar(r[i])
    decreases |s|
  {
    if s == [] then [] else (if IsPhoneChar(s[0]) then [s[0]] else []) + Clean(s[1..])
  }

  predicate AllDigits(s: string) {
    forall i :: 0 <= i < |s| ==> IsDigit(s[i])
  }

  /** `/^\+256\d{9}$/`. */
  predicate IsCompact(s: string) {
    |s| == 13 && s[..4] == "+256" && AllDigits(s[4..])
  }

  /** `/^\+256\s\d{3}\s\d{3}\s\d{3}$/`. */
  predicate IsSpacedForm(s: string) {
    && |s| == 16 && s[..4] == "+256"
    && IsJsSpace(s[4]) && AllDigits(s[5..8])
    && IsJsSpace(s[8]) && AllDigits(s[9..12])
    && IsJsSpace(s[12]) && AllDigits(s[13..])
  }

  /** The display form of a compact number. */
  function Display(c: string): string
    requires IsCompact(c)
  {
    "+256 " + c[4..7] + " " + c[7..10] + " " + c[10..13]
  }

  /** `formatUgandaPhone`, its three branches as written (the second returns
      the input just like the third). A number is shown in display form
      exactly when it cleans to `+256` and nine digits, and the shown form
      keeps those digits; any other input is shown untouched. */
  function FormatUgandaPhone(raw: string): (r: string)
    ensures IsCompact(Clean(raw)) ==>
      && IsSpacedForm(r)
      && r[4] == ' ' && r[8] == ' ' && r[12] == ' '
      && Clean(r) == Clean(raw)
    ensures !IsCompact(Clean(raw)) ==> r == raw
  {
    var clean := Clean(raw);
    if IsCompact(clean) then
      var d := Display(clean);
      CompactSplits(clean);
      assert d[5..8] == clean[4..7] && d[9..12] == clean[7..10] && d[13..] == clean[10..13];
      assert d[4] == ' ' && d[8] == ' ' && d[12] == ' ';
      assert IsSpacedForm(d);
      CleanOfDisplay(clean);
      d
    else if IsSpacedForm(raw) then raw
    else raw
  }

  lemma {:induction false} CleanAppend(a: string, b: string)
    ensures Clean(a + b) == Clean(a) + Clean(b)
    decreases |a|
  {
    if a == [] {
      assert a + b == b;
    } else {
      assert (a + b)[0] == a[0];
      assert (a + b)[1..] == a[1..] + b;
      CleanAppend(a[1..], b);
    }
  }

  /** Cleaning keeps a string made of digits and `+` as it is. */
  lemma {:induction false} CleanKeepsPhoneChars(s: string)
    requires forall i :: 0 <= i < |s| ==> IsPhoneChar(s[i])
    ensures Clean(s) == s
    decreases |s|
  {
    if s != [] {
      CleanKeepsPhoneChars(s[1..]);
    }
  }

  /** A separator followed by a group of digits cleans to the digits. */
  lemma CleanGroup(sep: char, x: string)
    requires !IsPhoneChar(sep) && AllDigits(x)
    ensures Clean([sep] + x) == x
  {
    CleanAppend([sep], x);
    assert [sep][1..] == [];
    CleanKeepsPhoneChars(x);
  }

  /** `+256`, then three separated groups of digits. */
  function Grouped(s1: char, x: string, s2: char, y: string, s3: char, z: string): string {
    "+256" + ([s1] + x) + ([s2] + y) + ([s3] + z)
  }

  lemma CleanGrouped(s1: char, x: string, s2: char, y: string, s3: char, z: string)
    requires !IsPhoneChar(s1) && !IsPhoneChar(s2) && !IsPhoneChar(s3)
    requires AllDigits(x) && AllDigits(y) && AllDigits(z)
    ensures Clean(Grouped(s1, x, s2, y, s3, z)) == "+256" + x + y + z
  {
    var g1, g2, g3 := [s1] + x, [s2] + y, [s3] + z;
    CleanAppend("+256" + g1 + g2, g3);
    CleanAppend("+256" + g1, g2);
    CleanAppend("+256", g1);
    CleanKeepsPhoneChars("+256");
    CleanGroup(s1, x);
    CleanGroup(s2, y);
    CleanGroup(s3, z);
  }

  lemma CompactSplits(c: string)
    requires IsCompact(c)
    ensures AllDigits(c[4..7]) && AllDigits(c[7..10]) && AllDigits(c[10..13])
    ensures c == "+256" + c[4..7] + c[7..10] + c[10..13]
    ensures Display(c) == Grouped(' ', c[4..7], ' ', c[7..10], ' ', c[10..13])
  {
    assert forall i :: 4 <= i < 13 ==> c[4..][i - 4] == c[i];
    assert c == c[..4] + c[4..7] + c[7..10] + c[10..13];
  }

  /** Cleaning the display form gives back the compact number. */
  lemma CleanOfDisplay(c: string)
    requires IsCompact(c)
    ensures Clean(Display(c)) == c
  {
    CompactSplits(c);
    CleanGrouped(' ', c[4..7], ' ', c[7..10], ' ', c[10..13]);
  }

  /** Formatting an already formatted number changes nothing. */
  lemma FormatIdempotent(raw: string)
    ensures FormatUgandaPhone(FormatUgandaPhone(raw)) == FormatUgandaPhone(raw)
  {
    if IsCompact(Clean(raw)) {
      CleanOfDisplay(Clean(raw));
    }
  }

  /** The second branch is never the one that answers: any input it matches
      already cleans to `+256` and nine digits, and is answered by the first
      branch, which gives back that very input when its separators are plain
      spaces. */
  lemma SpacedFormHandledByFirstBranch(raw: string)
    requires IsSpacedForm(raw)
    ensures IsCompact(Clean(raw))
    ensures raw[4] == ' ' && raw[8] == ' ' && raw[12] == ' ' ==> FormatUgandaPhone(raw) == raw
  {
    var x, y, z := raw[5..8], raw[9..12], raw[13..];
    assert raw == Grouped(raw[4], x, raw[8], y, raw[12], z);
    CleanGrouped(raw[4], x, raw[8], y, raw[12], z);
    var c := Clean(raw);
    assert c == "+256" + x + y + z;
    assert c[..4] == "+256";
    assert c[4..] == x + y + z;
    assert c[4..7] == x && c[7..10] == y && c[10..13] == z;
    if raw[4] == ' ' && raw[8] == ' ' && raw[12] == ' ' {
      CompactSplits(c);
    }
  }
}
