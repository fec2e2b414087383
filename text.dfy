/**
 * String operations the source takes from its languages' standard libraries, restricted to
 * ASCII: lower/upper-casing, whitespace trimming, substring search (`includes` / `in`),
 * splitting on a one-character separator, and the digit handling of Python's `int`.
 */
module Text {
  import opened Wrappers
  import Lists

  function LowerChar(c: char): char {
    if 'A' <= c <= 'Z' then (c as int - 'A' as int + 'a' as int) as char else c
  }

  function UpperChar(c: char): char {
    if 'a' <= c <= 'z' then (c as int - 'a' as int + 'A' as int) as char else c
  }

  /** `toLowerCase()` / `lower()` on ASCII text. */
  function Lower(s: string): (r: string)
    ensures |r| == |s|
    ensures forall i :: 0 <= i < |s| ==> r[i] == LowerChar(s[i])
  {
    if s == [] then [] else [LowerChar(s[0])] + Lower(s[1..])
  }

  /** `toUpperCase()` on ASCII text. */
  function Upper(s: string): (r: string)
    ensures |r| == |s|
    ensures forall i :: 0 <= i < |s| ==> r[i] == UpperChar(s[i])
  {
    if s == [] then [] else [UpperChar(s[0])] + Upper(s[1..])
  }

  /** ASCII white space as C's `isspace` sees it: tab, line feed, vertical tab, form feed, carriage return, space. */
  predicate IsSpace(c: char) {
    9 <= c as int <= 13 || c == ' '
  }

  /** JavaScript's white space and line terminators, which `trim()` and `parseFloat` skip. */
  predicate IsJsSpace(c: char) {
    var n := c as int;
    (9 <= n <= 13) || n == 0x20 || n == 0xA0 || n == 0x1680 || (0x2000 <= n <= 0x200A) ||
    n == 0x2028 || n == 0x2029 || n == 0x202F || n == 0x205F || n == 0x3000 || n == 0xFEFF
  }

  /** Python's `str.isspace()`, the characters `str.strip()` removes; unlike JavaScript it includes the separators 0x1C-0x1F and 0x85. */
  predicate IsPySpace(c: char) {
    var n := c as int;
    (9 <= n <= 13) || (0x1C <= n <= 0x20) || n == 0x85 || n == 0xA0 || n == 0x1680 || (0x2000 <= n <= 0x200A) ||
    n == 0x2028 || n == 0x2029 || n == 0x202F || n == 0x205F || n == 0x3000
  }

  /**
   * The characters Python's `int()` skips around a number: non-ASCII white space is first
   * turned into a space, ASCII is kept as it is and then only C's `isspace` set is skipped,
   * so the separators 0x1C-0x1F are refused.
   */
  predicate IsIntSpace(c: char) {
    IsSpace(c) || (c as int >= 128 && IsPySpace(c))
  }

  /** Removes the leading characters that satisfy `drop`. */
  function DropLeading(s: string, drop: char -> bool): string {
    if s != [] && drop(s[0]) then DropLeading(s[1..], drop) else s
  }

  /** Removes the trailing characters that satisfy `drop`. */
  function DropTrailing(s: string, drop: char -> bool): string {
    if s != [] && drop(s[|s| - 1]) then DropTrailing(s[..|s| - 1], drop) else s
  }

  /** Python's `strip(chars)` / JavaScript's `trim()`: both ends. */
  function Strip(s: string, drop: char -> bool): string {
    DropTrailing(DropLeading(s, drop), drop)
  }

  /** `s.trim() === ''`. */
  predicate IsBlank(s: string) {
    Strip(s, IsJsSpace) == ""
  }

  /** Dropping leading characters leaves nothing exactly when every character is dropped. */
  lemma {:induction false} DropLeadingAll(s: string, drop: char -> bool)
    ensures DropLeading(s, drop) == [] <==> forall i :: 0 <= i < |s| ==> drop(s[i])
  {
    if s != [] {
      DropLeadingAll(s[1..], drop);
      if drop(s[0]) && forall i :: 0 <= i < |s| - 1 ==> drop(s[1..][i]) {
        forall i | 0 <= i < |s| ensures drop(s[i]) {
          if i > 0 {
            assert s[i] == s[1..][i - 1];
          }
        }
      }
    }
  }

  /** A string trims to nothing exactly when every character of it is white space. */
  lemma BlankIffAllSpace(s: string)
    ensures IsBlank(s) <==> forall i :: 0 <= i < |s| ==> IsJsSpace(s[i])
  {
    DropLeadingAll(s, IsJsSpace);
    DropLeadingStartsKept(s, IsJsSpace);
    var lead := DropLeading(s, IsJsSpace);
    if lead != [] {
      assert DropTrailing(lead, IsJsSpace) != [] by {
        DropTrailingKeepsFirst(lead, IsJsSpace);
      }
    }
  }

  /** Dropping trailing characters keeps a non-empty string non-empty when its first character is kept. */
  lemma {:induction false} DropTrailingKeepsFirst(s: string, drop: char -> bool)
    requires s != [] && !drop(s[0])
    ensures DropTrailing(s, drop) != []
  {
    if drop(s[|s| - 1]) {
      DropTrailingKeepsFirst(s[..|s| - 1], drop);
    }
  }

  /** The leading-drop result begins with a kept character. */
  lemma {:induction false} DropLeadingStartsKept(s: string, drop: char -> bool)
    ensures DropLeading(s, drop) == [] || !drop(DropLeading(s, drop)[0])
  {
    if s != [] && drop(s[0]) {
      DropLeadingStartsKept(s[1..], drop);
    }
  }

  /** Leading dropped characters followed by a kept one are exactly what `DropLeading` removes. */
  lemma {:induction false} DropLeadingPrefix(ws: string, t: string, drop: char -> bool)
    requires forall i :: 0 <= i < |ws| ==> drop(ws[i])
    requires t == [] || !drop(t[0])
    ensures DropLeading(ws + t, drop) == t
  {
    if ws == [] {
      assert ws + t == t;
    } else {
      assert (ws + t)[1..] == ws[1..] + t;
      DropLeadingPrefix(ws[1..], t, drop);
    }
  }

  /** Trailing dropped characters after a kept one are exactly what `DropTrailing` removes. */
  lemma {:induction false} DropTrailingSuffix(t: string, ws: string, drop: char -> bool)
    requires forall i :: 0 <= i < |ws| ==> drop(ws[i])
    requires t == [] || !drop(t[|t| - 1])
    ensures DropTrailing(t + ws, drop) == t
  {
    if ws == [] {
      assert t + ws == t;
    } else {
      var init := ws[..|ws| - 1];
      assert (t + ws)[..|t + ws| - 1] == t + init;
      DropTrailingSuffix(t, init, drop);
    }
  }

  /** `DropLeading` removes a prefix made of dropped characters. */
  lemma {:induction false} DropLeadingIsSuffix(s: string, drop: char -> bool)
    ensures |DropLeading(s, drop)| <= |s|
    ensures DropLeading(s, drop) == s[|s| - |DropLeading(s, drop)|..]
    ensures forall i :: 0 <= i < |s| - |DropLeading(s, drop)| ==> drop(s[i])
  {
    if s != [] && drop(s[0]) {
      DropLeadingIsSuffix(s[1..], drop);
      forall i | 0 < i < |s| - |DropLeading(s, drop)| ensures drop(s[i]) {
        assert s[i] == s[1..][i - 1];
      }
    }
  }

  /** `DropTrailing` removes a suffix made of dropped characters. */
  lemma {:induction false} DropTrailingIsPrefix(s: string, drop: char -> bool)
    ensures |DropTrailing(s, drop)| <= |s|
    ensures DropTrailing(s, drop) == s[..|DropTrailing(s, drop)|]
    ensures forall i :: |DropTrailing(s, drop)| <= i < |s| ==> drop(s[i])
  {
    if s != [] && drop(s[|s| - 1]) {
      DropTrailingIsPrefix(s[..|s| - 1], drop);
    }
  }

  /**
   * `Strip` keeps one slice of its input: everything before and after it is dropped, and the
   * slice neither starts nor ends with a dropped character.
   */
  lemma StripSlice(s: string, drop: char -> bool)
    ensures var r, i := Strip(s, drop), |s| - |DropLeading(s, drop)|;
            && OccursAt(s, r, i)
            && (forall k :: 0 <= k < i ==> drop(s[k]))
            && (forall k :: i + |r| <= k < |s| ==> drop(s[k]))
            && (r == [] || (!drop(r[0]) && !drop(r[|r| - 1])))
  {
    var l := DropLeading(s, drop);
    DropLeadingIsSuffix(s, drop);
    DropTrailingIsPrefix(l, drop);
    DropLeadingStartsKept(s, drop);
    var r := DropTrailing(l, drop);
    var i := |s| - |l|;
    assert s[i..i + |r|] == l[..|r|];
    if r != [] {
      assert r[0] == l[0];
      DropTrailingEndsKept(l, drop);
    }
    forall k | i + |r| <= k < |s| ensures drop(s[k]) {
      assert s[k] == l[k - i];
    }
  }

  /** Stripping twice keeps one slice of the input, surrounded by characters either strip drops. */
  lemma StripTwiceSlice(v: string, d1: char -> bool, d2: char -> bool)
    ensures var r := Strip(Strip(v, d1), d2);
            exists i :: OccursAt(v, r, i)
              && (forall k :: 0 <= k < i ==> d1(v[k]) || d2(v[k]))
              && (forall k :: i + |r| <= k < |v| ==> d1(v[k]) || d2(v[k]))
  {
    var w := Strip(v, d1);
    var r := Strip(w, d2);
    StripSlice(v, d1);
    StripSlice(w, d2);
    var i, j := |v| - |DropLeading(v, d1)|, |w| - |DropLeading(w, d2)|;
    OccursWithin(v, w, r, i, j);
    forall k | 0 <= k < i + j ensures d1(v[k]) || d2(v[k]) {
      if k >= i {
        assert v[k] == w[k - i];
      }
    }
    forall k | i + j + |r| <= k < |v| ensures d1(v[k]) || d2(v[k]) {
      if k < i + |w| {
        assert v[k] == w[k - i];
      }
    }
    assert OccursAt(v, r, i + j);
  }

  /** A slice of a slice is a slice, at the sum of the offsets. */
  lemma OccursWithin(v: string, w: string, r: string, i: int, j: int)
    requires OccursAt(v, w, i) && OccursAt(w, r, j)
    ensures OccursAt(v, r, i + j)
  {
    forall k | 0 <= k < |r| ensures v[i + j + k] == r[k] {
      assert r[k] == w[j + k] == v[i..i + |w|][j + k];
    }
    assert v[i + j..i + j + |r|] == r;
  }

  /** The trailing-drop result ends with a kept character. */
  lemma {:induction false} DropTrailingEndsKept(s: string, drop: char -> bool)
    ensures DropTrailing(s, drop) == [] || !drop(DropTrailing(s, drop)[|DropTrailing(s, drop)| - 1])
  {
    if s != [] && drop(s[|s| - 1]) {
      DropTrailingEndsKept(s[..|s| - 1], drop);
    }
  }

  /** `s.includes(sub)` / Python's `sub in s`. */
  predicate Contains(s: string, sub: string)
    decreases |s|
  {
    sub <= s || (s != [] && Contains(s[1..], sub))
  }

  /** `sub` occurs in `s` starting at position `i`. */
  predicate OccursAt(s: string, sub: string, i: int) {
    0 <= i <= |s| - |sub| && sub == s[i..i + |sub|]
  }

  /** `Contains` holds exactly when `sub` occurs at some position of `s`. */
  lemma {:induction false} ContainsIffOccurs(s: string, sub: string)
    ensures Contains(s, sub) <==> exists i :: OccursAt(s, sub, i)
  {
    if sub <= s {
      assert OccursAt(s, sub, 0);
    }
    if OccursAt(s, sub, 0) {
      assert sub <= s;
    }
    if s != [] {
      ContainsIffOccurs(s[1..], sub);
      forall i | 0 < i && OccursAt(s, sub, i) ensures OccursAt(s[1..], sub, i - 1) {
        assert s[1..][i - 1..i - 1 + |sub|] == s[i..i + |sub|];
      }
      forall j | OccursAt(s[1..], sub, j) ensures OccursAt(s, sub, j + 1) {
        assert s[1..][j..j + |sub|] == s[j + 1..j + 1 + |sub|];
      }
    } else {
      if exists i :: OccursAt(s, sub, i) {
        var i :| OccursAt(s, sub, i);
        assert sub == [];
      }
    }
  }

  /** The position of the first `c` in `s`, if any. */
  function FirstIndex(s: string, c: char): (r: Option<nat>)
    ensures r.Some? ==> r.value < |s| && s[r.value] == c && c !in s[..r.value]
    ensures r.None? ==> c !in s
  {
    if s == [] then None
    else if s[0] == c then Some(0)
    else match FirstIndex(s[1..], c)
      case None => None
      case Some(i) => assert s[1..][..i] == s[1..i + 1]; Some(i + 1)
  }

  /** The pieces joined back with the separator between them. */
  function Join(parts: seq<string>, sep: char): string {
    if parts == [] then ""
    else if |parts| == 1 then parts[0]
    else parts[0] + [sep] + Join(parts[1..], sep)
  }

  /**
   * `s.split(sep)` for a one-character separator (the same in JavaScript and Python):
   * the pieces between separators, including empty ones.
   */
  function Split(s: string, sep: char): (parts: seq<string>)
    ensures |parts| >= 1
    ensures forall k :: 0 <= k < |parts| ==> sep !in parts[k]
    ensures Join(parts, sep) == s
    decreases |s|
  {
    match FirstIndex(s, sep)
    case None => [s]
    case Some(i) =>
      var rest := Split(s[i + 1..], sep);
      assert s == s[..i] + [sep] + s[i + 1..];
      [s[..i]] + rest
  }

  predicate IsDigit(c: char) {
    '0' <= c <= '9'
  }

  /** `''.join(filter(str.isdigit, s))`. */
  function DigitsOf(s: string): (r: string)
    ensures forall i :: 0 <= i < |r| ==> IsDigit(r[i])
  {
    Lists.Keep(s, IsDigit)
  }

  /** The value of a string of decimal digits. */
  function DecimalValue(ds: string): (n: nat)
    requires forall i :: 0 <= i < |ds| ==> IsDigit(ds[i])
    ensures |ds| > 0 ==> n == 10 * DecimalValue(ds[..|ds| - 1]) + (ds[|ds| - 1] as int - '0' as int)
  {
    if ds == [] then 0
    else
      var last := ds[|ds| - 1];
      assert IsDigit(last);
      10 * DecimalValue(ds[..|ds| - 1]) + (last as int - '0' as int)
  }

  predicate AllDigits(ds: string) {
    forall i :: 0 <= i < |ds| ==> IsDigit(ds[i])
  }

  /**
   * Python's `int(s)` on a string: surrounding white space, an optional sign, then one or
   * more decimal digits; anything else raises (here: `None`).
   */
  function ParseInt(s: string): (r: Option<int>)
    ensures r.Some? ==> Strip(s, IsIntSpace) != ""
  {
    ParseSigned(Strip(s, IsIntSpace))
  }

  /** What `int` makes of the text once the white space is stripped: an optional sign, then digits. */
  function ParseSigned(t: string): (r: Option<int>)
    ensures r.Some? ==> t != ""
  {
    if t == [] then None
    else
      var body := if t[0] == '-' || t[0] == '+' then t[1..] else t;
      if body != [] && AllDigits(body)
      then Some(if t[0] == '-' then -(DecimalValue(body) as int) else DecimalValue(body))
      else None
  }

  /** `s` is white space, an optional sign, one or more decimal digits, then white space. */
  predicate IntegerText(s: string, lead: string, sign: string, ds: string, trail: string) {
    && s == lead + sign + ds + trail
    && (forall i :: 0 <= i < |lead| ==> IsIntSpace(lead[i]))
    && (forall i :: 0 <= i < |trail| ==> IsIntSpace(trail[i]))
    && (sign == "" || sign == "+" || sign == "-")
    && ds != [] && AllDigits(ds)
  }

  /** The value of optionally signed decimal digits. */
  function SignedValue(sign: string, ds: string): int
    requires AllDigits(ds)
  {
    if sign == "-" then -(DecimalValue(ds) as int) else DecimalValue(ds) as int
  }

  /** `int` converts white space, an optional sign and decimal digits to their signed value. */
  lemma ParseIntAccepts(s: string, lead: string, sign: string, ds: string, trail: string)
    requires IntegerText(s, lead, sign, ds, trail)
    ensures ParseInt(s) == Some(SignedValue(sign, ds))
  {
    StripIntegerText(s, lead, sign, ds, trail);
    ParseSignedDigits(sign, ds);
  }

  /** A sign or none followed by digits parses to their signed value. */
  lemma ParseSignedDigits(sign: string, ds: string)
    requires sign == "" || sign == "+" || sign == "-"
    requires ds != [] && AllDigits(ds)
    ensures ParseSigned(sign + ds) == Some(SignedValue(sign, ds))
  {
    var t := sign + ds;
    if sign == "" {
      assert t == ds;
      assert IsDigit(ds[0]);
    } else {
      assert t[0] == sign[0];
      assert t[1..] == ds;
    }
  }

  /** Stripping an integer text leaves its sign and digits. */
  lemma StripIntegerText(s: string, lead: string, sign: string, ds: string, trail: string)
    requires IntegerText(s, lead, sign, ds, trail)
    ensures Strip(s, IsIntSpace) == sign + ds
  {
    var t := sign + ds;
    assert s == lead + (t + trail);
    assert t[0] == (if sign == "" then ds[0] else sign[0]);
    assert !IsIntSpace(t[0]);
    assert (t + trail)[0] == t[0];
    DropLeadingPrefix(lead, t + trail, IsIntSpace);
    assert t[|t| - 1] == ds[|ds| - 1];
    DropTrailingSuffix(t, trail, IsIntSpace);
  }

  /** A successful parse found a sign, if any, and then digits. */
  lemma ParseSignedFoundDigits(t: string)
    requires ParseSigned(t).Some?
    ensures t != []
    ensures var body := if t[0] == '-' || t[0] == '+' then t[1..] else t;
            body != [] && AllDigits(body)
  {
  }

  /** `Strip` cuts the input into dropped characters, the result, and dropped characters. */
  lemma StripParts(s: string, drop: char -> bool) returns (lead: string, trail: string)
    ensures s == lead + Strip(s, drop) + trail
    ensures forall k :: 0 <= k < |lead| ==> drop(lead[k])
    ensures forall k :: 0 <= k < |trail| ==> drop(trail[k])
  {
    StripSlice(s, drop);
    lead, trail := SliceParts(s, Strip(s, drop), |s| - |DropLeading(s, drop)|, drop);
  }

  /** A slice surrounded by dropped characters splits its string into three parts. */
  lemma SliceParts(s: string, t: string, i: int, drop: char -> bool) returns (lead: string, trail: string)
    requires OccursAt(s, t, i)
    requires forall k :: 0 <= k < i ==> drop(s[k])
    requires forall k :: i + |t| <= k < |s| ==> drop(s[k])
    ensures s == lead + t + trail
    ensures forall k :: 0 <= k < |lead| ==> drop(lead[k])
    ensures forall k :: 0 <= k < |trail| ==> drop(trail[k])
  {
    lead, trail := s[..i], s[i + |t|..];
    var rest := s[i..];
    assert s == lead + rest;
    assert rest[..|t|] == t && rest[|t|..] == trail;
    assert rest == t + trail;
    forall k | 0 <= k < |lead| ensures drop(lead[k]) {
      assert lead[k] == s[k];
    }
    forall k | 0 <= k < |trail| ensures drop(trail[k]) {
      assert trail[k] == s[i + |t| + k];
    }
  }

  lemma ConcatRegroup(s: string, lead: string, sign: string, ds: string, trail: string)
    requires s == lead + (sign + ds) + trail
    ensures s == lead + sign + ds + trail
  {
  }

  /** White space, a sign or none, digits, and white space form an integer text. */
  lemma SignedDigitsText(s: string, lead: string, t: string, trail: string)
    requires s == lead + t + trail
    requires forall k :: 0 <= k < |lead| ==> IsIntSpace(lead[k])
    requires forall k :: 0 <= k < |trail| ==> IsIntSpace(trail[k])
    requires t != []
    requires var body := if t[0] == '-' || t[0] == '+' then t[1..] else t;
             body != [] && AllDigits(body)
    ensures exists lead', sign, ds, trail' :: IntegerText(s, lead', sign, ds, trail')
  {
    var signed := t[0] == '-' || t[0] == '+';
    var sign := if signed then t[..1] else [];
    var ds := if signed then t[1..] else t;
    assert t == sign + ds;
    ConcatRegroup(s, lead, sign, ds, trail);
    assert IntegerText(s, lead, sign, ds, trail);
  }

  /** Every string `int` converts has that shape. */
  lemma ParseIntOnlyIntegerText(s: string)
    requires ParseInt(s).Some?
    ensures exists lead, sign, ds, trail :: IntegerText(s, lead, sign, ds, trail)
  {
    var t := Strip(s, IsIntSpace);
    ParseSignedFoundDigits(t);
    var lead, trail := StripParts(s, IsIntSpace);
    SignedDigitsText(s, lead, t, trail);
  }

  /**
   * `int(s)` succeeds exactly on white space, an optional sign, decimal digits and white
   * space, and then yields their signed value.
   */
  lemma ParseIntShape(s: string)
    ensures ParseInt(s).Some? <==> exists lead, sign, ds, trail :: IntegerText(s, lead, sign, ds, trail)
    ensures forall lead, sign, ds, trail :: IntegerText(s, lead, sign, ds, trail) ==> ParseInt(s) == Some(SignedValue(sign, ds))
  {
    forall lead, sign, ds, trail | IntegerText(s, lead, sign, ds, trail)
      ensures ParseInt(s) == Some(SignedValue(sign, ds))
    {
      ParseIntAccepts(s, lead, sign, ds, trail);
    }
    if ParseInt(s).Some? {
      ParseIntOnlyIntegerText(s);
    }
  }
}
