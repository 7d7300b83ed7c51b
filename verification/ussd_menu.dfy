/**
 * The USSD helper library: phone-number cleaning, normalisation and validation,
 * splitting the gateway's accumulated `*`-joined input, amount and index parsing,
 * overdue-day arithmetic, and the `CON`/`END` message builders.
 * Every member is a pure function of its arguments; "today" is a parameter.
 */
module UssdMenu {
  import opened Util

  // ---------------------------------------------------------------------------
  // Characters

  /** The characters JavaScript's `\s` matches and `String.prototype.trim` strips. */
  predicate IsJsSpace(c: char) {
    || c == '\t' || c == '\n' || c == '\U{000B}' || c == '\U{000C}' || c == '\r' || c == ' '
    || c == '\U{00A0}' || c == '\U{1680}' || ('\U{2000}' <= c <= '\U{200A}')
    || c == '\U{2028}' || c == '\U{2029}' || c == '\U{202F}' || c == '\U{205F}'
    || c == '\U{3000}' || c == '\U{FEFF}'
  }

  /** The class `[\s\-\+]` stripped from phone numbers. */
  predicate IsPhoneSeparator(c: char) {
    IsJsSpace(c) || c == '-' || c == '+'
  }

  /** JavaScript's `\d`: ASCII digits only. */
  predicate IsDigit(c: char) {
    '0' <= c <= '9'
  }

  predicate AllDigits(s: string) {
    forall i :: 0 <= i < |s| ==> IsDigit(s[i])
  }

  predicate NoSeparators(s: string) {
    forall i :: 0 <= i < |s| ==> !IsPhoneSeparator(s[i])
  }

  predicate IsBlank(s: string) {
    forall i :: 0 <= i < |s| ==> IsJsSpace(s[i])
  }

  // ---------------------------------------------------------------------------
  // Phone numbers

  /** `phoneNumber.replace(/[\s\-\+]/g, '')` */
  function StripSeparators(s: string): (r: string)
    ensures NoSeparators(r)
    ensures |r| <= |s|
  {
    if s == [] then []
    else if IsPhoneSeparator(s[0]) then StripSeparators(s[1..])
    else [s[0]] + StripSeparators(s[1..])
  }

  /** Stripping leaves a number that has no separators as it is. */
  lemma {:induction false} StripSeparatorsKeepsClean(s: string)
    requires NoSeparators(s)
    ensures StripSeparators(s) == s
  {
    if s != [] {
      assert NoSeparators(s[1..]) by {
        forall i | 0 <= i < |s[1..]| ensures !IsPhoneSeparator(s[1..][i]) {
          assert s[1..][i] == s[i + 1];
        }
      }
      StripSeparatorsKeepsClean(s[1..]);
    }
  }

  /** Stripping works piece by piece: it keeps every other character, in order. */
  lemma {:induction false} StripSeparatorsConcat(a: string, b: string)
    ensures StripSeparators(a + b) == StripSeparators(a) + StripSeparators(b)
  {
    if a != [] {
      assert (a + b)[0] == a[0];
      assert (a + b)[1..] == a[1..] + b;
      StripSeparatorsConcat(a[1..], b);
    } else {
      assert a + b == b;
    }
  }

  /**
   * Canonical `254…` form: separators removed, a leading `0` replaced by `254`,
   * a number already starting with `254` kept, anything else prefixed with `254`.
   */
  function NormalizePhone(phone: string): (r: string)
    ensures StartsWith(r, "254") && NoSeparators(r)
    ensures var c := StripSeparators(phone);
      && (StartsWith(c, "0") ==> r == "254" + c[1..])
      && (StartsWith(c, "254") ==> r == c)
      && (!StartsWith(c, "0") && !StartsWith(c, "254") ==> r == "254" + c)
  {
    var cleaned := StripSeparators(phone);
    assert StartsWith(cleaned, "0") ==> !StartsWith(cleaned, "254") by {
      if StartsWith(cleaned, "0") { assert cleaned[0] == "0"[0]; }
    }
    if StartsWith(cleaned, "0") then "254" + cleaned[1..]
    else if !StartsWith(cleaned, "254") then "254" + cleaned
    else cleaned
  }

  /** Normalising twice is normalising once. */
  lemma {:induction false} NormalizePhoneIdempotent(phone: string)
    ensures NormalizePhone(NormalizePhone(phone)) == NormalizePhone(phone)
  {
    var n := NormalizePhone(phone);
    StripSeparatorsKeepsClean(n);
    assert n[0] == '2';
  }

  /** A Kenyan subscriber number: `[17]\d{8}`. */
  predicate IsSubscriberNumber(t: string) {
    |t| == 9 && (t[0] == '1' || t[0] == '7') && forall i :: 1 <= i < 9 ==> IsDigit(t[i])
  }

  /** `/^(254|0)?[17]\d{8}$/` tested on the separator-free number. */
  predicate ValidatePhone(phone: string) {
    var c := StripSeparators(phone);
    || IsSubscriberNumber(c)
    || (StartsWith(c, "0") && IsSubscriberNumber(c[1..]))
    || (StartsWith(c, "254") && IsSubscriberNumber(c[3..]))
  }

  /**
   * A number that passes validation normalises to exactly twelve characters:
   * `254`, then `1` or `7`, then eight digits; and it still validates.
   */
  lemma ValidPhoneNormalForm(phone: string)
    requires ValidatePhone(phone)
    ensures var n := NormalizePhone(phone);
      |n| == 12 && n[..3] == "254" && IsSubscriberNumber(n[3..]) && ValidatePhone(n)
  {
    var c := StripSeparators(phone);
    var n := NormalizePhone(phone);
    if StartsWith(c, "0") && IsSubscriberNumber(c[1..]) {
      assert n == "254" + c[1..];
      assert n[3..] == c[1..];
    } else if StartsWith(c, "254") && IsSubscriberNumber(c[3..]) {
      assert n == c;
    } else {
      assert IsSubscriberNumber(c);
      assert !StartsWith(c, "0") && !StartsWith(c, "254");
      assert n == "254" + c;
      assert n[3..] == c;
    }
    StripSeparatorsKeepsClean(n);
  }

  // ---------------------------------------------------------------------------
  // Trimming

  /** Leading JavaScript whitespace removed. */
  function TrimStart(s: string): (r: string)
    ensures |r| <= |s| && r == s[|s| - |r|..]
    ensures IsBlank(s[..|s| - |r|])
    ensures r == [] || !IsJsSpace(r[0])
  {
    if s != [] && IsJsSpace(s[0]) then
      var r := TrimStart(s[1..]);
      assert s[..|s| - |r|] == [s[0]] + s[1..][..|s[1..]| - |r|];
      r
    else s
  }

  /** Trailing JavaScript whitespace removed. */
  function TrimEnd(s: string): (r: string)
    ensures |r| <= |s| && r == s[..|r|]
    ensures IsBlank(s[|r|..])
    ensures r == [] || !IsJsSpace(r[|r| - 1])
  {
    if s != [] && IsJsSpace(s[|s| - 1]) then
      var r := TrimEnd(s[..|s| - 1]);
      assert s[|r|..] == s[..|s| - 1][|r|..] + [s[|s| - 1]];
      r
    else s
  }

  /** `String.prototype.trim`. Trimming leaves nothing exactly when the text is blank. */
  function Trim(s: string): (r: string)
    ensures r == "" <==> IsBlank(s)
    ensures r == [] || (!IsJsSpace(r[0]) && !IsJsSpace(r[|r| - 1]))
    ensures |r| <= |s|
  {
    var a := TrimStart(s);
    var r := TrimEnd(a);
    TrimmedParts(s, a, r);
    r
  }

  /** Trimming a trimmed text changes nothing. */
  lemma TrimIdempotent(s: string)
    ensures Trim(Trim(s)) == Trim(s)
  {
    var r := Trim(s);
    assert TrimStart(r) == r;
    assert TrimEnd(r) == r;
  }

  lemma TrimmedParts(s: string, a: string, r: string)
    requires |a| <= |s| && a == s[|s| - |a|..] && IsBlank(s[..|s| - |a|]) && (a == [] || !IsJsSpace(a[0]))
    requires |r| <= |a| && r == a[..|r|] && IsBlank(a[|r|..]) && (r == [] || !IsJsSpace(r[|r| - 1]))
    ensures r == "" <==> IsBlank(s)
    ensures r == [] || (!IsJsSpace(r[0]) && !IsJsSpace(r[|r| - 1]))
  {
    var k := |s| - |a|;
    var lead := s[..k];
    assert IsBlank(lead);
    assert s == lead + a;
    if r == [] {
      assert a[|r|..] == a;
      assert a == [];
      assert s == lead;
    } else {
      assert r[0] == a[0];
      assert s[k] == a[0];
      assert !IsJsSpace(s[k]);
    }
  }

  /** The UTF-16 code units a character takes: two above the Basic Multilingual Plane. */
  function Utf16Width(c: char): nat {
    if c > '\U{FFFF}' then 2 else 1
  }

  /** The length `String.prototype.length` reports: UTF-16 code units. */
  function JsLength(s: string): (n: nat)
    ensures |s| <= n <= 2 * |s|
  {
    if s == [] then 0 else Utf16Width(s[0]) + JsLength(s[1..])
  }

  lemma JsLengthCons(c: char, t: string)
    ensures JsLength([c] + t) == Utf16Width(c) + JsLength(t)
  {
    assert ([c] + t)[1..] == t;
  }

  /** Text within the Basic Multilingual Plane. */
  predicate BmpOnly(s: string) {
    forall i :: 0 <= i < |s| ==> s[i] <= '\U{FFFF}'
  }

  /** Within the Basic Multilingual Plane, one character is one code unit. */
  lemma {:induction false} JsLengthOfBmp(s: string)
    requires BmpOnly(s)
    ensures JsLength(s) == |s|
  {
    if s != [] {
      assert BmpOnly(s[1..]) by {
        forall i | 0 <= i < |s[1..]| ensures s[1..][i] <= '\U{FFFF}' {
          assert s[1..][i] == s[i + 1];
        }
      }
      JsLengthOfBmp(s[1..]);
    }
  }

  // ---------------------------------------------------------------------------
  // Splitting the gateway's accumulated input

  /** `s.split(sep)`: always at least one segment, none containing `sep`. */
  function SplitOn(s: string, sep: char): (r: seq<string>)
    ensures |r| >= 1
    ensures forall i :: 0 <= i < |r| ==> sep !in r[i]
  {
    if s == [] then [[]]
    else
      var rest := SplitOn(s[1..], sep);
      if s[0] == sep then [[]] + rest
      else [[s[0]] + rest[0]] + rest[1..]
  }

  /** `parts.join(sep)`, the inverse of SplitOn. */
  function Join(parts: seq<string>, sep: char): string
    requires |parts| >= 1
  {
    if |parts| == 1 then parts[0] else parts[0] + [sep] + Join(parts[1..], sep)
  }

  /** Joining the segments again gives back the text that was split. */
  lemma {:induction false} JoinSplit(s: string, sep: char)
    ensures Join(SplitOn(s, sep), sep) == s
  {
    if s != [] {
      var rest := SplitOn(s[1..], sep);
      JoinSplit(s[1..], sep);
      if s[0] == sep {
        assert ([[]] + rest)[1..] == rest;
      } else {
        var r := [[s[0]] + rest[0]] + rest[1..];
        if |rest| == 1 {
          assert r == [[s[0]] + rest[0]];
        } else {
          assert r[1..] == rest[1..];
          assert Join(rest, sep) == rest[0] + [sep] + Join(rest[1..], sep);
        }
      }
    }
  }

  /** A text without the separator is a single segment. */
  lemma {:induction false} SplitWithoutSeparator(s: string, sep: char)
    requires sep !in s
    ensures SplitOn(s, sep) == [s]
  {
    if s != [] {
      assert s[0] != sep;
      assert sep !in s[1..];
      SplitWithoutSeparator(s[1..], sep);
      assert [s[0]] + s[1..] == s;
    }
  }

  /** Appending `sep` and a separator-free token adds exactly one segment at the end. */
  lemma {:induction false} SplitAppend(s: string, sep: char, tok: string)
    requires sep !in tok
    ensures SplitOn(s + [sep] + tok, sep) == SplitOn(s, sep) + [tok]
  {
    var t := s + [sep] + tok;
    if s == [] {
      assert t == [sep] + tok;
      assert t[1..] == tok;
      SplitWithoutSeparator(tok, sep);
    } else {
      assert t[0] == s[0];
      assert t[1..] == s[1..] + [sep] + tok;
      SplitAppend(s[1..], sep, tok);
      var rest := SplitOn(s[1..], sep);
      if s[0] != sep {
        assert (rest + [tok])[0] == rest[0];
        assert (rest + [tok])[1..] == rest[1..] + [tok];
      }
    }
  }

  /** `.filter(item => item.trim() !== '')` */
  function KeepNonBlank(parts: seq<string>): (r: seq<string>)
    ensures |r| <= |parts|
    ensures forall i :: 0 <= i < |r| ==> Trim(r[i]) != "" && r[i] in parts
    ensures forall p :: p in parts && Trim(p) != "" ==> p in r
  {
    if parts == [] then []
    else if Trim(parts[0]) != "" then [parts[0]] + KeepNonBlank(parts[1..])
    else KeepNonBlank(parts[1..])
  }

  lemma {:induction false} KeepNonBlankConcat(a: seq<string>, b: seq<string>)
    ensures KeepNonBlank(a + b) == KeepNonBlank(a) + KeepNonBlank(b)
  {
    if a == [] {
      assert a + b == b;
    } else {
      assert (a + b)[0] == a[0];
      assert (a + b)[1..] == a[1..] + b;
      KeepNonBlankConcat(a[1..], b);
    }
  }

  /**
   * `parseUSSDInput`: no tokens for absent or empty text; otherwise the
   * `*`-separated segments in order, whitespace-only ones dropped, the others untrimmed.
   */
  function ParseInput(text: Option<string>): (r: seq<string>)
    ensures text == None || text == Some("") ==> r == []
    ensures forall i :: 0 <= i < |r| ==> !IsBlank(r[i]) && '*' !in r[i]
    ensures text.Some? && text.value != "" ==> forall p :: p in SplitOn(text.value, '*') && !IsBlank(p) ==> p in r
  {
    if text == None || text == Some("") then []
    else
      var parts := SplitOn(text.value, '*');
      var r := KeepNonBlank(parts);
      assert forall i :: 0 <= i < |r| ==> '*' !in r[i] by {
        forall i | 0 <= i < |r| ensures '*' !in r[i] {
          var k :| 0 <= k < |parts| && parts[k] == r[i];
        }
      }
      r
  }

  /** Each new gateway turn (`text + "*" + token`) adds its token to the end of the parsed input. */
  lemma ParseInputAppend(s: string, tok: string)
    requires '*' !in tok && !IsBlank(tok)
    ensures ParseInput(Some(s + "*" + tok)) == ParseInput(Some(s)) + [tok]
  {
    var t := s + "*" + tok;
    assert t == s + ['*'] + tok;
    SplitAppend(s, '*', tok);
    KeepNonBlankConcat(SplitOn(s, '*'), [tok]);
    assert KeepNonBlank([tok]) == [tok] by {
      assert [tok][1..] == [];
    }
    if s == [] {
      assert SplitOn(s, '*') == [[]];
      var blank: seq<string> := [[]];
      assert KeepNonBlank(blank) == [] by { assert blank[1..] == []; }
    }
  }

  /** A blank segment (as in `1**2` or `1* *2`) adds nothing to the parsed input. */
  lemma ParseInputBlankAppend(s: string, tok: string)
    requires '*' !in tok && IsBlank(tok)
    ensures ParseInput(Some(s + "*" + tok)) == ParseInput(Some(s))
  {
    var t := s + "*" + tok;
    assert t == s + ['*'] + tok;
    SplitAppend(s, '*', tok);
    KeepNonBlankConcat(SplitOn(s, '*'), [tok]);
    assert KeepNonBlank([tok]) == [] by {
      assert [tok][1..] == [];
    }
    if s == [] {
      assert SplitOn(s, '*') == [[]];
      var blank: seq<string> := [[]];
      assert KeepNonBlank(blank) == [] by { assert blank[1..] == []; }
    }
  }

  /** `getLastInput`: the newest surviving token, or "" when none survives. */
  function LastInput(text: Option<string>): (r: string)
    ensures r == "" || (!IsBlank(r) && '*' !in r)
    ensures r == "" <==> ParseInput(text) == []
  {
    var inputs := ParseInput(text);
    if |inputs| > 0 then inputs[|inputs| - 1] else ""
  }

  /** The first turn's text is its own newest token. */
  lemma LastInputOfSingleToken(tok: string)
    requires '*' !in tok && !IsBlank(tok)
    ensures LastInput(Some(tok)) == tok
  {
    SplitWithoutSeparator(tok, '*');
    assert KeepNonBlank([tok]) == [tok] by { assert [tok][1..] == []; }
  }

  /** Appending `*tok` makes `tok` the newest input. */
  lemma LastInputAppend(s: string, tok: string)
    requires '*' !in tok && !IsBlank(tok)
    ensures LastInput(Some(s + "*" + tok)) == tok
  {
    ParseInputAppend(s, tok);
  }

  // ---------------------------------------------------------------------------
  // Numbers

  function DigitValue(c: char): nat
    requires IsDigit(c)
  {
    (c as int) - ('0' as int)
  }

  function DigitChar(d: nat): (c: char)
    requires d < 10
    ensures IsDigit(c) && DigitValue(c) == d
  {
    ('0' as int + d) as char
  }

  /** The value of a digit string, most significant digit first. */
  function DecimalValue(s: string): nat
    requires AllDigits(s)
  {
    if s == [] then 0 else DecimalValue(s[..|s| - 1]) * 10 + DigitValue(s[|s| - 1])
  }

  /** A non-negative integer in decimal, without leading zeros. */
  function ToDecimal(n: nat): (r: string)
    ensures |r| >= 1 && AllDigits(r)
    ensures |r| > 1 ==> r[0] != '0'
  {
    if n < 10 then [DigitChar(n)] else ToDecimal(n / 10) + [DigitChar(n % 10)]
  }

  /** Reading back a rendered number gives the number. */
  lemma {:induction false} DecimalValueOfToDecimal(n: nat)
    ensures DecimalValue(ToDecimal(n)) == n
  {
    var r := ToDecimal(n);
    if n >= 10 {
      DecimalValueOfToDecimal(n / 10);
      assert r[..|r| - 1] == ToDecimal(n / 10);
    } else {
      assert r[..|r| - 1] == [];
    }
  }

  /** A signed integer in decimal. */
  function IntToDecimal(i: int): string {
    if i < 0 then "-" + ToDecimal(-i) else ToDecimal(i)
  }

  /** A whole-number amount, read from a non-empty string of ASCII digits. */
  function ParseAmount(s: string): (r: Option<nat>)
    ensures r.Some? <==> |s| > 0 && AllDigits(s)
  {
    if |s| > 0 && AllDigits(s) then Some(DecimalValue(s)) else None
  }

  lemma AmountRoundTrip(n: nat)
    ensures ParseAmount(ToDecimal(n)) == Some(n)
  {
    DecimalValueOfToDecimal(n);
  }

  const MaxAmount: nat := 1000000

  /** `isValidAmount`: the text is an amount greater than 0 and at most one million. */
  predicate IsValidAmount(s: string) {
    match ParseAmount(s)
    case Some(n) => 0 < n <= MaxAmount
    case None => false
  }

  /** A rendered amount is valid exactly when it lies in (0, 1,000,000]. */
  lemma ValidAmountOfRendered(n: nat)
    ensures IsValidAmount(ToDecimal(n)) <==> 0 < n <= MaxAmount
  {
    AmountRoundTrip(n);
  }

  /** The longest prefix made of ASCII digits. */
  function DigitPrefix(s: string): (r: string)
    ensures AllDigits(r) && StartsWith(s, r)
    ensures |r| < |s| ==> !IsDigit(s[|r|])
  {
    if s != [] && IsDigit(s[0]) then [s[0]] + DigitPrefix(s[1..]) else []
  }

  /**
   * `parseInt(s)` in base ten: leading whitespace skipped, an optional sign,
   * then the longest run of digits; `None` stands for `NaN`.
   */
  function ParseIntPrefix(s: string): Option<int> {
    if s == [] then None
    else if IsJsSpace(s[0]) then ParseIntPrefix(s[1..])
    else if s[0] == '+' || s[0] == '-' then
      var d := DigitPrefix(s[1..]);
      if d == [] then None
      else if s[0] == '-' then Some(0 - DecimalValue(d))
      else Some(DecimalValue(d))
    else
      var d := DigitPrefix(s);
      if d == [] then None else Some(DecimalValue(d))
  }

  /** `parseInt` reads a rendered non-negative number back. */
  lemma ParseIntOfRendered(n: nat)
    ensures ParseIntPrefix(ToDecimal(n)) == Some(n)
  {
    var r := ToDecimal(n);
    assert IsDigit(r[0]);
    DigitPrefixOfDigits(r);
    DecimalValueOfToDecimal(n);
  }

  lemma {:induction false} DigitPrefixOfDigits(s: string)
    requires AllDigits(s)
    ensures DigitPrefix(s) == s
  {
    if s != [] {
      DigitPrefixOfDigits(s[1..]);
    }
  }

  // ---------------------------------------------------------------------------
  // Dates

  const MillisPerDay: int := 86400000

  /** `Math.ceil(ms / one day)` */
  function CeilDays(ms: int): (d: int)
    ensures (d - 1) * MillisPerDay < ms <= d * MillisPerDay
  {
    -((-ms) / MillisPerDay)
  }

  /** `calculateDaysOverdue`: whole days past the due date, rounded up, never negative. */
  function DaysOverdue(today: int, due: int): (r: nat)
    ensures r == 0 <==> today <= due
    ensures today > due ==> (r - 1) * MillisPerDay < today - due <= r * MillisPerDay
  {
    var days := CeilDays(today - due);
    if days > 0 then days else 0
  }

  /** Overdue days never decrease as time passes. */
  lemma DaysOverdueMonotone(today1: int, today2: int, due: int)
    requires today1 <= today2
    ensures DaysOverdue(today1, due) <= DaysOverdue(today2, due)
  {
  }

  datatype Priority = Low | Medium | High

  function PriorityRank(p: Priority): nat {
    match p
    case Low => 0
    case Medium => 1
    case High => 2
  }

  /** `getPriorityLevel`: HIGH past 30 days overdue, MEDIUM past 7, LOW otherwise. */
  function PriorityLevel(today: int, due: int): (p: Priority)
    ensures p == High <==> today - due > 30 * MillisPerDay
    ensures p == Medium <==> 7 * MillisPerDay < today - due <= 30 * MillisPerDay
    ensures p == Low <==> today - due <= 7 * MillisPerDay
  {
    var days := DaysOverdue(today, due);
    if days > 30 then High else if days > 7 then Medium else Low
  }

  /** A bill's priority only rises as time passes. */
  lemma PriorityMonotone(today1: int, today2: int, due: int)
    requires today1 <= today2
    ensures PriorityRank(PriorityLevel(today1, due)) <= PriorityRank(PriorityLevel(today2, due))
  {
  }

  const MonthNames: seq<string> :=
    ["Jan", "Feb", "Mar", "Apr", "May", "Jun", "Jul", "Aug", "Sep", "Oct", "Nov", "Dec"]

  function TwoDigits(n: int): string {
    if 0 <= n < 10 then "0" + IntToDecimal(n) else IntToDecimal(n)
  }

  /**
   * `formatDate` in the `en-GB` day / short month / year style, taking the
   * instant as milliseconds since the epoch in UTC (civil-from-days conversion).
   */
  function FormatDate(ms: int): string {
    var z := ms / MillisPerDay + 719468;
    var era := z / 146097;
    var doe := z - era * 146097;
    var yoe := (doe - doe / 1460 + doe / 36524 - doe / 146096) / 365;
    var doy := doe - (365 * yoe + yoe / 4 - yoe / 100);
    var mp := (5 * doy + 2) / 153;
    var day := doy - (153 * mp + 2) / 5 + 1;
    var month := if mp < 10 then mp + 3 else mp - 9;
    var year := yoe + era * 400 + (if month <= 2 then 1 else 0);
    var name := if 1 <= month <= 12 then MonthNames[month - 1] else "???";
    TwoDigits(day) + " " + name + " " + IntToDecimal(year)
  }

  /** `formatCurrency`, without the locale's digit grouping. */
  function FormatCurrency(amount: int): string {
    "KSh " + IntToDecimal(amount)
  }

  // ---------------------------------------------------------------------------
  // Bills

  /** `getBillStatusIcon`: one glyph per known status, a bullet for anything else. */
  function StatusIcon(status: string): (c: char)
    ensures c == '\U{2022}' <==> status !in {"Paid", "Partial", "Pending"}
  {
    if status == "Paid" then '\U{2713}'
    else if status == "Partial" then '\U{26A0}'
    else if status == "Pending" then '\U{23F3}'
    else '\U{2022}'
  }

  // ---------------------------------------------------------------------------
  // Messages

  /** A response the gateway keeps open for another round trip. */
  predicate IsContinue(r: string) {
    StartsWith(r, "CON ")
  }

  /** A response that closes the gateway session. */
  predicate IsEnd(r: string) {
    StartsWith(r, "END ")
  }

  /** No response carries both tags. */
  lemma TagsExclusive(s: string)
    ensures !(IsContinue(s) && IsEnd(s))
  {
    if IsContinue(s) {
      assert s[..4][0] == 'C';
    }
  }

  /** A `CON`-tagged response text. */
  function Con(body: string): (r: string)
    ensures IsContinue(r) && !IsEnd(r)
  {
    var r := "CON " + body;
    assert r[..4] == "CON ";
    r
  }

  /** An `END`-tagged response text. */
  function EndText(body: string): (r: string)
    ensures IsEnd(r) && !IsContinue(r)
  {
    var r := "END " + body;
    assert r[..4] == "END ";
    r
  }

  /**
   * The longest prefix of `s` that fits in `n` UTF-16 code units without
   * splitting a character.
   */
  function Utf16Prefix(s: string, n: int): (p: string)
    ensures StartsWith(s, p) && JsLength(p) <= Max(n, 0)
    ensures |p| < |s| ==> JsLength(s[..|p| + 1]) > n
    decreases |s|
  {
    if s == [] then []
    else if Utf16Width(s[0]) > n then
      assert JsLength(s[..1]) == Utf16Width(s[0]) by { JsLengthCons(s[0], []); assert s[..1] == [s[0]] + []; }
      []
    else
      var rest := Utf16Prefix(s[1..], n - Utf16Width(s[0]));
      var p := [s[0]] + rest;
      JsLengthCons(s[0], rest);
      assert s[..|rest| + 1] == [s[0]] + rest;
      assert StartsWith(s, p);
      if |p| < |s| then
        assert s[..|p| + 1] == [s[0]] + s[1..][..|rest| + 1];
        JsLengthCons(s[0], s[1..][..|rest| + 1]);
        p
      else p
  }

  /**
   * `truncateText`, lengths in UTF-16 code units: text within the limit is
   * unchanged; longer text keeps the longest prefix that fits in three units
   * fewer than the limit, followed by `...`.
   */
  function TruncateText(text: string, maxLength: int := 50): (r: string)
    ensures JsLength(text) <= maxLength ==> r == text
    ensures JsLength(text) > maxLength ==>
      && EndsWith(r, "...")
      && StartsWith(text, r[..|r| - 3])
      && JsLength(r[..|r| - 3]) <= Max(maxLength - 3, 0)
      && (|r| - 3 < |text| ==> JsLength(text[..|r| - 3 + 1]) > maxLength - 3)
    ensures JsLength(text) > maxLength && maxLength < 3 ==> r == "..."
    ensures JsLength(text) > maxLength >= 3 && BmpOnly(text) ==> |r| == maxLength
  {
    if JsLength(text) <= maxLength then text
    else
      var kept := Utf16Prefix(text, maxLength - 3);
      var r := kept + "...";
      assert r[..|r| - 3] == kept;
      assert r[|r| - 3..] == "...";
      if maxLength >= 3 && BmpOnly(text) then
        assert BmpOnly(kept) && |kept| < |text| by {
          JsLengthOfBmp(text);
          forall i | 0 <= i < |kept| ensures kept[i] <= '\U{FFFF}' { assert kept[i] == text[i]; }
        }
        var next := text[..|kept| + 1];
        assert BmpOnly(next) by {
          forall i | 0 <= i < |next| ensures next[i] <= '\U{FFFF}' { assert next[i] == text[i]; }
        }
        JsLengthOfBmp(kept);
        JsLengthOfBmp(next);
        r
      else
        r
  }

  const BackLine: string := "\n0. Back to Main Menu"

  /** One numbered option line of a menu. */
  function MenuLine(number: nat, option: string): string {
    ToDecimal(number) + ". " + option + "\n"
  }

  /** The option lines of a menu, numbered from `first`. */
  function MenuLines(options: seq<string>, first: nat): (r: string)
    ensures options == [] <==> r == []
    ensures r != [] ==> r[|r| - 1] == '\n'
  {
    if options == [] then "" else MenuLine(first, options[0]) + MenuLines(options[1..], first + 1)
  }

  /** Menu lines of a concatenation: the second list continues the numbering of the first. */
  lemma {:induction false} MenuLinesConcat(a: seq<string>, b: seq<string>, first: nat)
    ensures MenuLines(a + b, first) == MenuLines(a, first) + MenuLines(b, first + |a|)
  {
    if a == [] {
      assert a + b == b;
    } else {
      assert (a + b)[0] == a[0];
      assert (a + b)[1..] == a[1..] + b;
      MenuLinesConcat(a[1..], b, first + 1);
    }
  }

  /** Option `i` of the list is the line numbered `first + i`, between the lines before and after it. */
  lemma MenuLinesAt(options: seq<string>, first: nat, i: nat)
    requires i < |options|
    ensures MenuLines(options, first)
         == MenuLines(options[..i], first) + MenuLine(first + i, options[i]) + MenuLines(options[i + 1..], first + i + 1)
  {
    var before, x, after := options[..i], [options[i]], options[i + 1..];
    var line := MenuLine(first + i, options[i]);
    assert MenuLines(options, first) == MenuLines(before, first) + MenuLines(x + after, first + i) by {
      assert options == before + (x + after);
      MenuLinesConcat(before, x + after, first);
    }
    assert MenuLines(x + after, first + i) == MenuLines(x, first + i) + MenuLines(after, first + i + 1) by {
      MenuLinesConcat(x, after, first + i);
    }
    assert MenuLines(x, first + i) == line by {
      assert x[1..] == [];
    }
  }

  /** `buildMenu`: a `CON` menu that ends with the back line exactly when `showBack` is set. */
  function BuildMenu(title: string, options: seq<string>, showBack: bool): (r: string)
    ensures IsContinue(r)
    ensures StartsWith(r, "CON " + title + "\n\n" + MenuLines(options, 1))
    ensures |r| == |"CON " + title + "\n\n" + MenuLines(options, 1)| + (if showBack then |BackLine| else 0)
    ensures showBack <==> EndsWith(r, BackLine)
  {
    var head := "CON " + title + "\n\n";
    var body := head + MenuLines(options, 1);
    assert body[|body| - 1] == '\n' by {
      if options == [] { assert body == head; }
    }
    var r := if showBack then body + BackLine else body;
    assert StartsWith(r, body) by { assert r[..|body|] == body; }
    assert StartsWith(r, "CON ") by { assert r == "CON " + (title + "\n\n" + MenuLines(options, 1) + (if showBack then BackLine else "")); }
    if showBack then
      assert r[|r| - |BackLine|..] == BackLine;
      r
    else
      assert !EndsWith(r, BackLine) by {
        assert BackLine[|BackLine| - 1] == 'u';
        if |BackLine| <= |r| { assert r[|r| - |BackLine|..][|BackLine| - 1] == '\n'; }
      }
      r
  }

  /** Option `i` of a menu is shown as the line numbered `i + 1`, after the title and the options before it. */
  lemma BuildMenuNumbersOption(title: string, options: seq<string>, showBack: bool, i: nat)
    requires i < |options|
    ensures StartsWith(BuildMenu(title, options, showBack),
      "CON " + title + "\n\n" + (MenuLines(options[..i], 1) + MenuLine(i + 1, options[i])))
  {
    var shown := MenuLines(options[..i], 1) + MenuLine(i + 1, options[i]);
    var after := MenuLines(options[i + 1..], i + 2);
    MenuLinesAt(options, 1, i);
    assert MenuLines(options, 1) == shown + after;
    StartsWithPrefix(BuildMenu(title, options, showBack), "CON " + title + "\n\n", shown, after);
  }

  const ThankYouLine: string := "\n\nThank you for using SafeStay!"

  /** `buildEndMessage`: an `END` message carrying the title and the content, with the sign-off. */
  function BuildEndMessage(title: string, content: string): (r: string)
    ensures IsEnd(r) && EndsWith(r, ThankYouLine)
    ensures StartsWith(r, "END " + title + "\n\n")
  {
    var r := "END " + title + "\n\n" + content + ThankYouLine;
    assert r[..4] == "END ";
    assert r[..|"END " + title + "\n\n"|] == "END " + title + "\n\n";
    assert r[|r| - |ThankYouLine|..] == ThankYouLine;
    r
  }

  /** `buildComplaintCategories`: the seven fixed categories, all different. */
  function ComplaintCategories(): (r: seq<string>)
    ensures |r| == 7 && r[0] == "Maintenance Issue" && r[6] == "Other"
    ensures forall i, j :: 0 <= i < j < |r| ==> r[i] != r[j]
  {
    ["Maintenance Issue", "Noise Complaint", "Security Issue", "Billing Issue",
     "Landlord Issue", "Utility Problem", "Other"]
  }
}
