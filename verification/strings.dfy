/** Persian UI strings and the pure helpers of src/constants/strings.js:
    digit conversion and the relative-time label. */
module Strings {
  import opened Clock

  const NOW: string := "همین الان"
  const YESTERDAY: string := "دیروز"
  const REQUIRED_FIELD: string := "این فیلد الزامی است"
  const INVALID_EMAIL: string := "ایمیل نامعتبر است"
  const PASSWORD_MIN: string := "رمز عبور باید حداقل ۸ کاراکتر باشد"
  const PASSWORD_MISMATCH: string := "رمز عبور و تکرار آن مطابقت ندارند"
  const USERNAME_MIN: string := "نام کاربری باید حداقل ۳ کاراکتر باشد"
  const INVALID_CREDENTIALS: string := "نام کاربری یا رمز عبور اشتباه است"
  const REGISTRATION_FAILED: string := "ثبت\U{200C}نام با خطا مواجه شد"
  const LOGIN_FAILED: string := "ورود با خطا مواجه شد"
  const ACCOUNT_CREATED: string := "حساب کاربری با موفقیت ایجاد شد"
  const MINUTES_AGO_SUFFIX: string := " دقیقه پیش"
  const HOURS_AGO_SUFFIX: string := " ساعت پیش"
  const DAYS_AGO_SUFFIX: string := " روز پیش"

  // ---------------------------------------------------------------------
  // Digits
  // ---------------------------------------------------------------------

  predicate IsAsciiDigit(c: char) {
    '0' <= c <= '9'
  }

  predicate IsPersianDigit(c: char) {
    '\U{06F0}' <= c <= '\U{06F9}'
  }

  /** The d-th entry of the Persian digit table, U+06F0 to U+06F9. */
  function PersianDigit(d: int): (c: char)
    requires 0 <= d < 10
    ensures IsPersianDigit(c) && !IsAsciiDigit(c)
    ensures c as int - 0x06F0 == d
  {
    (0x06F0 + d) as char
  }

  /** The replacement for one character of `String(num)`. */
  function PersianChar(c: char): (r: char)
    ensures IsAsciiDigit(c) ==> r == PersianDigit(c as int - '0' as int)
    ensures !IsAsciiDigit(c) ==> r == c
  {
    if IsAsciiDigit(c) then PersianDigit(c as int - '0' as int) else c
  }

  /** `toPersianNumber`: every ASCII digit d becomes the d-th Persian digit,
      every other character is kept, and the length does not change. */
  function ToPersianNumber(s: string): (r: string)
    ensures |r| == |s|
    ensures forall i :: 0 <= i < |s| && IsAsciiDigit(s[i]) ==>
      r[i] == PersianDigit(s[i] as int - '0' as int)
    ensures forall i :: 0 <= i < |s| && !IsAsciiDigit(s[i]) ==> r[i] == s[i]
    ensures forall i :: 0 <= i < |r| ==> !IsAsciiDigit(r[i])
  {
    if s == [] then [] else [PersianChar(s[0])] + ToPersianNumber(s[1..])
  }

  /** A second conversion changes nothing. */
  lemma ToPersianIdempotent(s: string)
    ensures ToPersianNumber(ToPersianNumber(s)) == ToPersianNumber(s)
  {
    var r := ToPersianNumber(s);
    var rr := ToPersianNumber(r);
    assert forall i :: 0 <= i < |r| ==> rr[i] == r[i];
  }

  /** Maps each Persian digit back to its ASCII digit. */
  function FromPersianNumber(s: string): (r: string)
    ensures |r| == |s|
    ensures forall i :: 0 <= i < |s| && IsPersianDigit(s[i]) ==>
      r[i] as int - '0' as int == s[i] as int - 0x06F0
    ensures forall i :: 0 <= i < |s| && !IsPersianDigit(s[i]) ==> r[i] == s[i]
  {
    if s == [] then []
    else
      var c := s[0];
      var d := if IsPersianDigit(c) then ('0' as int + (c as int - 0x06F0)) as char else c;
      [d] + FromPersianNumber(s[1..])
  }

  /** The digit table is injective: on text without Persian digits the
      original is recovered from the converted string. */
  lemma {:induction false} PersianRoundTrip(s: string)
    requires forall i :: 0 <= i < |s| ==> !IsPersianDigit(s[i])
    ensures FromPersianNumber(ToPersianNumber(s)) == s
  {
    var r := FromPersianNumber(ToPersianNumber(s));
    assert forall i :: 0 <= i < |s| ==> r[i] == s[i];
  }

  /** `String(n)` for a natural number: its decimal digits, no leading zero. */
  function NatToString(n: nat): (r: string)
    ensures |r| >= 1
    ensures forall i :: 0 <= i < |r| ==> IsAsciiDigit(r[i])
    ensures r[0] == '0' ==> n == 0
  {
    if n < 10 then [('0' as int + n) as char]
    else NatToString(n / 10) + [('0' as int + n % 10) as char]
  }

  /** Reads decimal digits back into a number. */
  function ParseDigits(s: string): nat
    requires forall i :: 0 <= i < |s| ==> IsAsciiDigit(s[i])
  {
    if s == [] then 0
    else
      assert IsAsciiDigit(s[|s| - 1]);
      10 * ParseDigits(s[..|s| - 1]) + (s[|s| - 1] as int - '0' as int)
  }

  lemma {:induction false} NatToStringRoundTrip(n: nat)
    ensures ParseDigits(NatToString(n)) == n
  {
    if n >= 10 {
      NatToStringRoundTrip(n / 10);
      var r := NatToString(n);
      assert r[..|r| - 1] == NatToString(n / 10);
    }
  }

  // ---------------------------------------------------------------------
  // Relative time
  // ---------------------------------------------------------------------

  /** The bucket `getRelativeTime` picks for a difference of `ms`
      milliseconds (now minus the instant; negative for future instants).
      Minutes, hours and days are floor divisions of the same difference, and
      the buckets partition the integers. */
  function RelativeBucket(ms: int): (r: Elapsed)
    ensures r == JustNow <==> ms < MS_PER_MINUTE
    ensures r.MinutesAgo? <==> MS_PER_MINUTE <= ms < MS_PER_HOUR
    ensures r.MinutesAgo? ==> 1 <= r.n < 60 && r.n * MS_PER_MINUTE <= ms < (r.n + 1) * MS_PER_MINUTE
    ensures r.HoursAgo? <==> MS_PER_HOUR <= ms < MS_PER_DAY
    ensures r.HoursAgo? ==> 1 <= r.n < 24 && r.n * MS_PER_HOUR <= ms < (r.n + 1) * MS_PER_HOUR
    ensures r == Yesterday <==> MS_PER_DAY <= ms < 2 * MS_PER_DAY
    ensures r.DaysAgo? <==> 2 * MS_PER_DAY <= ms < 7 * MS_PER_DAY
    ensures r.DaysAgo? ==> 2 <= r.n < 7 && r.n * MS_PER_DAY <= ms < (r.n + 1) * MS_PER_DAY
    ensures r == Older <==> ms >= 7 * MS_PER_DAY
  {
    var mins := FloorDiv(ms, MS_PER_MINUTE);
    var hours := FloorDiv(ms, MS_PER_HOUR);
    var days := FloorDiv(ms, MS_PER_DAY);
    if mins < 1 then JustNow
    else if mins < 60 then MinutesAgo(mins)
    else if hours < 24 then HoursAgo(hours)
    else if days == 1 then Yesterday
    else if days < 7 then DaysAgo(days)
    else Older
  }

  /** `n` written with Persian digits. */
  function PersianCount(n: nat): (r: string)
    ensures |r| >= 1
    ensures forall i :: 0 <= i < |r| ==> IsPersianDigit(r[i])
  {
    var d := NatToString(n);
    var r := ToPersianNumber(d);
    assert forall i :: 0 <= i < |r| ==> r[i] == PersianDigit(d[i] as int - '0' as int);
    r
  }

  /** `getRelativeTime`: the Persian label for a difference of `ms`. */
  function GetRelativeTime(ms: int): (r: Label)
    ensures r.LocaleDate? <==> ms >= 7 * MS_PER_DAY
    ensures ms < MS_PER_MINUTE ==> r == Text(NOW)
    ensures RelativeBucket(ms).MinutesAgo? ==>
      r == Text(PersianCount(RelativeBucket(ms).n) + MINUTES_AGO_SUFFIX)
    ensures RelativeBucket(ms).HoursAgo? ==>
      r == Text(PersianCount(RelativeBucket(ms).n) + HOURS_AGO_SUFFIX)
    ensures MS_PER_DAY <= ms < 2 * MS_PER_DAY ==> r == Text(YESTERDAY)
    ensures RelativeBucket(ms).DaysAgo? ==>
      r == Text(PersianCount(RelativeBucket(ms).n) + DAYS_AGO_SUFFIX)
    ensures r.Text? ==> forall i :: 0 <= i < |r.text| ==> !IsAsciiDigit(r.text[i])
  {
    match RelativeBucket(ms)
    case JustNow => Text(NOW)
    case MinutesAgo(n) => Text(PersianCount(n) + MINUTES_AGO_SUFFIX)
    case HoursAgo(n) => Text(PersianCount(n) + HOURS_AGO_SUFFIX)
    case Yesterday => Text(YESTERDAY)
    case DaysAgo(n) => Text(PersianCount(n) + DAYS_AGO_SUFFIX)
    case Older => LocaleDate
  }
}
