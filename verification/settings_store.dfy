/** Settings.System as the tiles and the controller see it: every value is stored as text;
    getInt parses it as a decimal int and falls back to the caller's default, and putInt stores
    the decimal text of the value. */
module SettingsStore {
  import opened Wrappers

  datatype Key =
    | QuickSettingsTiles       // QUICK_SETTINGS_TILES
    | QsDynamicAlarm           // QS_DYNAMIC_ALARM
    | QsDynamicIme             // QS_DYNAMIC_IME
    | QsDynamicUsbTether       // QS_DYNAMIC_USBTETHER
    | ExpandedHapticFeedback   // EXPANDED_HAPTIC_FEEDBACK
    | HapticFeedbackEnabled    // HAPTIC_FEEDBACK_ENABLED
    | QsCollapsePanel          // QS_COLLAPSE_PANEL
    | QuietHoursEnabled        // QUIET_HOURS_ENABLED
    | SystemProfilesEnabled    // SYSTEM_PROFILES_ENABLED
    | UserMyNumbers            // USER_MY_NUMBERS

  /** The name/value table: one text value per key that has been written. */
  type Settings = map<Key, string>

  // ---------------------------------------------------------------- decimal text

  /** A Java int. */
  predicate IsInt32(n: int) {
    -0x8000_0000 <= n < 0x8000_0000
  }

  predicate IsDigit(c: char) {
    '0' <= c <= '9'
  }

  predicate AllDigits(t: string) {
    forall i :: 0 <= i < |t| ==> IsDigit(t[i])
  }

  /** The value of a string of decimal digits, most significant first. */
  function DigitsValue(t: string): nat
    requires AllDigits(t)
    decreases |t|
  {
    if |t| == 0 then 0
    else DigitsValue(t[..|t| - 1]) * 10 + (t[|t| - 1] as int - '0' as int)
  }

  /** The decimal digits of a natural number, without leading zeros. */
  function Digits(n: nat): (t: string)
    ensures |t| >= 1 && AllDigits(t)
    ensures t[0] == '0' ==> n == 0
    decreases n
  {
    if n < 10 then [('0' as int + n) as char]
    else Digits(n / 10) + [('0' as int + n % 10) as char]
  }

  /** Integer.toString. */
  function DecimalText(n: int): string {
    if n < 0 then "-" + Digits(-n) else Digits(n)
  }

  /** Integer.parseInt as libcore implements it: an optional '-', then at least one digit, and
      a value that fits an int; None stands for the NumberFormatException. */
  function ParseInt(t: string): (r: Option<int>)
    ensures r.Some? ==> IsInt32(r.value)
    ensures r.Some? ==> |t| >= 1 && (t[0] == '-' || IsDigit(t[0]))
  {
    var negative := |t| > 0 && t[0] == '-';
    var body := if negative then t[1..] else t;
    if |body| == 0 || !AllDigits(body) then None
    else
      var v: int := if negative then -(DigitsValue(body) as int) else DigitsValue(body);
      if IsInt32(v) then Some(v) else None
  }

  /** Reading the digits of n gives n back. */
  lemma {:induction false} DigitsRoundTrip(n: nat)
    ensures DigitsValue(Digits(n)) == n
    decreases n
  {
    if n >= 10 {
      DigitsRoundTrip(n / 10);
      var t := Digits(n);
      assert t[..|t| - 1] == Digits(n / 10);
    }
  }

  /** parseInt undoes toString for every int. */
  lemma ParseDecimal(n: int)
    requires IsInt32(n)
    ensures ParseInt(DecimalText(n)) == Some(n)
  {
    if n < 0 {
      DigitsRoundTrip(-n);
      assert DecimalText(n)[1..] == Digits(-n);
    } else {
      DigitsRoundTrip(n);
    }
  }

  // ---------------------------------------------------------------- the store

  /** Settings.System.getString: the stored text, or null. */
  function GetString(s: Settings, k: Key): (o: Option<string>)
    ensures o.Some? <==> k in s
    ensures o.Some? ==> o.value == s[k]
  {
    if k in s then Some(s[k]) else None
  }

  /** Settings.System.getInt(resolver, key, default): the stored text parsed as an int; the
      default when nothing is stored or the text is no int. */
  function GetInt(s: Settings, k: Key, default: int): (n: int)
    ensures k !in s ==> n == default
    ensures n == default || IsInt32(n)
    ensures n != default ==> ParseInt(s[k]) == Some(n)
    ensures k in s && ParseInt(s[k]).Some? ==> n == ParseInt(s[k]).value
    ensures k in s && ParseInt(s[k]).None? ==> n == default
  {
    match GetString(s, k)
    case None => default
    case Some(t) =>
      match ParseInt(t)
      case Some(v) => v
      case None => default
  }

  /** Settings.System.putInt: the decimal text of an int. */
  function PutInt(s: Settings, k: Key, n: int): (s': Settings)
    requires IsInt32(n)
    ensures forall d :: GetInt(s', k, d) == n
    ensures GetString(s', k) == Some(DecimalText(n))
    ensures forall k' :: k' != k ==> (k' in s' <==> k' in s)
    ensures forall k' :: k' != k && k' in s ==> s'[k'] == s[k']
  {
    ParseDecimal(n);
    s[k := DecimalText(n)]
  }

  /** Writing one key never changes what another key reads. */
  lemma PutIntIsolated(s: Settings, k: Key, n: int, k': Key, default: int)
    requires k' != k && IsInt32(n)
    ensures GetInt(PutInt(s, k, n), k', default) == GetInt(s, k', default)
    ensures GetString(PutInt(s, k, n), k') == GetString(s, k')
  {
  }

  /** A number written with putInt can be read back as text, and text holding a decimal int
      can be read back with getInt: the two readers see one store. */
  lemma ReadersAgree(s: Settings, k: Key, n: int, default: int)
    requires IsInt32(n)
    ensures GetString(PutInt(s, k, n), k) == Some(DecimalText(n))
    ensures GetInt(s[k := DecimalText(n)], k, default) == n
  {
    ParseDecimal(n);
  }

  /** A concrete reading: "1" reads as 1, and text that is not a number reads as the default. */
  lemma ParseExamples()
    ensures GetInt(map[QsCollapsePanel := "1"], QsCollapsePanel, 0) == 1
    ensures GetInt(map[QsCollapsePanel := "on"], QsCollapsePanel, 0) == 0
    ensures GetInt(map[QsCollapsePanel := "-"], QsCollapsePanel, 7) == 7
  {
    assert DigitsValue("1") == DigitsValue("") * 10 + 1;
  }

  /** A content URI: Settings.System.getUriFor(key), or any other observed URI. */
  datatype Uri = SettingUri(key: Key) | OtherUri(path: string)
}
