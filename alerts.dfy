/**
 * The price-alert settings of the page: an on/off flag, a threshold and a
 * notification method, changed only by the user, and the status text
 * shown for them. Nothing here sends a notification.
 */
module Alerts {

  datatype NotificationMethod = Email | Sms

  /** The method as the page names it. */
  function MethodName(m: NotificationMethod): string {
    match m
    case Email => "email"
    case Sms => "sms"
  }

  /** The threshold slider's range (1.50..2.50, step 0.01), in cents. */
  const MinThreshold: int := 150
  const MaxThreshold: int := 250
  /** The threshold before the user moves the slider (1.85). */
  const DefaultThreshold: int := 185

  type SliderCents = c: int | MinThreshold <= c <= MaxThreshold witness DefaultThreshold

  predicate IsDigit(ch: char) {
    '0' <= ch <= '9'
  }

  function DigitChar(d: int): (ch: char)
    requires 0 <= d <= 9
    ensures IsDigit(ch) && ch as int - '0' as int == d
  {
    ('0' as int + d) as char
  }

  function DigitValue(ch: char): (d: nat)
    requires IsDigit(ch)
    ensures d <= 9
  {
    ch as int - '0' as int
  }

  /** The decimal numeral of `n`, without leading zeros. */
  function DecimalString(n: nat): (s: string)
    ensures |s| >= 1 && forall i :: 0 <= i < |s| ==> IsDigit(s[i])
  {
    if n < 10 then [DigitChar(n)] else DecimalString(n / 10) + [DigitChar(n % 10)]
  }

  /** The value of a string of decimal digits. */
  function DecimalValue(s: string): nat
    requires forall i :: 0 <= i < |s| ==> IsDigit(s[i])
  {
    if s == [] then 0
    else DecimalValue(s[..|s| - 1]) * 10 + DigitValue(s[|s| - 1])
  }

  /** Reading a numeral gives back the number it was written from. */
  lemma {:induction false} DecimalRoundTrip(n: nat)
    ensures DecimalValue(DecimalString(n)) == n
  {
    if n >= 10 {
      var s := DecimalString(n);
      assert s[..|s| - 1] == DecimalString(n / 10);
      DecimalRoundTrip(n / 10);
    }
  }

  /** A numeral of a positive number does not start with a zero. */
  lemma {:induction false} DecimalNoLeadingZero(n: nat)
    requires n >= 1
    ensures DecimalString(n)[0] != '0'
  {
    if n >= 10 {
      DecimalNoLeadingZero(n / 10);
    }
  }

  /** `toFixed(2)` of an amount of `c` cents: whole dollars, a point, two digits. */
  function FormatCents(c: nat): (s: string)
    ensures |s| >= 4 && s[|s| - 3] == '.'
    ensures s[..|s| - 3] == DecimalString(c / 100)
    ensures IsDigit(s[|s| - 2]) && DigitValue(s[|s| - 2]) == c / 10 % 10
    ensures IsDigit(s[|s| - 1]) && DigitValue(s[|s| - 1]) == c % 10
  {
    DecimalString(c / 100) + "." + [DigitChar(c / 10 % 10), DigitChar(c % 10)]
  }

  /** An amount is its whole dollars, its tens of cents and its cents. */
  lemma CentsDigits(c: nat)
    ensures c == c / 100 * 100 + c / 10 % 10 * 10 + c % 10
  {
    assert c == c / 10 * 10 + c % 10;
    assert c / 10 == c / 100 * 10 + c / 10 % 10;
  }

  /** Different amounts are written differently. */
  lemma FormatCentsInjective(c1: nat, c2: nat)
    requires FormatCents(c1) == FormatCents(c2)
    ensures c1 == c2
  {
    var s := FormatCents(c1);
    assert c1 / 100 == c2 / 100 by {
      var d1, d2 := DecimalString(c1 / 100), DecimalString(c2 / 100);
      assert d1 == s[..|s| - 3];
      assert d2 == s[..|s| - 3];
      DecimalRoundTrip(c1 / 100);
      DecimalRoundTrip(c2 / 100);
    }
    assert c1 / 10 % 10 == c2 / 10 % 10 by {
      assert DigitChar(c1 / 10 % 10) == s[|s| - 2] == DigitChar(c2 / 10 % 10);
    }
    assert c1 % 10 == c2 % 10 by {
      assert DigitChar(c1 % 10) == s[|s| - 1] == DigitChar(c2 % 10);
    }
    CentsDigits(c1);
    CentsDigits(c2);
  }

  const ActiveTitle: string := "Alerts Active"
  const DisabledTitle: string := "Alerts Disabled"
  const NotifyPrefix: string := "You'll be notified via "
  const NotifyMiddle: string := " when price drops below $"
  const NotifySuffix: string := "/litre"
  const ConfigurePrompt: string := "Configure alerts to get notified when prices drop"

  /** The heading of the status box. */
  function StatusTitle(enabled: bool): (t: string)
    ensures t == ActiveTitle <==> enabled
    ensures t == DisabledTitle <==> !enabled
  {
    if enabled then ActiveTitle else DisabledTitle
  }

  /**
   * The text of the status box: the method and the threshold when alerts
   * are on, the prompt to configure them when they are off.
   */
  function StatusDescription(enabled: bool, via: NotificationMethod, threshold: nat): (d: string)
    ensures !enabled ==> d == ConfigurePrompt
    ensures enabled ==> (
      && |d| > |NotifyPrefix| + |MethodName(via)|
      && d[..|NotifyPrefix|] == NotifyPrefix
      && d[|NotifyPrefix|..|NotifyPrefix| + |MethodName(via)|] == MethodName(via))
    ensures enabled ==> var amount := FormatCents(threshold);
      && |d| >= |amount| + |NotifySuffix|
      && d[|d| - |NotifySuffix| - |amount|..|d| - |NotifySuffix|] == amount
      && d[|d| - |NotifySuffix|..] == NotifySuffix
  {
    if enabled then NotifyPrefix + MethodName(via) + NotifyMiddle + FormatCents(threshold) + NotifySuffix
    else ConfigurePrompt
  }

  /**
   * The status text tells the settings apart: an enabled description
   * determines the method and the threshold, and it never reads like the
   * prompt shown when alerts are off.
   */
  lemma DescriptionDeterminesSettings(m1: NotificationMethod, c1: nat, m2: NotificationMethod, c2: nat)
    requires StatusDescription(true, m1, c1) == StatusDescription(true, m2, c2)
    ensures m1 == m2 && c1 == c2
  {
    var d := StatusDescription(true, m1, c1);
    assert d[|NotifyPrefix|] == MethodName(m1)[0] == MethodName(m2)[0];
    var head := NotifyPrefix + MethodName(m1) + NotifyMiddle;
    StripAround(head, FormatCents(c1), FormatCents(c2), NotifySuffix);
    FormatCentsInjective(c1, c2);
  }

  /** Equal strings with the same head and the same tail have the same middle. */
  lemma StripAround(head: string, x: string, y: string, tail: string)
    requires head + x + tail == head + y + tail
    ensures x == y
  {
    assert x + tail == (head + x + tail)[|head|..];
    assert y + tail == (head + y + tail)[|head|..];
    assert x == (x + tail)[..|x|];
    assert y == (y + tail)[..|y|];
  }

  lemma EnabledDescriptionIsNotPrompt(m: NotificationMethod, c: nat)
    ensures StatusDescription(true, m, c) != StatusDescription(false, m, c)
  {
    assert |StatusDescription(true, m, c)| > |ConfigurePrompt|;
  }

  /** `alertsEnabled`, `alertPrice` and `alertMethod`. */
  class AlertSettings {
    var alertsEnabled: bool
    var alertPrice: SliderCents
    var alertMethod: NotificationMethod

    /** Alerts start off, at 1.85, by email. */
    constructor ()
      ensures !alertsEnabled && alertPrice == DefaultThreshold && alertMethod == Email
      ensures StatusDescription(alertsEnabled, alertMethod, alertPrice) == ConfigurePrompt
    {
      alertsEnabled := false;
      alertPrice := DefaultThreshold;
      alertMethod := Email;
    }

    /** The switch: `setAlertsEnabled(!alertsEnabled)`. */
    method Toggle()
      modifies this
      ensures alertsEnabled == !old(alertsEnabled)
      ensures alertPrice == old(alertPrice) && alertMethod == old(alertMethod)
      ensures StatusTitle(alertsEnabled) == if old(alertsEnabled) then DisabledTitle else ActiveTitle
    {
      alertsEnabled := !alertsEnabled;
    }

    /** The threshold slider: `setAlertPrice(Number(e.target.value))`. */
    method SetAlertPrice(c: SliderCents)
      modifies this
      ensures alertPrice == c
      ensures alertsEnabled == old(alertsEnabled) && alertMethod == old(alertMethod)
    {
      alertPrice := c;
    }

    /** The method buttons: `setAlertMethod(method)`. */
    method SetAlertMethod(m: NotificationMethod)
      modifies this
      ensures alertMethod == m
      ensures alertsEnabled == old(alertsEnabled) && alertPrice == old(alertPrice)
    {
      alertMethod := m;
    }
  }
}
