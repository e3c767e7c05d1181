/** The countdown panel (src/components/ui/timer-display.tsx): a pure
    classification of the remaining seconds into four severity bands, the
    colour, icon and texts each band shows, and the width of the depleting bar
    over a 20-minute (1200-second) span.  The countdown itself is owned by the
    caller. */
module TimerDisplay {
  import Clock
  import Decimal
  import Wrappers

  const CriticalLimit: int := 300  // 5 minutes
  const WarningLimit: int := 600   // 10 minutes
  const FullSpan: int := 1200      // 20 minutes, the bar's full width

  datatype Status = Expired | Critical | Warning | Normal
  datatype Color = Destructive | WarningColor | Primary
  datatype Icon = AlertTriangle | Timer

  /** What getTimerStatus returns: icon, status text and colour. */
  datatype StatusView = StatusView(icon: Icon, text: string, color: Color)

  /** The three flags the component computes first. */
  predicate IsCritical(remaining: int) { remaining <= CriticalLimit }
  predicate IsWarning(remaining: int) { remaining <= WarningLimit }
  predicate IsExpired(remaining: int) { remaining <= 0 }

  /** The band getTimerStatus picks: the first flag that holds, in the order
      expired, critical, warning; normal otherwise. */
  function StatusOf(remaining: int): (s: Status)
    ensures s == Expired <==> remaining <= 0
    ensures s == Critical <==> 0 < remaining <= 300
    ensures s == Warning <==> 300 < remaining <= 600
    ensures s == Normal <==> remaining > 600
  {
    if IsExpired(remaining) then Expired
    else if IsCritical(remaining) then Critical
    else if IsWarning(remaining) then Warning
    else Normal
  }

  function View(s: Status): StatusView {
    match s
    case Expired => StatusView(AlertTriangle, "Tempo Esgotado", Destructive)
    case Critical => StatusView(AlertTriangle, "Crítico", Destructive)
    case Warning => StatusView(Timer, "Atenção", WarningColor)
    case Normal => StatusView(Timer, "Normal", Primary)
  }

  /** getTimerStatus() */
  function GetTimerStatus(remaining: int): StatusView {
    View(StatusOf(remaining))
  }

  /** How severe a band is: 3 for expired down to 0 for normal. */
  function Severity(s: Status): (n: nat)
    ensures n <= 3
  {
    match s
    case Expired => 3
    case Critical => 2
    case Warning => 1
    case Normal => 0
  }

  /** More time left never means a more severe band. */
  lemma SeverityMonotone(earlier: int, later: int)
    requires earlier <= later
    ensures Severity(StatusOf(later)) <= Severity(StatusOf(earlier))
  {
  }

  /** The colour is destructive up to five minutes, warning up to ten, primary
      beyond. */
  lemma ColorBands(remaining: int)
    ensures GetTimerStatus(remaining).color == Destructive <==> remaining <= 300
    ensures GetTimerStatus(remaining).color == WarningColor <==> 300 < remaining <= 600
    ensures GetTimerStatus(remaining).color == Primary <==> remaining > 600
    ensures GetTimerStatus(remaining).icon == AlertTriangle <==> remaining <= 300
  {
  }

  /** The badge under the digits, lines 81-84: its own ternary chain over the
      same flags. */
  datatype Badge = TimerExpired | CriticalTime | AttentionTime | NormalTime

  function BadgeOf(remaining: int): Badge {
    if IsExpired(remaining) then TimerExpired
    else if IsCritical(remaining) then CriticalTime
    else if IsWarning(remaining) then AttentionTime
    else NormalTime
  }

  function BadgeText(b: Badge): string {
    match b
    case TimerExpired => "⏰ Timer Expirado"
    case CriticalTime => "🚨 Tempo Crítico"
    case AttentionTime => "⚠️ Atenção ao Tempo"
    case NormalTime => "⏳ Tempo Normal"
  }

  function BadgeFor(s: Status): Badge {
    match s
    case Expired => TimerExpired
    case Critical => CriticalTime
    case Warning => AttentionTime
    case Normal => NormalTime
  }

  /** The badge and the status always tell the same band. */
  lemma BadgeAgreesWithStatus(remaining: int)
    ensures BadgeOf(remaining) == BadgeFor(StatusOf(remaining))
  {
  }

  /** The `timer-critical` class: `isCritical || isExpired`. */
  function CriticalClass(remaining: int): (on: bool)
    ensures on <==> remaining <= 300
    ensures on <==> StatusOf(remaining) in {Expired, Critical}
  {
    IsCritical(remaining) || IsExpired(remaining)
  }

  /** The value handed to formatTime: `Math.max(0, remainingTime)`. */
  function DisplayedSeconds(remaining: int): (n: int)
    ensures n >= 0
    ensures remaining >= 0 ==> n == remaining
    ensures remaining < 0 ==> n == 0
  {
    if remaining > 0 then remaining else 0
  }

  /** With the page's formatTime the digits shown are well formed for every
      countdown value, and an overdue timer reads "00:00". */
  lemma DisplayedTextWellFormed(remaining: int)
    ensures Clock.ParseClock(Clock.FormatTime(DisplayedSeconds(remaining)))
      == Wrappers.Some((DisplayedSeconds(remaining) / 60, DisplayedSeconds(remaining) % 60))
    ensures remaining <= 0 ==> Clock.FormatTime(DisplayedSeconds(remaining)) == "00:00"
  {
    Clock.FormatTimeRoundTrip(DisplayedSeconds(remaining));
    if remaining <= 0 {
      Clock.FormatTimeZero();
    }
  }

  /** The bar's width in percent, `max(0, min(100, remaining / 1200 * 100))`,
      computed exactly. */
  function ProgressWidth(remaining: int): (w: real)
    ensures 0.0 <= w <= 100.0
    ensures remaining <= 0 ==> w == 0.0
    ensures remaining >= FullSpan ==> w == 100.0
    ensures 0 < remaining < FullSpan ==> w == (remaining as real) * 100.0 / (FullSpan as real)
  {
    var raw := (remaining as real) / (FullSpan as real) * 100.0;
    var capped := if raw < 100.0 then raw else 100.0;
    if capped > 0.0 then capped else 0.0
  }

  /** The bar never grows as time runs out. */
  lemma ProgressWidthMonotone(earlier: int, later: int)
    requires earlier <= later
    ensures ProgressWidth(earlier) <= ProgressWidth(later)
  {
  }

  /** The demonstration page's 900 seconds: the normal band, "15:00" and a
      bar three quarters full. */
  lemma DemoTimer()
    ensures StatusOf(900) == Normal && BadgeText(BadgeOf(900)) == "⏳ Tempo Normal"
    ensures Clock.FormatTime(DisplayedSeconds(900)) == "15:00"
    ensures ProgressWidth(900) == 75.0
  {
    assert Decimal.NatToString(15) == "15";
    assert Decimal.NatToString(0) == "0";
    assert Clock.MinutesText(900) == "15";
    assert Clock.SecondsText(900) == "00";
  }
}
