/** The news card's age label (`timeAgo`, `hours`, `minutes`, `timeString`)
    and its sentiment icon. The same formula labels the news lists of both
    trading pages. */
module NewsCard {
  import Text

  /** `Math.round(elapsedMs / 60000)`: whole minutes, halves rounded up. */
  function TimeAgo(elapsedMs: int): (t: int)
    ensures 60000 * t - 30000 <= elapsedMs < 60000 * t + 30000
  {
    (elapsedMs + 30000) / 60000
  }

  /** An older item never shows a smaller age. */
  lemma TimeAgoMonotone(a: int, b: int)
    requires a <= b
    ensures TimeAgo(a) <= TimeAgo(b)
  {
  }

  /** `Math.floor(t / 60)`. */
  function Hours(t: int): (h: int)
    ensures 60 * h <= t < 60 * h + 60
  {
    t / 60
  }

  /** `t % 60` as JavaScript computes it: the sign follows `t`. */
  function Minutes(t: int): (m: int)
    ensures -60 < m < 60
    ensures t >= 0 ==> m >= 0
    ensures t < 0 ==> m <= 0
    ensures (t - m) % 60 == 0
  {
    if t >= 0 then t % 60 else -((-t) % 60)
  }

  /** The label: whole hours when there is at least one, else minutes. */
  function TimeString(t: int): (s: string)
    ensures Hours(t) > 0 ==> s == Text.IntToString(Hours(t)) + "h ago"
    ensures Hours(t) <= 0 ==> s == Text.IntToString(Minutes(t)) + "m ago"
  {
    if t / 60 > 0 then Text.IntToString(t / 60) + "h ago"
    else Text.IntToString(if t >= 0 then t % 60 else -((-t) % 60)) + "m ago"
  }

  /** For a non-negative age, hours and minutes split it exactly. */
  lemma HoursMinutesSplit(t: int)
    requires t >= 0
    ensures t == 60 * Hours(t) + Minutes(t)
    ensures 0 <= Minutes(t) < 60
  {
  }

  /** From an hour on the label drops the minutes: ages within one hour-wide
      band read the same. */
  lemma HourLabelDropsMinutes(t: int, u: int)
    requires t >= 60 && Hours(t) == Hours(u)
    ensures TimeString(t) == TimeString(u)
  {
  }

  /** Under an hour the label is the age in minutes, also for the negative
      ages of items stamped in the future. */
  lemma MinuteLabel(t: int)
    requires -60 < t < 60
    ensures TimeString(t) == Text.IntToString(t) + "m ago"
  {
    assert Hours(t) <= 0;
    assert Minutes(t) == t;
  }

  /** Items an hour apart in the first day carry different labels. */
  lemma HourLabelsDiffer(t: int, u: int)
    requires 60 <= t && 60 <= u && Hours(t) != Hours(u)
    ensures TimeString(t) != TimeString(u)
  {
    var a := Text.IntToString(Hours(t));
    var b := Text.IntToString(Hours(u));
    assert TimeString(t) == a + "h ago" && TimeString(u) == b + "h ago";
    if a == b {
      Text.NatToStringInjective(Hours(t), Hours(u));
    } else if |a| == |b| {
      var i :| 0 <= i < |a| && a[i] != b[i];
      assert (a + "h ago")[i] != (b + "h ago")[i];
    } else if |a| < |b| {
      assert (a + "h ago")[|a|] == 'h';
      assert '0' <= (b + "h ago")[|a|] <= '9';
    } else {
      assert (b + "h ago")[|b|] == 'h';
      assert '0' <= (a + "h ago")[|b|] <= '9';
    }
  }

  /** The badge: a rising chart for `positive`, an arrow for `neutral`, a
      falling chart otherwise. */
  function SentimentIcon(sentiment: string): (icon: string)
    ensures sentiment == "positive" ==> icon == "\U{1F4C8}"
    ensures sentiment == "neutral" ==> icon == "\U{27A1}\U{FE0F}"
    ensures sentiment != "positive" && sentiment != "neutral" ==> icon == "\U{1F4C9}"
  {
    if sentiment == "positive" then "\U{1F4C8}" else if sentiment == "neutral" then "\U{27A1}\U{FE0F}" else "\U{1F4C9}"
  }

  /** The three sentiments show three different icons, and every label
      other than `positive` and `neutral` shows the falling chart. */
  lemma SentimentIconsDiffer(other: string)
    requires other != "positive" && other != "neutral"
    ensures SentimentIcon("positive") != SentimentIcon("neutral")
    ensures SentimentIcon("positive") != SentimentIcon(other)
    ensures SentimentIcon("neutral") != SentimentIcon(other)
    ensures SentimentIcon(other) == SentimentIcon("negative")
  {
  }
}
