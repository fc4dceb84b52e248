/** The time labels and the progress of the React player bar. The seconds
    counter and the durations are integers here; JavaScript's `Math.floor`
    and its truncating `%` are written out. */
module PlayerBar {
  import opened JsValues
  import opened Tracks

  /** `Math.floor(t / 60)`: Dafny's division by a positive divisor already
      rounds down. */
  function Minutes(t: int): int {
    t / 60
  }

  /** `t % 60` in JavaScript: the remainder takes the sign of `t`. */
  function SecondsPart(t: int): int {
    if t >= 0 then t % 60 else -((-t) % 60)
  }

  /** `s.padStart(2, '0')`. */
  function PadTwo(s: string): string {
    if |s| >= 2 then s else if |s| == 1 then "0" + s else "00"
  }

  /** `formatTime(totalSeconds)`. */
  function FormatTime(t: int): string {
    PadTwo(IntText(Minutes(t))) + ":" + PadTwo(IntText(SecondsPart(t)))
  }

  /** For a counter at or above 0 the two fields split it exactly: whole
      minutes, and fewer than sixty seconds left over. */
  lemma FieldsSplitTime(t: int)
    requires t >= 0
    ensures Minutes(t) * 60 + SecondsPart(t) == t
    ensures 0 <= SecondsPart(t) < 60 && Minutes(t) >= 0
  {
  }

  /** Below zero (which the counter never reaches) the floor of the
      minutes and the truncated seconds add up only for whole minutes; any
      other negative counter comes out one minute short, so -1 shows as
      "-1:-1" and -61 as "-2:-1". */
  lemma NegativeTimeDoesNotSplit(t: int)
    requires t < 0
    ensures (-t) % 60 == 0 ==> Minutes(t) * 60 + SecondsPart(t) == t
    ensures (-t) % 60 != 0 ==> Minutes(t) * 60 + SecondsPart(t) == t - 60
    ensures FormatTime(-1) == "-1:-1"
  {
    var u := -t;
    var q := u / 60;
    var r := u % 60;
    assert u == 60 * q + r;
    if r == 0 {
      assert t == 60 * (-q);
      assert Minutes(t) == -q;
    } else {
      assert t == 60 * (-q - 1) + (60 - r);
      assert Minutes(t) == -q - 1;
    }
    assert IntText(-1) == "-1";
  }

  function DigitValue(c: char): int {
    c as int - '0' as int
  }

  predicate IsDigit(c: char) {
    '0' <= c <= '9'
  }

  /** The text of a number below 100, padded to two places, is its tens and
      units digits. */
  lemma PadTwoDigits(n: nat)
    requires n < 100
    ensures var p := PadTwo(NatText(n));
      |p| == 2 && IsDigit(p[0]) && IsDigit(p[1]) && DigitValue(p[0]) * 10 + DigitValue(p[1]) == n
  {
    if n >= 10 {
      assert NatText(n / 10) == ['0' + (n / 10) as char];
    }
  }

  /** Below 100 minutes the label is five characters `mm:ss`, every one of
      them a digit except the colon at position 2. */
  lemma FormatTimeShape(t: int)
    requires 0 <= t < 6000
    ensures var r := FormatTime(t);
      |r| == 5 && r[2] == ':' && IsDigit(r[0]) && IsDigit(r[1]) && IsDigit(r[3]) && IsDigit(r[4])
  {
    FieldsSplitTime(t);
    PadTwoDigits(Minutes(t));
    PadTwoDigits(SecondsPart(t));
  }

  /** Reading an `mm:ss` label back. */
  function ParseTime(r: string): int
    requires |r| == 5
  {
    (DigitValue(r[0]) * 10 + DigitValue(r[1])) * 60 + DigitValue(r[3]) * 10 + DigitValue(r[4])
  }

  /** The label is faithful: reading it back gives the counter. */
  lemma FormatTimeRoundTrip(t: int)
    requires 0 <= t < 6000
    ensures |FormatTime(t)| == 5 && ParseTime(FormatTime(t)) == t
  {
    FieldsSplitTime(t);
    PadTwoDigits(Minutes(t));
    PadTwoDigits(SecondsPart(t));
  }

  /** `currentSong?.duration || 180`. */
  function DurationShown(song: Option<Track>): Duration {
    if song.Some? && DurationTruthy(song.value.duration) then song.value.duration else Seconds(180)
  }

  /** The shown duration is the song's own when it is truthy and 180
      otherwise, including a duration of 0, an absent one and no song; so it
      is never falsy. */
  lemma DurationDefault(song: Option<Track>)
    ensures DurationTruthy(DurationShown(song))
    ensures song.Some? && DurationTruthy(song.value.duration) ==> DurationShown(song) == song.value.duration
    ensures song.None? || !DurationTruthy(song.value.duration) ==> DurationShown(song) == Seconds(180)
  {
  }

  /** The right-hand label: `--:--` without a song, otherwise the shown
      duration formatted. `None` stands for a duration held as a string,
      which JavaScript would coerce to a number and which this model does
      not follow. */
  function DurationLabel(song: Option<Track>): Option<string> {
    if song.None? then Some("--:--")
    else match DurationShown(song)
      case Seconds(n) => Some(FormatTime(n))
      case _ => None
  }

  /** No song gives `--:--`, which no formatted time of a counter below 100
      minutes equals; a song whose duration is falsy (absent, 0 or the empty
      string) shows 03:00. */
  lemma DurationLabelRules(song: Option<Track>, t: int)
    requires 0 <= t < 6000
    ensures DurationLabel(None) == Some("--:--") && FormatTime(t) != "--:--"
    ensures song.Some? && !DurationTruthy(song.value.duration) ==>
      DurationLabel(song) == Some("03:00")
  {
    FormatTimeShape(t);
    assert FormatTime(t)[0] != '-';
    assert Minutes(180) == 3 && SecondsPart(180) == 0;
    assert IntText(3) == "3" && IntText(0) == "0";
    assert FormatTime(180) == "03:00";
  }

  /** `currentSong ? Math.min(currentSeconds / duration * 100, 100) : 0`, as
      an exact fraction; `None` for a string duration, as above. */
  function Progress(song: Option<Track>, seconds: nat): Option<real> {
    if song.None? then Some(0.0)
    else match DurationShown(song)
      case Seconds(n) =>
        var pct := (seconds as real / n as real) * 100.0;
        Some(if pct < 100.0 then pct else 100.0)
      case _ => None
  }

  /** With no song the bar is empty; with a positive duration it fills in
      proportion and stops at 100 exactly when the counter reaches the
      duration. */
  lemma ProgressBounds(song: Option<Track>, seconds: nat)
    ensures song.None? ==> Progress(song, seconds) == Some(0.0)
    ensures song.Some? && DurationShown(song).Seconds? && DurationShown(song).n > 0 ==>
      var p := Progress(song, seconds).value;
      0.0 <= p <= 100.0 && (p == 100.0 <==> seconds >= DurationShown(song).n)
  {
    if song.Some? && DurationShown(song).Seconds? && DurationShown(song).n > 0 {
      var n := DurationShown(song).n as real;
      var q := seconds as real / n;
      assert q * n == seconds as real;
      assert q >= 1.0 <==> seconds as real >= n;
    }
  }
}
