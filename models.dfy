/**
 * Derived properties of the persisted meeting records: a recording's
 * duration as HH:MM:SS, whether a scheduled meeting is upcoming, active or
 * past, and whether a room has expired.  Instants are integer timestamps
 * (seconds) and "now" is a parameter.
 */
module Models {
  import opened Wrappers

  /** A meeting room; only its optional expiry instant matters here. */
  datatype JitsiRoom = JitsiRoom(name: string, expiresAt: Option<int>) {

    /** is_expired: a room without an expiry never expires; otherwise it has
        expired once now is strictly after the expiry instant. */
    predicate IsExpired(now: int) {
      if expiresAt.Some? then now > expiresAt.value else false
    }
  }

  /** A recording; its duration in seconds is optional. */
  datatype MeetingRecording = MeetingRecording(recordingId: string, duration: Option<nat>) {

    /** duration_formatted: "00:00:00" for an absent or zero duration,
        otherwise hours, minutes and seconds, each at least two digits. */
    function DurationFormatted(): string {
      if duration.None? || duration.value == 0 then "00:00:00"
      else
        var hours, remainder := duration.value / 3600, duration.value % 3600;
        var minutes, seconds := remainder / 60, remainder % 60;
        Pad2(hours) + ":" + Pad2(minutes) + ":" + Pad2(seconds)
    }
  }

  /** A scheduled meeting between two instants. */
  datatype ScheduledMeeting = ScheduledMeeting(title: string, startTime: int, endTime: int) {

    predicate IsActive(now: int) {
      startTime <= now <= endTime
    }

    predicate IsUpcoming(now: int) {
      now < startTime
    }

    predicate IsPast(now: int) {
      now > endTime
    }
  }

  // ---------------------------------------------------------------------
  // Decimal digits

  function DigitChar(d: nat): char
    requires d < 10
  {
    ('0' as int + d) as char
  }

  predicate IsDigit(c: char) {
    '0' <= c <= '9'
  }

  predicate AllDigits(s: string) {
    forall i :: 0 <= i < |s| ==> IsDigit(s[i])
  }

  /** The decimal numeral of n, without leading zeros (Python's str(n)). */
  function Decimal(n: nat): (s: string)
    ensures |s| >= 1 && AllDigits(s)
    ensures |s| == 1 <==> n < 10
    decreases n
  {
    if n < 10 then [DigitChar(n)] else Decimal(n / 10) + [DigitChar(n % 10)]
  }

  /** n zero-padded to at least two digits (Python's f"{n:02}"). */
  function Pad2(n: nat): (s: string)
    ensures |s| >= 2 && AllDigits(s)
    ensures |s| == 2 <==> n < 100
  {
    if n < 10 then "0" + Decimal(n) else Decimal(n)
  }

  /** The value of a string of decimal digits. */
  function ParseDecimal(s: string): nat
    requires AllDigits(s)
    decreases |s|
  {
    if s == [] then 0
    else 10 * ParseDecimal(s[..|s| - 1]) + (s[|s| - 1] as int - '0' as int)
  }

  lemma {:induction false} DecimalRoundTrip(n: nat)
    ensures ParseDecimal(Decimal(n)) == n
    decreases n
  {
    if n >= 10 {
      var s := Decimal(n);
      assert s[..|s| - 1] == Decimal(n / 10);
      DecimalRoundTrip(n / 10);
    }
  }

  lemma Pad2RoundTrip(n: nat)
    ensures ParseDecimal(Pad2(n)) == n
  {
    DecimalRoundTrip(n);
    if n < 10 {
      var s := Pad2(n);
      assert s[..|s| - 1] == "0";
    }
  }

  // ---------------------------------------------------------------------
  // Reading a clock string back

  /** Reads "H…H:MM:SS" back into seconds; None when the string does not
      have that shape or minutes or seconds are 60 or more. */
  function ParseClock(s: string): Option<nat> {
    if |s| < 8 || s[|s| - 3] != ':' || s[|s| - 6] != ':' then None
    else
      var h, m, sec := s[..|s| - 6], s[|s| - 5..|s| - 3], s[|s| - 2..];
      if !(AllDigits(h) && AllDigits(m) && AllDigits(sec)) then None
      else if ParseDecimal(m) >= 60 || ParseDecimal(sec) >= 60 then None
      else Some(ParseDecimal(h) * 3600 + ParseDecimal(m) * 60 + ParseDecimal(sec))
  }

  /** The formatted duration has hours, two-digit minutes and two-digit
      seconds separated by colons, and reads back as the duration (an absent
      duration reads back as zero). */
  lemma DurationFormattedRoundTrip(rec: MeetingRecording)
    ensures var out := rec.DurationFormatted();
            && |out| >= 8 && out[|out| - 3] == ':' && out[|out| - 6] == ':'
            && ParseClock(out) == Some(if rec.duration.Some? then rec.duration.value else 0)
  {
    var d := if rec.duration.Some? then rec.duration.value else 0;
    var out := rec.DurationFormatted();
    var hours, minutes, seconds := d / 3600, d % 3600 / 60, d % 3600 % 60;
    var ph, pm, ps := Pad2(hours), Pad2(minutes), Pad2(seconds);
    assert out == ph + ":" + pm + ":" + ps by {
      if d == 0 {
        assert Decimal(0) == "0";
      }
    }
    assert |pm| == 2 && |ps| == 2;
    assert out[..|out| - 6] == ph;
    assert out[|out| - 5..|out| - 3] == pm;
    assert out[|out| - 2..] == ps;
    Pad2RoundTrip(hours);
    Pad2RoundTrip(minutes);
    Pad2RoundTrip(seconds);
    assert hours * 3600 + minutes * 60 + seconds == d;
  }

  /** The hours field is exactly two characters wide below 100 hours and
      wider above; the fields always satisfy the divmod identity. */
  lemma DurationFields(d: nat)
    requires d > 0
    ensures var out := MeetingRecording("", Some(d)).DurationFormatted();
            var hours, minutes, seconds := d / 3600, d % 3600 / 60, d % 3600 % 60;
            && hours * 3600 + minutes * 60 + seconds == d
            && 0 <= minutes < 60 && 0 <= seconds < 60
            && out == Pad2(hours) + ":" + Pad2(minutes) + ":" + Pad2(seconds)
            && (|out| == 8 <==> hours < 100)
  {
  }

  /** An absent duration and a zero duration are both shown as "00:00:00". */
  lemma NoDurationFormatted(id: string)
    ensures MeetingRecording(id, None).DurationFormatted() == "00:00:00"
    ensures MeetingRecording(id, Some(0)).DurationFormatted() == "00:00:00"
  {
  }

  /** The zero branch agrees with the general formula: formatting 0 seconds
      by divmod also gives "00:00:00". */
  lemma ZeroBranchAgrees()
    ensures Pad2(0) + ":" + Pad2(0) + ":" + Pad2(0) == "00:00:00"
  {
    assert Decimal(0) == "0";
  }

  /** A recording of 3725 seconds is shown as "01:02:05". */
  lemma DurationExample()
    ensures MeetingRecording("", Some(3725)).DurationFormatted() == "01:02:05"
  {
    assert Decimal(1) == "1" && Decimal(2) == "2" && Decimal(5) == "5";
  }

  // ---------------------------------------------------------------------
  // Meeting phases and expiry

  /** For a meeting that does not end before it starts, exactly one of
      upcoming, active and past holds at every instant. */
  lemma ExactlyOnePhase(m: ScheduledMeeting, now: int)
    requires m.startTime <= m.endTime
    ensures m.IsUpcoming(now) || m.IsActive(now) || m.IsPast(now)
    ensures !(m.IsUpcoming(now) && m.IsActive(now))
    ensures !(m.IsActive(now) && m.IsPast(now))
    ensures !(m.IsUpcoming(now) && m.IsPast(now))
  {
  }

  /** A meeting whose end precedes its start is never active, and between the
      two instants it is upcoming and past at once. */
  lemma InvertedMeeting(m: ScheduledMeeting, now: int)
    requires m.endTime < m.startTime
    ensures !m.IsActive(now)
    ensures m.endTime < now < m.startTime ==> m.IsUpcoming(now) && m.IsPast(now)
  {
  }

  /** Phases move forward in time: once past a meeting stays past, and a
      meeting upcoming now was upcoming at every earlier instant. */
  lemma PhasesMonotone(m: ScheduledMeeting, now: int, later: int)
    requires now <= later
    ensures m.IsPast(now) ==> m.IsPast(later)
    ensures m.IsUpcoming(later) ==> m.IsUpcoming(now)
  {
  }

  /** Expiry: never without an expiry instant, permanent once reached, and
      reached exactly after the instant. */
  lemma ExpiryProperties(room: JitsiRoom, now: int, later: int)
    requires now <= later
    ensures room.expiresAt.None? ==> !room.IsExpired(now)
    ensures room.IsExpired(now) ==> room.IsExpired(later)
    ensures room.expiresAt.Some? ==> (room.IsExpired(now) <==> now > room.expiresAt.value)
  {
  }
}
