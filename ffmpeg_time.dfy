/** `extract_time_from_output`, in src/tracktidy/core/audio.py and again in audio_converter.py:
    the elapsed time of an FFmpeg progress line, from the leftmost `time=HH:MM:SS.cc` in it.
    The time is given exactly, in hundredths of a second, where the source adds floats. */
module FfmpegTime {
  import opened Wrappers
  import opened Text

  const TIME_TAG := "time="

  /** The length of `time=HH:MM:SS.cc`. */
  const MATCH_LENGTH := 16

  /** The regular expression `time=(\d{2}:\d{2}:\d{2}\.\d{2})` matches at `i`. */
  predicate TimeAt(line: string, i: nat) {
    && i + MATCH_LENGTH <= |line|
    && line[i..i + 5] == TIME_TAG
    && IsDigit(line[i + 5]) && IsDigit(line[i + 6]) && line[i + 7] == ':'
    && IsDigit(line[i + 8]) && IsDigit(line[i + 9]) && line[i + 10] == ':'
    && IsDigit(line[i + 11]) && IsDigit(line[i + 12]) && line[i + 13] == '.'
    && IsDigit(line[i + 14]) && IsDigit(line[i + 15])
  }

  /** The two-digit number at `j`. */
  function TwoDigits(line: string, j: nat): (n: nat)
    requires j + 2 <= |line| && IsDigit(line[j]) && IsDigit(line[j + 1])
    ensures n <= 99
  {
    10 * DigitValue(line[j]) + DigitValue(line[j + 1])
  }

  /** `h * 3600 + m * 60 + s` for the time matched at `i`, in hundredths of a second. */
  function Hundredths(line: string, i: nat): (t: nat)
    requires TimeAt(line, i)
  {
    var h, m := TwoDigits(line, i + 5), TwoDigits(line, i + 8);
    var s, c := TwoDigits(line, i + 11), TwoDigits(line, i + 14);
    (h * 3600 + m * 60 + s) * 100 + c
  }

  /** The largest time the pattern can match, 99:99:99.99. */
  const MAX_HUNDREDTHS: nat := (99 * 3600 + 99 * 60 + 99) * 100 + 99

  /** Fields are not range-checked, but two digits each bound the time. */
  lemma HundredthsBound(line: string, i: nat)
    requires TimeAt(line, i)
    ensures Hundredths(line, i) <= MAX_HUNDREDTHS
  {
    var h, m := TwoDigits(line, i + 5), TwoDigits(line, i + 8);
    var s, c := TwoDigits(line, i + 11), TwoDigits(line, i + 14);
    assert h * 3600 <= 99 * 3600 && m * 60 <= 99 * 60;
  }

  /** The leftmost match at or after `i`, as `re.search` finds it. */
  function FirstMatchFrom(line: string, i: nat): (k: Option<nat>)
    requires i <= |line|
    ensures k.Some? ==> i <= k.value && TimeAt(line, k.value)
    ensures k.Some? ==> forall j: nat :: i <= j < k.value ==> !TimeAt(line, j)
    ensures k.None? ==> forall j: nat :: i <= j ==> !TimeAt(line, j)
    decreases |line| - i
  {
    if i + MATCH_LENGTH > |line| then None
    else if TimeAt(line, i) then Some(i)
    else FirstMatchFrom(line, i + 1)
  }

  /** `extract_time_from_output(log_line)`: `None` exactly when nothing matches; otherwise the
      time of the leftmost match. */
  function ExtractTime(line: string): (t: Option<nat>)
    ensures t.None? <==> forall j: nat :: !TimeAt(line, j)
    ensures t.Some? ==> exists k: nat :: && TimeAt(line, k)
                                        && (forall j: nat :: j < k ==> !TimeAt(line, j))
                                        && t.value == Hundredths(line, k)
  {
    match FirstMatchFrom(line, 0)
    case None => None
    case Some(k) =>
      assert TimeAt(line, k) && forall j: nat :: j < k ==> !TimeAt(line, j);
      Some(Hundredths(line, k))
  }

  /** The result lies between 0 and 99:99:99.99. */
  lemma ExtractTimeBound(line: string)
    ensures ExtractTime(line).Some? ==> ExtractTime(line).value <= MAX_HUNDREDTHS
  {
    match FirstMatchFrom(line, 0)
    case None =>
    case Some(k) => HundredthsBound(line, k);
  }

  /** A one-digit field does not match. */
  lemma OneDigitHourDoesNotMatch()
    ensures ExtractTime("time=0:00:01.00 x") == None
  {
    var line := "time=0:00:01.00 x";
    assert !IsDigit(line[6]);
    assert line[1..6][0] == 'i';
  }

  lemma {:induction false} FirstMatchFromAt(line: string, i: nat, k: nat)
    requires i <= k && TimeAt(line, k)
    requires forall j: nat :: i <= j < k ==> !TimeAt(line, j)
    ensures FirstMatchFrom(line, i) == Some(k)
    decreases k - i
  {
    if i < k {
      assert !TimeAt(line, i);
      FirstMatchFromAt(line, i + 1, k);
    }
  }

  /** The time of the leftmost match is the result, whatever follows it. */
  lemma ExtractTimeAt(line: string, k: nat)
    requires TimeAt(line, k)
    requires forall j: nat :: j < k ==> !TimeAt(line, j)
    ensures ExtractTime(line) == Some(Hundredths(line, k))
  {
    FirstMatchFromAt(line, 0, k);
  }

  lemma MalformedTagDoesNotMatch(line: string)
    requires line == "time=N/A time=00:01:02.50"
    ensures forall j: nat :: j < 9 ==> !TimeAt(line, j)
  {
    assert !IsDigit(line[5]);
    forall j: nat | 0 < j < 9
      ensures !TimeAt(line, j)
    {
      assert line[j..j + 5][0] == line[j] != 't';
    }
  }

  lemma WellFormedTagMatches(line: string)
    requires line == "time=N/A time=00:01:02.50"
    ensures TimeAt(line, 9) && Hundredths(line, 9) == 6250
  {
    assert line[9..14] == TIME_TAG;
    assert line[14] == '0' && line[15] == '0' && line[17] == '0' && line[18] == '1';
    assert line[20] == '0' && line[21] == '2' && line[23] == '5' && line[24] == '0';
    assert TwoDigits(line, 14) == 0 && TwoDigits(line, 17) == 1;
    assert TwoDigits(line, 20) == 2 && TwoDigits(line, 23) == 50;
  }

  /** A malformed `time=` before a well-formed one is passed over. */
  lemma LaterWellFormedTimeWins()
    ensures ExtractTime("time=N/A time=00:01:02.50") == Some(6250)
  {
    var line := "time=N/A time=00:01:02.50";
    MalformedTagDoesNotMatch(line);
    WellFormedTagMatches(line);
    ExtractTimeAt(line, 9);
  }
}
