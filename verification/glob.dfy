/** The file-name pattern the recordings are discovered with, and the
    subset of shell-style glob syntax it is written in: literal characters
    and `[lo-hi]` character ranges. */
module Glob {

  /** One position of a pattern: a character matched literally, or a
      character class `[lo-hi]` matching one character of the range. */
  datatype Atom = Literal(c: char) | Range(lo: char, hi: char)

  predicate AtomMatches(a: Atom, c: char)
  {
    match a
    case Literal(l) => c == l
    case Range(lo, hi) => lo <= c <= hi
  }

  /** A pattern without wildcards matches a name when the name has one
      character per position and every character matches its position. */
  predicate Matches(name: string, atoms: seq<Atom>)
  {
    |name| == |atoms| && forall i :: 0 <= i < |name| ==> AtomMatches(atoms[i], name[i])
  }

  const Digit: Atom := Range('0', '9')

  /** The pattern the recorder's fragment names follow, written position by
      position: `[0-9]` eight times, a space, `[0-9][0-9]`, a dot,
      `[0-9][0-9]`, a dot, `[0-9][0-9]`, and the literal `.WAV`. */
  const XLivePattern: seq<Atom> := [
    Digit, Digit, Digit, Digit, Digit, Digit, Digit, Digit,
    Literal(' '), Digit, Digit, Literal('.'), Digit, Digit, Literal('.'), Digit, Digit,
    Literal('.'), Literal('W'), Literal('A'), Literal('V')]

  predicate IsDigit(c: char)
  {
    '0' <= c <= '9'
  }

  /** The recording names written out position by position, independently
      of the glob syntax: `YYYYMMDD HH.MM.SS.WAV` with decimal digits. */
  predicate HasRecordingShape(name: string)
  {
    && |name| == 21
    && (forall i :: 0 <= i < 8 ==> IsDigit(name[i]))
    && name[8] == ' '
    && IsDigit(name[9]) && IsDigit(name[10]) && name[11] == '.'
    && IsDigit(name[12]) && IsDigit(name[13]) && name[14] == '.'
    && IsDigit(name[15]) && IsDigit(name[16])
    && name[17..] == ".WAV"
  }

  /** Whether a directory entry is taken as a recording fragment: it
      matches the script's pattern. */
  predicate IsRecordingName(name: string)
  {
    Matches(name, XLivePattern)
  }

  /** Matching the script's pattern is the same as having the
      recording shape, in both directions. */
  lemma RecordingNameIffShape(name: string)
    ensures IsRecordingName(name) <==> HasRecordingShape(name)
  {
  }

  /** The extension test is exact: the lower-case spelling is not taken. */
  lemma LowerCaseExtensionRejected()
    ensures !IsRecordingName("20240101 12.30.00.wav")
    ensures IsRecordingName("20240101 12.30.00.WAV")
  {
    RecordingNameIffShape("20240101 12.30.00.wav");
    RecordingNameIffShape("20240101 12.30.00.WAV");
    var good := "20240101 12.30.00.WAV";
    assert good[17..] == ".WAV";
    var bad := "20240101 12.30.00.wav";
    assert bad[18] == 'w';
  }
}
