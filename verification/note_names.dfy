/** `getNoteFromFreq` of components/GameContainer.tsx: a frequency becomes
    the nearest equal-tempered key number (A4 = 440 Hz is key 69) and then a
    label such as "A4" made of a note name and an octave. */
module NoteNames {

  /** The twelve note names from C upwards. */
  const Notes: seq<string> := ["C", "C#", "D", "D#", "E", "F", "F#", "G", "G#", "A", "A#", "B"]

  /** The key number of A4. */
  const ConcertA: int := 69

  /** JavaScript's `a % 12`: the quotient is truncated toward zero, so the
      remainder takes the sign of the dividend. */
  function JsRemainder(a: int): (r: int)
    ensures a >= 0 ==> 0 <= r < 12
    ensures a < 0 ==> -12 < r <= 0
    ensures (a - r) % 12 == 0
  {
    if a >= 0 then a % 12 else -((-a) % 12)
  }

  /** `Math.floor(i / 12) - 1`: key 0 is in octave -1, key 60 (middle C) in octave 4. */
  function Octave(i: int): (o: int)
    ensures 12 * (o + 1) <= i < 12 * (o + 2)
  {
    i / 12 - 1
  }

  /** `NOTES[i % 12]`: a negative key that is not a multiple of 12 indexes
      below the array, and the template turns the missing entry into "undefined". */
  function NoteName(i: int): (name: string)
    ensures name in Notes <==> i >= 0 || i % 12 == 0
  {
    var r := JsRemainder(i);
    if r >= 0 then Notes[r] else "undefined"
  }

  /** The decimal digits of n, most significant first. */
  function Digits(n: nat): (s: string)
    ensures |s| >= 1 && AllDigits(s)
  {
    if n < 10 then [Digit(n)] else Digits(n / 10) + [Digit(n % 10)]
  }

  function Digit(d: nat): (c: char)
    requires d < 10
    ensures '0' <= c <= '9'
  {
    ('0' as int + d) as char
  }

  predicate AllDigits(s: string) {
    forall k :: 0 <= k < |s| ==> '0' <= s[k] <= '9'
  }

  /** Digits, or a minus sign followed by digits. */
  predicate IsDecimal(s: string) {
    |s| >= 1 && if s[0] == '-' then AllDigits(s[1..]) else AllDigits(s)
  }

  /** How a template literal writes an integer n with |n| < 10^21: a minus
      sign, then the digits. Larger magnitudes are written in exponent form,
      but no octave of a finite frequency comes near them. */
  function Decimal(n: int): (s: string)
    ensures IsDecimal(s)
    ensures s[0] == '-' <==> n < 0
  {
    if n < 0 then MinusDigits(Digits(-n)); "-" + Digits(-n) else Digits(n)
  }

  /** A minus sign followed by digits is a decimal whose tail is those digits. */
  lemma MinusDigits(digits: string)
    requires AllDigits(digits)
    ensures ("-" + digits)[1..] == digits
    ensures IsDecimal("-" + digits)
  {
    assert ("-" + digits)[1..] == digits;
  }

  /** Reads back a string of decimal digits. */
  function ParseDigits(s: string): nat
    requires AllDigits(s)
  {
    if s == [] then 0 else ParseDigits(s[..|s| - 1]) * 10 + (s[|s| - 1] as int - '0' as int)
  }

  /** Reads back an optionally signed decimal. */
  function ParseDecimal(s: string): int
    requires IsDecimal(s)
  {
    if s[0] == '-' then -(ParseDigits(s[1..]) as int) else ParseDigits(s)
  }

  /** The note label `${note}${octave}` of key i. */
  function Label(i: int): string {
    NoteName(i) + Decimal(Octave(i))
  }

  /** `Math.round(12 * log2(freq / 440)) + 69`. The logarithm and the rounding
      are the parameter `semitones`, which maps a frequency ratio to the
      nearest whole number of semitones. */
  function KeyNumber(freq: real, semitones: real -> int): int {
    semitones(freq / 440.0) + ConcertA
  }

  function NoteFromFreq(freq: real, semitones: real -> int): string {
    Label(KeyNumber(freq, semitones))
  }

  /** For a key at or above 0 the name and the octave together recover the key. */
  lemma KeySplits(i: int)
    requires i >= 0
    ensures 0 <= JsRemainder(i) < 12
    ensures 12 * (Octave(i) + 1) + JsRemainder(i) == i
    ensures NoteName(i) == Notes[JsRemainder(i)]
  {
  }

  /** Keys twelve apart have the same name, one octave apart. */
  lemma OctaveUp(i: int)
    requires i >= 0
    ensures NoteName(i + 12) == NoteName(i)
    ensures Octave(i + 12) == Octave(i) + 1
  {
    assert JsRemainder(i + 12) == JsRemainder(i);
  }

  /** The digits read back as the number they were written from. */
  lemma {:induction false} DigitsRoundTrip(n: nat)
    ensures ParseDigits(Digits(n)) == n
  {
    var s := Digits(n);
    if n >= 10 {
      DigitsRoundTrip(n / 10);
      assert s[..|s| - 1] == Digits(n / 10);
      assert s[|s| - 1] == Digit(n % 10);
    } else {
      assert s == [Digit(n)];
      assert s[..0] == [];
    }
  }

  /** The octave printed in a label reads back as the octave, negative ones included. */
  lemma DecimalRoundTrip(n: int)
    ensures ParseDecimal(Decimal(n)) == n
  {
    if n < 0 {
      assert Decimal(n) == "-" + Digits(-n);
      DigitsRoundTrip(-n);
      ParseNegative(Digits(-n));
    } else {
      DigitsRoundTrip(n);
    }
  }

  /** A minus sign in front of digits negates what they read as. */
  lemma ParseNegative(digits: string)
    requires AllDigits(digits)
    ensures IsDecimal("-" + digits)
    ensures ParseDecimal("-" + digits) == -(ParseDigits(digits) as int)
  {
    MinusDigits(digits);
  }

  /** A label splits back into its name and its octave. */
  lemma LabelRoundTrip(i: int)
    ensures var name := NoteName(i);
            Label(i)[..|name|] == name && ParseDecimal(Label(i)[|name|..]) == Octave(i)
  {
    var name := NoteName(i);
    assert Label(i)[|name|..] == Decimal(Octave(i));
    DecimalRoundTrip(Octave(i));
  }

  /** 440 Hz, a ratio of 1 and zero semitones off concert A, is labelled "A4". */
  lemma ConcertPitchIsA4(semitones: real -> int)
    requires semitones(1.0) == 0
    ensures NoteFromFreq(440.0, semitones) == "A4"
  {
  }

  /** Middle C, key 60, is labelled "C4". */
  lemma MiddleC()
    ensures Label(60) == "C4"
  {
  }

  /** Below key 0 only the C keys (multiples of 12, where `%` gives -0)
      still have a name. */
  lemma NegativeKeyHasNoName(i: int)
    requires i < 0 && i % 12 != 0
    ensures NoteName(i) == "undefined"
  {
  }

  /** Key -1, the key of a frequency of about 7.7 Hz, is labelled "undefined-2". */
  lemma KeyMinusOne()
    ensures Label(-1) == "undefined-2"
  {
  }
}
