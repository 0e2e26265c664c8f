/** Messages exchanged with signalling clients and media nodes: `{method, data}` (the `method` field is `methodName` here, `method` being a keyword). */
module Messages {

  datatype Option<T> = None | Some(value: T)

  const SecondsPerDay: int := 86400

  /** A time of day, in seconds after midnight: what an `HH:mm:ss` string denotes. */
  type Seconds = s: int | 0 <= s < SecondsPerDay

  predicate IsDigit(c: char)
  {
    '0' <= c <= '9'
  }

  function Digit(c: char): int
  {
    c as int - '0' as int
  }

  /** The number written by two decimal digits. */
  function TwoDigitValue(a: char, b: char): int
  {
    10 * Digit(a) + Digit(b)
  }

  /** A string that reads as a time of day: `HH:mm:ss` with hours below 24 and
      minutes and seconds below 60. */
  predicate ClockText(s: string)
  {
    |s| == 8 && s[2] == ':' && s[5] == ':'
    && IsDigit(s[0]) && IsDigit(s[1]) && IsDigit(s[3]) && IsDigit(s[4]) && IsDigit(s[6]) && IsDigit(s[7])
    && TwoDigitValue(s[0], s[1]) < 24 && Digit(s[3]) < 6 && Digit(s[6]) < 6
  }

  /** The time of day an `HH:mm:ss` string denotes. */
  function ClockSeconds(s: string): (t: Seconds)
    requires ClockText(s)
    ensures t % 60 == TwoDigitValue(s[6], s[7])
  {
    3600 * TwoDigitValue(s[0], s[1]) + 60 * TwoDigitValue(s[3], s[4]) + TwoDigitValue(s[6], s[7])
  }

  function TwoDigits(n: int): (s: string)
    requires 0 <= n < 100
    ensures |s| == 2 && IsDigit(s[0]) && IsDigit(s[1]) && TwoDigitValue(s[0], s[1]) == n
  {
    [('0' as int + n / 10) as char, ('0' as int + n % 10) as char]
  }

  /** A time of day split into hours, minutes and seconds. */
  lemma ClockParts(t: Seconds)
    ensures 0 <= t / 3600 < 24 && 0 <= t % 3600 / 60 < 60 && 0 <= t % 3600 % 60 < 60
    ensures 3600 * (t / 3600) + 60 * (t % 3600 / 60) + t % 3600 % 60 == t
  {
  }

  /** `format('HH:mm:ss')`: the zero-padded hours, minutes and seconds. */
  function ClockString(t: Seconds): (s: string)
    ensures ClockText(s) && ClockSeconds(s) == t
  {
    ClockParts(t);
    var h, m, sec := TwoDigits(t / 3600), TwoDigits(t % 3600 / 60), TwoDigits(t % 3600 % 60);
    var s := h + ":" + m + ":" + sec;
    assert s[0] == h[0] && s[1] == h[1] && s[3] == m[0] && s[4] == m[1] && s[6] == sec[0] && s[7] == sec[1];
    s
  }

  /** Any string that does not read as a time of day. */
  type Prose = s: string | !ClockText(s) witness ""

  /** A field value of a message's `data` object. A string is `Time(t)` when it
      reads as a time of day (`HH:mm:ss`, see `ClockText`) and `Text` otherwise,
      so every string has exactly one representation (`FromString`). */
  datatype Value =
    | Text(s: Prose)
    | Flag(b: bool)
    | Time(seconds: Seconds)
    | Undefined

  /** The value a string stands for. */
  function FromString(s: string): (v: Value)
    ensures v.Time? <==> ClockText(s)
    ensures v.Text? <==> !ClockText(s)
  {
    if ClockText(s) then Time(ClockSeconds(s)) else Text(s)
  }

  /** The string a `Text` or `Time` value stands for. */
  function AsString(v: Value): string
    requires v.Text? || v.Time?
  {
    if v.Text? then v.s else ClockString(v.seconds)
  }

  /** Reading a string into a value and writing it back gives the same string,
      and a formatted time reads back as that time. */
  lemma StringRoundTrip(s: string, t: Seconds)
    ensures AsString(FromString(s)) == s
    ensures FromString(ClockString(t)) == Time(t)
  {
    if ClockText(s) {
      var w := ClockString(ClockSeconds(s));
      assert ClockText(w) && ClockSeconds(w) == ClockSeconds(s);
      ClockSecondsInjective(w, s);
    }
  }

  /** Two `HH:mm:ss` strings denoting the same time are the same string. */
  lemma ClockSecondsInjective(a: string, b: string)
    requires ClockText(a) && ClockText(b) && ClockSeconds(a) == ClockSeconds(b)
    ensures a == b
  {
  }

  type Data = map<string, Value>

  datatype Message = Message(methodName: string, data: Data)

  /** Destructuring `const { key } = data`: a missing key reads as `undefined`. */
  function Field(d: Data, key: string): Value
  {
    if key in d then d[key] else Undefined
  }
}
