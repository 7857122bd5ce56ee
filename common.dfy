/** Values shared by the whole model: optional and fallible results, the
    cells handed to the spreadsheet API, the records persisted on disk, the
    calls made to the external collaborators, and decimal text. */
module Common {

  datatype Option<+T> = None | Some(value: T)

  /** A computation that either produces a value or throws `message`. */
  datatype Result<+T> = Ok(value: T) | Err(message: string)

  /** A spreadsheet cell value as the program passes it to the Sheets API:
      a JavaScript number, a string (plain text or a formula), `undefined`
      (a hole of a sparse array, or a missing field) or `NaN`. */
  datatype Cell = Number(n: real) | Text(s: string) | Undefined | NaN

  datatype Level = Info | Warn | Error

  /** The Drive folders, persisted in config/drive.json by setupDrive. */
  datatype Setup = Setup(root: string, derived: string, measurements: string,
                         solcast: string, token: string)

  /** The module-level TODAY record of main.js, persisted in config/today.json.
      An empty string stands for a field that is not set (both are falsy). */
  datatype Today = Today(derivedFile: string, measurementsFile: string,
                         solcastFile: string, date: string, token: string)

  const NoToday := Today("", "", "", "", "")

  /** One call into a collaborator: Google Drive and Sheets, the local disk,
      the forecast service or the logging sink. */
  datatype Call =
    | CreateFolder(title: string)
    | CreateSheet(title: string)
    | MoveFile(file: string, folder: string)
    | AppendToSheet(sheet: string, rows: seq<seq<Cell>>)
    | WriteToSheet(sheet: string, rows: seq<seq<Cell>>, range: string)
    | AutoResize(sheet: string)
    | ReadSetup
    | SaveSetup(setup: Setup)
    | ReadToday
    | SaveToday(today: Today)
    | FetchForecasts
    | Log(level: Level)

  // ---------------------------------------------------------------------
  // Decimal text

  predicate IsDigit(c: char) { '0' <= c <= '9' }

  predicate AllDigits(s: string) { forall i :: 0 <= i < |s| ==> IsDigit(s[i]) }

  function DigitChar(d: nat): (c: char)
    requires d < 10
    ensures IsDigit(c) && c as int - '0' as int == d
  {
    (d + '0' as int) as char
  }

  /** The shortest decimal numeral of `n`, as JavaScript's `String(n)`. */
  function NatToString(n: nat): (s: string)
    ensures |s| >= 1 && AllDigits(s)
    decreases n
  {
    if n < 10 then [DigitChar(n)] else NatToString(n / 10) + [DigitChar(n % 10)]
  }

  /** The number a string of decimal digits denotes; the empty string gives 0. */
  function DigitsValue(s: string): nat
    requires AllDigits(s)
    decreases |s|
  {
    if s == [] then 0 else 10 * DigitsValue(s[..|s| - 1]) + (s[|s| - 1] as int - '0' as int)
  }

  lemma {:induction false} DigitsValueOfNatToString(n: nat)
    ensures DigitsValue(NatToString(n)) == n
    decreases n
  {
    if n >= 10 {
      DigitsValueOfNatToString(n / 10);
      var s := NatToString(n);
      assert s[..|s| - 1] == NatToString(n / 10);
    }
  }

  function Pow10(w: nat): (p: nat)
    ensures p >= 1
  {
    if w == 0 then 1 else 10 * Pow10(w - 1)
  }

  /** A number below 10^w has at most w digits. */
  lemma {:induction false} NatToStringLength(n: nat, w: nat)
    requires 1 <= w && n < Pow10(w)
    ensures |NatToString(n)| <= w
    decreases n
  {
    if n >= 10 {
      assert w != 1;
      assert n / 10 < Pow10(w - 1);
      NatToStringLength(n / 10, w - 1);
    }
  }

  function Zeros(k: nat): (s: string)
    ensures |s| == k && AllDigits(s)
  {
    seq(k, _ => '0')
  }

  lemma {:induction false} DigitsValueLeadingZeros(k: nat, s: string)
    requires AllDigits(s)
    ensures DigitsValue(Zeros(k) + s) == DigitsValue(s)
    decreases |s| + k
  {
    var z := Zeros(k) + s;
    if s == [] {
      assert z == Zeros(k);
      if k > 0 {
        assert z[..|z| - 1] == Zeros(k - 1) + [];
        DigitsValueLeadingZeros(k - 1, []);
      }
    } else {
      assert z[..|z| - 1] == Zeros(k) + s[..|s| - 1];
      DigitsValueLeadingZeros(k, s[..|s| - 1]);
    }
  }

  /** `n` written with at least `width` digits, padded with leading zeros
      (moment's zero-fill of a non-negative number). */
  function ZeroFill(n: nat, width: nat): (s: string)
    ensures AllDigits(s) && DigitsValue(s) == n
    ensures |s| == if |NatToString(n)| < width then width else |NatToString(n)|
  {
    var digits := NatToString(n);
    var pad := if |digits| < width then width - |digits| else 0;
    DigitsValueOfNatToString(n);
    DigitsValueLeadingZeros(pad, digits);
    Zeros(pad) + digits
  }

  /** JavaScript's `String(i)` for an integer. */
  function IntToString(i: int): (s: string)
    ensures i >= 0 ==> AllDigits(s) && DigitsValue(s) == i
    ensures i < 0 ==> |s| >= 2 && s[0] == '-' && AllDigits(s[1..]) && DigitsValue(s[1..]) == -i
  {
    DigitsValueOfNatToString(if i < 0 then -i else i);
    if i < 0 then "-" + NatToString(-i) else NatToString(i)
  }

  /** JavaScript's unary `+s` on the strings this model admits: a string of
      decimal digits (the empty string gives 0); anything else is NaN. */
  function ParseDecimal(s: string): (r: Option<nat>)
    ensures r.Some? <==> AllDigits(s)
    ensures r.Some? ==> r.value == DigitsValue(s)
  {
    if AllDigits(s) then Some(DigitsValue(s)) else None
  }

  lemma ParseDecimalOfNatToString(n: nat)
    ensures ParseDecimal(NatToString(n)) == Some(n)
  {
    DigitsValueOfNatToString(n);
  }

  function Max(a: int, b: int): int { if a >= b then a else b }

  function Min(a: int, b: int): int { if a <= b then a else b }
}
