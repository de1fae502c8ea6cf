/** The engine configuration built in `OCRThread.run` before recognition:
    the engine-mode index is looked up in the table [1, 1, 3] and the
    page-segmentation index is shifted by one; both are formatted into the
    Tesseract option string "--oem N --psm M". */
module EngineConfig {
  import opened Results
  import opened Text

  /** Tesseract OCR engine mode for each engine-mode index. */
  const OemValues: seq<int> := [1, 1, 3]

  /** Python's `xs[i]` on a list: a negative index counts from the end; any
      other index out of range raises IndexError. */
  function PyIndex<T>(xs: seq<T>, i: int): Result<T> {
    if 0 <= i < |xs| then Ok(xs[i])
    else if -|xs| <= i < 0 then Ok(xs[|xs| + i])
    else Err("list index out of range")
  }

  /** The table lookup: it succeeds exactly inside Python's index range,
      and then yields one of the table's modes. */
  function Oem(engineIndex: int): (r: Result<int>)
    ensures r.Ok? <==> -|OemValues| <= engineIndex < |OemValues|
    ensures r.Ok? ==> r.value == 1 || r.value == 3
  {
    PyIndex(OemValues, engineIndex)
  }

  function Psm(segmentationIndex: int): int {
    segmentationIndex + 1
  }

  predicate IsDigit(c: char) {
    '0' <= c <= '9'
  }

  predicate AllDigits(s: string) {
    forall i :: 0 <= i < |s| ==> IsDigit(s[i])
  }

  function DigitChar(d: nat): char
    requires d < 10
  {
    ('0' as int + d) as char
  }

  /** The decimal numeral of `n`, without leading zeros. */
  function Digits(n: nat): (s: string)
    ensures s != [] && AllDigits(s)
    ensures |s| == 1 <==> n < 10
    ensures |s| > 1 ==> s[0] != '0'
    ensures s[0] == '0' ==> n == 0
  {
    if n < 10 then [DigitChar(n)] else Digits(n / 10) + [DigitChar(n % 10)]
  }

  function DigitsValue(s: string): nat
    requires AllDigits(s)
  {
    if s == [] then 0
    else DigitsValue(s[..|s| - 1]) * 10 + (s[|s| - 1] as int - '0' as int)
  }

  /** Python's `str(n)` for an int, as an f-string renders it: never
      empty, signed exactly when `n` is negative (see `DecimalIsWord` for
      its being one token). */
  function DecimalString(n: int): (s: string)
    ensures s != []
    ensures s[0] == '-' <==> n < 0
  {
    if n < 0 then "-" + Digits(-n) else Digits(n)
  }

  /** Reading an optionally signed decimal numeral back. */
  function DecimalValue(s: string): Option<int> {
    if |s| > 1 && s[0] == '-' && AllDigits(s[1..]) then Some(-(DigitsValue(s[1..]) as int))
    else if s != [] && AllDigits(s) then Some(DigitsValue(s))
    else None
  }

  /** `f'--oem {oem_values[engine]} --psm {segmentation + 1}'`; the lookup
      raises for an index outside the table. */
  function ConfigString(engineIndex: int, segmentationIndex: int): (r: Result<string>)
    ensures r.Ok? <==> Oem(engineIndex).Ok?
    ensures r.Err? ==> r.message == "list index out of range"
  {
    match Oem(engineIndex)
    case Err(msg) => Err(msg)
    case Ok(oem) => Ok("--oem " + DecimalString(oem) + " --psm " + DecimalString(Psm(segmentationIndex)))
  }

  /** How the engine reads the option string: the whitespace-separated
      tokens "--oem", N, "--psm", M. */
  function ParseConfig(s: string): Option<(int, int)> {
    var ws := Words(s);
    if |ws| == 4 && ws[0] == "--oem" && ws[2] == "--psm" then
      match (DecimalValue(ws[1]), DecimalValue(ws[3]))
      case (Some(oem), Some(psm)) => Some((oem, psm))
      case _ => None
    else None
  }

  lemma {:induction false} DigitsRoundTrip(n: nat)
    ensures DigitsValue(Digits(n)) == n
  {
    if n >= 10 {
      DigitsRoundTrip(n / 10);
      var s := Digits(n);
      assert s[..|s| - 1] == Digits(n / 10);
    }
  }

  /** A formatted int is one whitespace-free token. */
  lemma DecimalIsWord(n: int)
    ensures IsWord(DecimalString(n))
  {
    var s := DecimalString(n);
    if n < 0 {
      assert s[1..] == Digits(-n);
    }
    forall i | 0 <= i < |s| ensures !IsSpace(s[i]) {
      assert s[i] == '-' || IsDigit(s[i]);
    }
  }

  /** Formatting an int and reading it back gives the int. */
  lemma DecimalRoundTrip(n: int)
    ensures DecimalValue(DecimalString(n)) == Some(n)
  {
    var s := DecimalString(n);
    if n < 0 {
      assert s[1..] == Digits(-n);
      DigitsRoundTrip(-n);
    } else {
      DigitsRoundTrip(n);
      assert IsDigit(s[0]);
    }
  }

  /** The lookup fails exactly outside Python's index range -3..2; indexes
      0 and 1 both give engine mode 1 and index 2 gives mode 3. */
  lemma OemTable(engineIndex: int)
    ensures Oem(engineIndex).Err? <==> engineIndex < -3 || engineIndex >= 3
    ensures Oem(0) == Ok(1) && Oem(1) == Ok(1) && Oem(2) == Ok(3)
    ensures Oem(-1) == Ok(3)
  {
  }

  /** The option string's layout: four single-space separated tokens. */
  lemma ConfigTokens(oem: string, psm: string)
    requires IsWord(oem) && IsWord(psm)
    ensures Words("--oem " + oem + " --psm " + psm) == ["--oem", oem, "--psm", psm]
  {
    var ws := ["--oem", oem, "--psm", psm];
    assert IsWord("--oem") && IsWord("--psm");
    assert ws[1..] == [oem, "--psm", psm];
    assert ws[1..][1..] == ["--psm", psm];
    assert ws[1..][1..][1..] == [psm];
    assert Join(ws[1..][1..], ' ') == "--psm" + [' '] + psm;
    assert Join(ws[1..], ' ') == oem + [' '] + ("--psm" + [' '] + psm);
    assert Join(ws, ' ') == "--oem " + oem + " --psm " + psm;
    WordsJoin(ws);
  }

  /** The option string splits into the four tokens the engine expects,
      and reading it back gives the table's engine mode and the index plus
      one as page-segmentation mode. */
  lemma ConfigRoundTrip(engineIndex: int, segmentationIndex: int)
    ensures ConfigString(engineIndex, segmentationIndex).Ok? <==> Oem(engineIndex).Ok?
    ensures ConfigString(engineIndex, segmentationIndex).Ok? ==>
      var cfg := ConfigString(engineIndex, segmentationIndex).value;
      && Words(cfg) == ["--oem", DecimalString(Oem(engineIndex).value), "--psm", DecimalString(segmentationIndex + 1)]
      && ParseConfig(cfg) == Some((Oem(engineIndex).value, segmentationIndex + 1))
  {
    if Oem(engineIndex).Ok? {
      var oem := Oem(engineIndex).value;
      var psm := segmentationIndex + 1;
      DecimalIsWord(oem);
      DecimalIsWord(psm);
      ConfigTokens(DecimalString(oem), DecimalString(psm));
      DecimalRoundTrip(oem);
      DecimalRoundTrip(psm);
    }
  }

  lemma ConfigExample()
    ensures ConfigString(2, 3) == Ok("--oem 3 --psm 4")
    ensures ConfigString(0, 0) == Ok("--oem 1 --psm 1")
    ensures ConfigString(3, 0).Err?
  {
    assert Oem(2) == Ok(3) && Oem(0) == Ok(1) && Psm(3) == 4 && Psm(0) == 1;
    assert DecimalString(1) == "1" && DecimalString(3) == "3" && DecimalString(4) == "4" by {
      assert DigitChar(1) == '1' && DigitChar(3) == '3' && DigitChar(4) == '4';
    }
    assert ConfigString(2, 3) == Ok("--oem " + "3" + " --psm " + "4");
    assert "--oem " + "3" + " --psm " + "4" == "--oem 3 --psm 4";
    assert ConfigString(0, 0) == Ok("--oem " + "1" + " --psm " + "1");
    assert "--oem " + "1" + " --psm " + "1" == "--oem 1 --psm 1";
  }
}
