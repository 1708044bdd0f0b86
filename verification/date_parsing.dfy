/** The part of PHP's DateTime::createFromFormat that the status-check
    response uses: reading a string against a fixed format, piece by piece,
    into the numbers it holds. The check is structural (which characters go
    where); calendar validation and overflow normalisation are not modelled. */
module DateParsing {
  import opened Wrappers

  /** One unit of a format: a run of exactly `width` decimal digits, one
      literal character, or the sign of a UTC offset. */
  datatype Piece = Digits(width: nat) | Literal(c: char) | Sign

  /** A UTC offset as written, `+hh:mm` or `-hh:mm`. */
  datatype Offset = Offset(negative: bool, hours: nat, minutes: nat)

  /** The fields of a `Y-m-d\TH:i:s\.uP` time stamp, as written. */
  datatype DateTime = DateTime(year: nat, month: nat, day: nat,
                               hour: nat, minute: nat, second: nat,
                               microsecond: nat, offset: Offset)

  /** The fields of a `Y-m-d` date, as written. */
  datatype Date = Date(year: nat, month: nat, day: nat)

  /** The format 'Y-m-d\TH:i:s\.uP', one piece per format character:
      Y is four digits; m, d, H, i and s two each; \T and \. are escaped
      literals; u is six digits; P is a sign, two hour digits, ':' and two
      minute digits. */
  const TimestampLayout: seq<Piece> := [
    Digits(4), Literal('-'), Digits(2), Literal('-'), Digits(2), Literal('T'),
    Digits(2), Literal(':'), Digits(2), Literal(':'), Digits(2), Literal('.'),
    Digits(6), Sign, Digits(2), Literal(':'), Digits(2)]

  /** The format 'Y-m-d'. */
  const DateLayout: seq<Piece> := [Digits(4), Literal('-'), Digits(2), Literal('-'), Digits(2)]

  predicate IsDigit(c: char) { '0' <= c <= '9' }

  predicate AllDigits(s: string) { forall i :: 0 <= i < |s| ==> IsDigit(s[i]) }

  function Pow10(n: nat): (r: nat)
    ensures r > 0
  {
    if n == 0 then 1 else 10 * Pow10(n - 1)
  }

  /** The number a run of decimal digits denotes; it is below 10^|s|. */
  function DigitsValue(s: string): (n: nat)
    requires AllDigits(s)
    ensures n < Pow10(|s|)
  {
    if s == [] then 0
    else 10 * DigitsValue(s[..|s| - 1]) + (s[|s| - 1] as int - '0' as int)
  }

  /** n written with exactly w digits, padded with leading zeros. */
  function PadDigits(n: nat, w: nat): (s: string)
    ensures |s| == w && AllDigits(s)
  {
    if w == 0 then "" else PadDigits(n / 10, w - 1) + [('0' as int + n % 10) as char]
  }

  /** Reading back a padded number gives the number, when it fits. */
  lemma {:induction false} PadDigitsValue(n: nat, w: nat)
    requires n < Pow10(w)
    ensures DigitsValue(PadDigits(n, w)) == n
  {
    if w > 0 {
      var s := PadDigits(n, w);
      PadDigitsValue(n / 10, w - 1);
      assert s[..w - 1] == PadDigits(n / 10, w - 1);
    }
  }

  lemma DivModTen(a: nat, d: int)
    requires 0 <= d < 10
    ensures (10 * a + d) / 10 == a && (10 * a + d) % 10 == d
  {
  }

  /** Writing back the value of a run of digits gives the same run. */
  lemma {:induction false} PadDigitsOfValue(s: string)
    requires AllDigits(s)
    ensures PadDigits(DigitsValue(s), |s|) == s
  {
    if s != [] {
      var init, last := s[..|s| - 1], s[|s| - 1];
      var d := last as int - '0' as int;
      var n := DigitsValue(s);
      assert n == 10 * DigitsValue(init) + d;
      DivModTen(DigitsValue(init), d);
      PadDigitsOfValue(init);
      assert ('0' as int + n % 10) as char == last;
      calc {
        PadDigits(n, |s|);
        PadDigits(n / 10, |s| - 1) + [('0' as int + n % 10) as char];
        init + [last];
        s;
      }
    }
  }

  /** How many numbers the pieces from index k on yield. */
  function Slots(layout: seq<Piece>, k: nat): nat
    requires k <= |layout|
    decreases |layout| - k
  {
    if k == |layout| then 0
    else (if layout[k].Literal? then 0 else 1) + Slots(layout, k + 1)
  }

  function Prepend(v: nat, rest: Option<seq<nat>>): Option<seq<nat>> {
    match rest
    case None => None
    case Some(vs) => Some([v] + vs)
  }

  /** Reads s against the pieces from index k on, start to end: one number per
      digit run (its value) and per sign (0 for '+', 1 for '-'). None when a
      piece does not match or characters are left over. */
  function Scan(layout: seq<Piece>, k: nat, s: string): (r: Option<seq<nat>>)
    requires k <= |layout|
    ensures r.Some? ==> |r.value| == Slots(layout, k)
    decreases |layout| - k
  {
    if k == |layout| then (if s == [] then Some([]) else None)
    else match layout[k]
      case Digits(w) =>
        if |s| >= w && AllDigits(s[..w])
        then Prepend(DigitsValue(s[..w]), Scan(layout, k + 1, s[w..]))
        else None
      case Literal(c) =>
        if |s| >= 1 && s[0] == c then Scan(layout, k + 1, s[1..]) else None
      case Sign =>
        if |s| >= 1 && s[0] == '+' then Prepend(0, Scan(layout, k + 1, s[1..]))
        else if |s| >= 1 && s[0] == '-' then Prepend(1, Scan(layout, k + 1, s[1..]))
        else None
  }

  /** The numbers the pieces from index k on can write, starting at index j
      of values: one per non-literal piece, each within the width of its
      piece, and none left over. */
  predicate Fits(layout: seq<Piece>, k: nat, values: seq<nat>, j: nat)
    requires k <= |layout| && j <= |values|
    decreases |layout| - k
  {
    if k == |layout| then j == |values|
    else match layout[k]
      case Literal(_) => Fits(layout, k + 1, values, j)
      case Digits(w) => j < |values| && values[j] < Pow10(w) && Fits(layout, k + 1, values, j + 1)
      case Sign => j < |values| && values[j] <= 1 && Fits(layout, k + 1, values, j + 1)
  }

  /** Writes the numbers from index j of values into the pieces from index k on. */
  function Render(layout: seq<Piece>, k: nat, values: seq<nat>, j: nat): string
    requires k <= |layout| && j <= |values| && Fits(layout, k, values, j)
    decreases |layout| - k
  {
    if k == |layout| then ""
    else match layout[k]
      case Literal(c) => [c] + Render(layout, k + 1, values, j)
      case Digits(w) => PadDigits(values[j], w) + Render(layout, k + 1, values, j + 1)
      case Sign => (if values[j] == 0 then "+" else "-") + Render(layout, k + 1, values, j + 1)
  }

  /** Scanning what Render wrote gives back the numbers. */
  lemma {:induction false} ScanRender(layout: seq<Piece>, k: nat, values: seq<nat>, j: nat)
    requires k <= |layout| && j <= |values| && Fits(layout, k, values, j)
    ensures Scan(layout, k, Render(layout, k, values, j)) == Some(values[j..])
    decreases |layout| - k
  {
    if k < |layout| {
      var s := Render(layout, k, values, j);
      match layout[k]
      case Literal(c) =>
        ScanRender(layout, k + 1, values, j);
        assert s[1..] == Render(layout, k + 1, values, j);
      case Digits(w) =>
        ScanRender(layout, k + 1, values, j + 1);
        assert s[..w] == PadDigits(values[j], w);
        assert s[w..] == Render(layout, k + 1, values, j + 1);
        PadDigitsValue(values[j], w);
        assert values[j..] == [values[j]] + values[j + 1..];
      case Sign =>
        ScanRender(layout, k + 1, values, j + 1);
        assert s[1..] == Render(layout, k + 1, values, j + 1);
        assert values[j..] == [values[j]] + values[j + 1..];
    } else {
      assert values[j..] == [];
    }
  }

  /** On a number piece Scan reads the piece's text and goes on after it,
      and the numbers read after it are all but the first. */
  lemma ScanNumber(layout: seq<Piece>, k: nat, s: string)
    requires k < |layout| && !layout[k].Literal? && Scan(layout, k, s).Some?
    ensures var w := if layout[k].Digits? then layout[k].width else 1;
      && w <= |s|
      && Scan(layout, k + 1, s[w..]).Some?
      && |Scan(layout, k, s).value| >= 1
      && Scan(layout, k + 1, s[w..]).value == Scan(layout, k, s).value[1..]
  {
  }

  /** Whatever Scan accepts, Render writes back character for character
      (stated for numbers found from index j of values on). */
  lemma {:induction false} RenderScan(layout: seq<Piece>, k: nat, s: string, values: seq<nat>, j: nat)
    requires k <= |layout| && j <= |values| && Scan(layout, k, s) == Some(values[j..])
    ensures Fits(layout, k, values, j) && Render(layout, k, values, j) == s
    decreases |layout| - k
  {
    if k == |layout| {
    } else if layout[k].Literal? {
      RenderScan(layout, k + 1, s[1..], values, j);
      assert s == [layout[k].c] + s[1..];
    } else {
      var w := if layout[k].Digits? then layout[k].width else 1;
      ScanNumber(layout, k, s);
      assert values[j..][1..] == values[j + 1..];
      RenderScan(layout, k + 1, s[w..], values, j + 1);
      if layout[k].Digits? {
        PadDigitsOfValue(s[..w]);
      }
      assert s == s[..w] + s[w..];
    }
  }

  /** The numbers of a time stamp, in the order of its format. */
  function TimestampFields(t: DateTime): seq<nat> {
    [t.year, t.month, t.day, t.hour, t.minute, t.second, t.microsecond,
     if t.offset.negative then 1 else 0, t.offset.hours, t.offset.minutes]
  }

  /** Every field of the time stamp fits the width the format gives it. */
  predicate TimestampInRange(t: DateTime) {
    && t.year < 10000 && t.month < 100 && t.day < 100
    && t.hour < 100 && t.minute < 100 && t.second < 100
    && t.microsecond < 1000000 && t.offset.hours < 100 && t.offset.minutes < 100
  }

  lemma TimestampLayoutSlots()
    ensures Slots(TimestampLayout, 0) == 10
  {
    assert Slots(TimestampLayout, 17) == 0;
    assert Slots(TimestampLayout, 16) == 1;
    assert Slots(TimestampLayout, 15) == 1;
    assert Slots(TimestampLayout, 14) == 2;
    assert Slots(TimestampLayout, 13) == 3;
    assert Slots(TimestampLayout, 12) == 4;
    assert Slots(TimestampLayout, 11) == 4;
    assert Slots(TimestampLayout, 10) == 5;
    assert Slots(TimestampLayout, 9) == 5;
    assert Slots(TimestampLayout, 8) == 6;
    assert Slots(TimestampLayout, 7) == 6;
    assert Slots(TimestampLayout, 6) == 7;
    assert Slots(TimestampLayout, 5) == 7;
    assert Slots(TimestampLayout, 4) == 8;
    assert Slots(TimestampLayout, 3) == 8;
    assert Slots(TimestampLayout, 2) == 9;
    assert Slots(TimestampLayout, 1) == 9;
    assert Slots(TimestampLayout, 0) == 10;
  }

  lemma TimestampLayoutFits(v: seq<nat>)
    requires |v| == 10
    ensures Fits(TimestampLayout, 0, v, 0) <==>
      v[0] < 10000 && v[1] < 100 && v[2] < 100 && v[3] < 100 && v[4] < 100 && v[5] < 100
      && v[6] < 1000000 && v[7] <= 1 && v[8] < 100 && v[9] < 100
  {
    assert Fits(TimestampLayout, 17, v, 10) <==> (true);
    assert Fits(TimestampLayout, 16, v, 9) <==> (v[9] < 100);
    assert Fits(TimestampLayout, 15, v, 9) <==> (v[9] < 100);
    assert Fits(TimestampLayout, 14, v, 8) <==> (v[8] < 100 && v[9] < 100);
    assert Fits(TimestampLayout, 13, v, 7) <==> (v[7] <= 1 && v[8] < 100 && v[9] < 100);
    assert Fits(TimestampLayout, 12, v, 6) <==> (v[6] < 1000000 && v[7] <= 1 && v[8] < 100 && v[9] < 100);
    assert Fits(TimestampLayout, 11, v, 6) <==> (v[6] < 1000000 && v[7] <= 1 && v[8] < 100 && v[9] < 100);
    assert Fits(TimestampLayout, 10, v, 5) <==> (v[5] < 100 && v[6] < 1000000 && v[7] <= 1 && v[8] < 100 && v[9] < 100);
    assert Fits(TimestampLayout, 9, v, 5) <==> (v[5] < 100 && v[6] < 1000000 && v[7] <= 1 && v[8] < 100 && v[9] < 100);
    assert Fits(TimestampLayout, 8, v, 4) <==> (v[4] < 100 && v[5] < 100 && v[6] < 1000000 && v[7] <= 1 && v[8] < 100 && v[9] < 100);
    assert Fits(TimestampLayout, 7, v, 4) <==> (v[4] < 100 && v[5] < 100 && v[6] < 1000000 && v[7] <= 1 && v[8] < 100 && v[9] < 100);
    assert Fits(TimestampLayout, 6, v, 3) <==> (v[3] < 100 && v[4] < 100 && v[5] < 100 && v[6] < 1000000 && v[7] <= 1 && v[8] < 100 && v[9] < 100);
    assert Fits(TimestampLayout, 5, v, 3) <==> (v[3] < 100 && v[4] < 100 && v[5] < 100 && v[6] < 1000000 && v[7] <= 1 && v[8] < 100 && v[9] < 100);
    assert Fits(TimestampLayout, 4, v, 2) <==> (v[2] < 100 && v[3] < 100 && v[4] < 100 && v[5] < 100 && v[6] < 1000000 && v[7] <= 1 && v[8] < 100 && v[9] < 100);
    assert Fits(TimestampLayout, 3, v, 2) <==> (v[2] < 100 && v[3] < 100 && v[4] < 100 && v[5] < 100 && v[6] < 1000000 && v[7] <= 1 && v[8] < 100 && v[9] < 100);
    assert Fits(TimestampLayout, 2, v, 1) <==> (v[1] < 100 && v[2] < 100 && v[3] < 100 && v[4] < 100 && v[5] < 100 && v[6] < 1000000 && v[7] <= 1 && v[8] < 100 && v[9] < 100);
    assert Fits(TimestampLayout, 1, v, 1) <==> (v[1] < 100 && v[2] < 100 && v[3] < 100 && v[4] < 100 && v[5] < 100 && v[6] < 1000000 && v[7] <= 1 && v[8] < 100 && v[9] < 100);
    assert Fits(TimestampLayout, 0, v, 0) <==> (v[0] < 10000 && v[1] < 100 && v[2] < 100 && v[3] < 100 && v[4] < 100 && v[5] < 100 && v[6] < 1000000 && v[7] <= 1 && v[8] < 100 && v[9] < 100);
  }

  /** The time stamp whose fields are v, in the order of the format. */
  function TimestampOf(v: seq<nat>): DateTime
    requires |v| == 10
  {
    DateTime(v[0], v[1], v[2], v[3], v[4], v[5], v[6], Offset(v[7] == 1, v[8], v[9]))
  }

  lemma TimestampFieldsOf(v: seq<nat>)
    requires |v| == 10 && v[7] <= 1
    ensures TimestampFields(TimestampOf(v)) == v
  {
  }

  /** createFromFormat('Y-m-d\TH:i:s\.uP', s), read in the fixed-width
      layout: the time stamp s spells out; None on every other string, which
      includes some strings createFromFormat accepts (shorter digit runs,
      other offset spellings). */
  function ParseTimestamp(s: string): Option<DateTime> {
    match Scan(TimestampLayout, 0, s)
    case None => None
    case Some(v) => TimestampLayoutSlots(); Some(TimestampOf(v))
  }

  /** The time stamp written in the 'Y-m-d\TH:i:s\.uP' format. */
  function FormatTimestamp(t: DateTime): string
    requires TimestampInRange(t)
  {
    TimestampLayoutFits(TimestampFields(t));
    Render(TimestampLayout, 0, TimestampFields(t), 0)
  }

  /** Every time stamp that fits the format is read back from its text. */
  lemma ParseFormatTimestamp(t: DateTime)
    requires TimestampInRange(t)
    ensures ParseTimestamp(FormatTimestamp(t)) == Some(t)
  {
    var v := TimestampFields(t);
    TimestampLayoutFits(v);
    ScanRender(TimestampLayout, 0, v, 0);
    assert v[0..] == v;
  }

  /** The parser accepts exactly the texts of time stamps: whatever it reads
      fits the format and is written back as the same string. */
  lemma ParseTimestampIsFormatted(s: string)
    requires ParseTimestamp(s).Some?
    ensures TimestampInRange(ParseTimestamp(s).value)
    ensures FormatTimestamp(ParseTimestamp(s).value) == s
  {
    var v := Scan(TimestampLayout, 0, s).value;
    TimestampLayoutSlots();
    RenderScan(TimestampLayout, 0, s, v, 0);
    TimestampLayoutFits(v);
    TimestampFieldsOf(v);
  }

  /** A string is accepted as a time stamp exactly when it is the text of
      one. */
  lemma TimestampAccepted(s: string)
    ensures ParseTimestamp(s).Some? <==>
      exists t :: TimestampInRange(t) && FormatTimestamp(t) == s
  {
    if ParseTimestamp(s).Some? {
      ParseTimestampIsFormatted(s);
    } else {
      forall t | TimestampInRange(t) ensures FormatTimestamp(t) != s {
        ParseFormatTimestamp(t);
      }
    }
  }

  /** The numbers of a date, in the order of its format. */
  function DateFields(d: Date): seq<nat> {
    [d.year, d.month, d.day]
  }

  predicate DateInRange(d: Date) {
    d.year < 10000 && d.month < 100 && d.day < 100
  }

  lemma DateLayoutSlots()
    ensures Slots(DateLayout, 0) == 3
  {
    assert Slots(DateLayout, 5) == 0;
    assert Slots(DateLayout, 4) == 1;
    assert Slots(DateLayout, 3) == 1;
    assert Slots(DateLayout, 2) == 2;
    assert Slots(DateLayout, 1) == 2;
    assert Slots(DateLayout, 0) == 3;
  }

  lemma DateLayoutFits(v: seq<nat>)
    requires |v| == 3
    ensures Fits(DateLayout, 0, v, 0) <==> v[0] < 10000 && v[1] < 100 && v[2] < 100
  {
    assert Fits(DateLayout, 5, v, 3) <==> (true);
    assert Fits(DateLayout, 4, v, 2) <==> (v[2] < 100);
    assert Fits(DateLayout, 3, v, 2) <==> (v[2] < 100);
    assert Fits(DateLayout, 2, v, 1) <==> (v[1] < 100 && v[2] < 100);
    assert Fits(DateLayout, 1, v, 1) <==> (v[1] < 100 && v[2] < 100);
    assert Fits(DateLayout, 0, v, 0) <==> (v[0] < 10000 && v[1] < 100 && v[2] < 100);
  }

  /** createFromFormat('Y-m-d', s), read in the fixed-width layout and
      reduced to the date s spells out (PHP also sets the time of day, from
      the clock); None on every other string, which includes some strings
      createFromFormat accepts (such as `2020-5-1`). */
  function ParseDate(s: string): Option<Date> {
    match Scan(DateLayout, 0, s)
    case None => None
    case Some(v) =>
      DateLayoutSlots();
      Some(Date(v[0], v[1], v[2]))
  }

  /** The date written in the 'Y-m-d' format. */
  function FormatDate(d: Date): string
    requires DateInRange(d)
  {
    DateLayoutFits(DateFields(d));
    Render(DateLayout, 0, DateFields(d), 0)
  }

  /** Every date that fits the format is read back from its text. */
  lemma ParseFormatDate(d: Date)
    requires DateInRange(d)
    ensures ParseDate(FormatDate(d)) == Some(d)
  {
    var v := DateFields(d);
    DateLayoutFits(v);
    ScanRender(DateLayout, 0, v, 0);
    assert v[0..] == v;
  }

  /** The date parser accepts exactly the texts of dates. */
  lemma ParseDateIsFormatted(s: string)
    requires ParseDate(s).Some?
    ensures DateInRange(ParseDate(s).value)
    ensures FormatDate(ParseDate(s).value) == s
  {
    var v := Scan(DateLayout, 0, s).value;
    DateLayoutSlots();
    RenderScan(DateLayout, 0, s, v, 0);
    DateLayoutFits(v);
    assert DateFields(ParseDate(s).value) == v;
  }

  /** A string is accepted as a date exactly when it is the text of one. */
  lemma DateAccepted(s: string)
    ensures ParseDate(s).Some? <==> exists d :: DateInRange(d) && FormatDate(d) == s
  {
    if ParseDate(s).Some? {
      ParseDateIsFormatted(s);
    } else {
      forall d | DateInRange(d) ensures FormatDate(d) != s {
        ParseFormatDate(d);
      }
    }
  }
}
