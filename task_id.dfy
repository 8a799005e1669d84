/** The identifier a video tool is given at construction:
    `${new Date().getTime()}-${Math.floor(Math.random() * 1000)}`. The clock
    reading and the random draw are inputs here. */
module TaskId {
  import opened JsValues

  predicate IsDigit(c: char) {
    '0' <= c <= '9'
  }

  predicate AllDigits(s: string) {
    forall i :: 0 <= i < |s| ==> IsDigit(s[i])
  }

  function DigitChar(d: nat): (c: char)
    requires d < 10
    ensures IsDigit(c)
  {
    ['0', '1', '2', '3', '4', '5', '6', '7', '8', '9'][d]
  }

  function DigitValue(c: char): (d: nat)
    requires IsDigit(c)
    ensures d < 10
  {
    (c as int - '0' as int) as nat
  }

  lemma DigitRoundTrip(d: nat)
    requires d < 10
    ensures DigitValue(DigitChar(d)) == d
  {
  }

  /** Decimal rendering of a natural number, as `${n}` gives it. */
  function Decimal(n: nat): (s: string)
    ensures |s| >= 1 && AllDigits(s)
    decreases n
  {
    if n < 10 then [DigitChar(n)] else Decimal(n / 10) + [DigitChar(n % 10)]
  }

  /** Reads a non-empty string of digits back as a number. */
  function ParseDecimal(s: string): (n: nat)
    requires |s| >= 1 && AllDigits(s)
    decreases |s|
  {
    if |s| == 1 then DigitValue(s[0])
    else 10 * ParseDecimal(s[..|s| - 1]) + DigitValue(s[|s| - 1])
  }

  lemma {:induction false} DecimalRoundTrip(n: nat)
    ensures ParseDecimal(Decimal(n)) == n
    decreases n
  {
    if n < 10 {
      DigitRoundTrip(n);
    } else {
      var s := Decimal(n);
      assert s[..|s| - 1] == Decimal(n / 10);
      assert s[|s| - 1] == DigitChar(n % 10);
      DecimalRoundTrip(n / 10);
      DigitRoundTrip(n % 10);
    }
  }

  /** A draw below 1000 renders in one to three digits. */
  lemma {:induction false} DecimalOfDrawIsShort(n: nat)
    requires n < 1000
    ensures 1 <= |Decimal(n)| <= 3
  {
    if n >= 10 {
      assert Decimal(n) == Decimal(n / 10) + [DigitChar(n % 10)];
      if n / 10 >= 10 {
        assert Decimal(n / 10) == Decimal(n / 100) + [DigitChar((n / 10) % 10)];
        assert n / 100 < 10;
      }
    }
  }

  /** The id string built from a millisecond clock reading and a draw from
      `Math.floor(Math.random() * 1000)`. */
  function IdOf(time: nat, draw: nat): (id: string)
    ensures |id| == |Decimal(time)| + 1 + |Decimal(draw)| && id[|Decimal(time)|] == '-'
    ensures id[..|Decimal(time)|] == Decimal(time)
    ensures id[|Decimal(time)| + 1..] == Decimal(draw)
  {
    Decimal(time) + "-" + Decimal(draw)
  }

  /** Position of the first '-' in s, if any. */
  function DashIndex(s: string): (r: Option<nat>)
    ensures r.Some? ==> r.value < |s| && s[r.value] == '-'
    ensures r.Some? ==> forall i :: 0 <= i < r.value ==> s[i] != '-'
    ensures r.None? ==> forall i :: 0 <= i < |s| ==> s[i] != '-'
    decreases |s|
  {
    if |s| == 0 then None
    else if s[0] == '-' then Some(0)
    else match DashIndex(s[1..])
      case None => None
      case Some(k) => Some(k + 1)
  }

  /** Splits an id at its dash and reads both halves back as numbers. */
  function ParseId(id: string): (r: Option<(nat, nat)>)
  {
    match DashIndex(id)
    case None => None
    case Some(k) =>
      var head, tail := id[..k], id[k + 1..];
      if |head| >= 1 && AllDigits(head) && |tail| >= 1 && AllDigits(tail)
      then Some((ParseDecimal(head), ParseDecimal(tail)))
      else None
  }

  lemma {:induction false} IdRoundTrip(time: nat, draw: nat)
    ensures ParseId(IdOf(time, draw)) == Some((time, draw))
  {
    var id := IdOf(time, draw);
    var k := |Decimal(time)|;
    assert DashIndex(id) == Some(k) by {
      forall i | 0 <= i < k ensures id[i] != '-' {
        assert id[i] == Decimal(time)[i];
      }
    }
    assert id[..k] == Decimal(time);
    assert id[k + 1..] == Decimal(draw);
    DecimalRoundTrip(time);
    DecimalRoundTrip(draw);
  }

  /** Two ids agree exactly when their clock readings and draws agree: tools
      built in the same millisecond that draw the same number share an id, so
      the format does not guarantee uniqueness. */
  lemma IdsEqualIff(t1: nat, d1: nat, t2: nat, d2: nat)
    ensures IdOf(t1, d1) == IdOf(t2, d2) <==> t1 == t2 && d1 == d2
  {
    if IdOf(t1, d1) == IdOf(t2, d2) {
      IdRoundTrip(t1, d1);
      IdRoundTrip(t2, d2);
    }
  }
}
