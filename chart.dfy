/**
 * The two parallel arrays behind the consumption chart: the x-axis labels
 * ("0s", "1s", ...) and the sampled totals. Each sample is pushed at the end
 * and, once an array holds more than `Capacity` entries, its oldest entry is
 * shifted out.
 */
module Chart {

  /** The bound checked by `labels.length > 10`. */
  const Capacity: nat := 10

  /** One push followed by the conditional shift, on either of the two arrays. */
  function Roll<T>(buf: seq<T>, x: T): seq<T>
  {
    var pushed := buf + [x];
    if |pushed| > Capacity then pushed[1..] else pushed
  }

  /**
   * A roll keeps the newest entries of `buf + [x]`: it ends with `x`, grows by
   * one until `Capacity` is reached and afterwards drops the oldest entry, so
   * a buffer within `Capacity` stays within it.
   */
  lemma RollShape<T>(buf: seq<T>, x: T)
    ensures var r := Roll(buf, x);
      && |r| == (if |buf| + 1 > Capacity then |buf| else |buf| + 1)
      && r == (buf + [x])[|buf| + 1 - |r|..]
      && r[|r| - 1] == x
      && (|buf| <= Capacity ==> |r| <= Capacity)
      && (|buf| >= Capacity ==> r == buf[1..] + [x])
  {
  }

  /**
   * One sample taken on both arrays, labelled by the number of labels held:
   * the arrays stay parallel and within `Capacity`, the newest point is the
   * sample, and a full chart drops its oldest point for a "10s" label.
   */
  lemma SampleShape(labels: seq<string>, data: seq<int>, total: int)
    requires |labels| == |data| && 0 < |labels| <= Capacity
    ensures var l := Roll(labels, Label(|labels|)); var d := Roll(data, total);
      && |l| == |d| && 0 < |l| <= Capacity && d[|d| - 1] == total
      && (|labels| == Capacity ==> l == labels[1..] + ["10s"])
  {
    RollShape(labels, Label(|labels|));
    RollShape(data, total);
    SaturatedLabel();
  }

  function DigitChar(d: nat): (c: char)
    requires d < 10
    ensures '0' <= c <= '9'
  {
    "0123456789"[d]
  }

  function DigitValue(c: char): nat
  {
    if '0' <= c <= '9' then (c - '0') as nat else 0
  }

  /** The decimal numeral of `n`, as a template literal prints a non-negative integer. */
  function Decimal(n: nat): (s: string)
    ensures |s| > 0
    decreases n
  {
    if n < 10 then [DigitChar(n)] else Decimal(n / 10) + [DigitChar(n % 10)]
  }

  /** `s` is made of decimal digits only. */
  predicate AllDigits(s: string)
  {
    forall k :: 0 <= k < |s| ==> '0' <= s[k] <= '9'
  }

  /** A numeral is made of decimal digits only. */
  lemma {:induction false} DecimalDigits(n: nat)
    ensures AllDigits(Decimal(n))
    decreases n
  {
    if n >= 10 {
      DecimalDigits(n / 10);
    }
  }

  /** The value of a string of decimal digits, most significant first. */
  function ValueOf(s: string): nat
  {
    if s == [] then 0 else ValueOf(s[..|s| - 1]) * 10 + DigitValue(s[|s| - 1])
  }

  /** Reading back the numeral gives the number: the numeral identifies it. */
  lemma {:induction false} ValueOfDecimal(n: nat)
    ensures ValueOf(Decimal(n)) == n
    decreases n
  {
    if n >= 10 {
      ValueOfDecimal(n / 10);
      var s := Decimal(n / 10) + [DigitChar(n % 10)];
      assert s[..|s| - 1] == Decimal(n / 10);
    }
  }

  /** A numeral starts with '0' only when it is the numeral of 0. */
  lemma {:induction false} DecimalNoLeadingZero(n: nat)
    ensures Decimal(n)[0] == '0' <==> n == 0
    decreases n
  {
    if n >= 10 {
      DecimalNoLeadingZero(n / 10);
      assert Decimal(n)[0] == Decimal(n / 10)[0];
    }
  }

  /**
   * The label `${count}s` given to a sample taken when `count` labels exist:
   * the canonical decimal numeral of `count` (digits only, no leading zero)
   * followed by 's'. `LabelReadsBack` reads the count back from it.
   */
  function Label(count: nat): (s: string)
    ensures |s| >= 2 && s[|s| - 1] == 's'
    ensures s[..|s| - 1] == Decimal(count)
    ensures AllDigits(s[..|s| - 1])
    ensures s[0] == '0' ==> count == 0
  {
    DecimalDigits(count);
    DecimalNoLeadingZero(count);
    Decimal(count) + "s"
  }

  /** The numeral before the 's' of a label reads back as the label count. */
  lemma LabelReadsBack(count: nat)
    ensures var s := Label(count); ValueOf(s[..|s| - 1]) == count
  {
    ValueOfDecimal(count);
  }

  /** Two counts give two different labels. */
  lemma LabelInjective(m: nat, n: nat)
    requires Label(m) == Label(n)
    ensures m == n
  {
    LabelReadsBack(m);
    LabelReadsBack(n);
  }

  /** The labels of the initial point and of the point added at page load. */
  lemma FirstLabels()
    ensures Label(0) == "0s" && Label(1) == "1s"
  {
  }

  /** Once the arrays are full, every new label is "10s". */
  lemma SaturatedLabel()
    ensures Label(Capacity) == "10s"
  {
  }
}
