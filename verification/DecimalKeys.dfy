/** Numbers as zero-padded decimal keys, and the order of such keys as strings. */
module DecimalKeys {
  const SEQ_DIGITS := 14

  function Pow10(k: nat): nat {
    if k == 0 then 1 else 10 * Pow10(k - 1)
  }

  function Digit(d: nat): char
    requires d < 10
  {
    '0' + d as char
  }

  function ValueOf(c: char): nat
    requires '0' <= c <= '9'
  {
    (c - '0') as nat
  }

  type Digits = s: string | forall i :: 0 <= i < |s| ==> '0' <= s[i] <= '9' witness ""

  /** The decimal form of a number. */
  function Decimal(n: nat): (s: Digits)
    ensures |s| > 0
  {
    if n < 10 then [Digit(n)] else Decimal(n / 10) + [Digit(n % 10)]
  }

  /** `padStart(SEQ_DIGITS, "0")`: shorter forms get zeros in front, longer ones stay as they are. */
  function PadStart(s: Digits): (r: Digits)
    ensures |r| == if |s| < SEQ_DIGITS then SEQ_DIGITS else |s|
  {
    if |s| < SEQ_DIGITS then Zeros(SEQ_DIGITS - |s|) + s else s
  }

  function Zeros(n: nat): (r: Digits)
    ensures |r| == n
  {
    seq(n, _ => '0')
  }

  function FrameKey(seq_: nat): string {
    "f:" + PadStart(Decimal(seq_))
  }

  /** The number a string of digits stands for. */
  function Parse(s: Digits): nat {
    if s == "" then 0 else 10 * Parse(s[..|s| - 1]) + ValueOf(s[|s| - 1])
  }

  predicate IsKey(key: string) {
    |key| >= 2 && key[..2] == "f:" && forall i :: 2 <= i < |key| ==> '0' <= key[i] <= '9'
  }

  /** `Number(key.slice(2))`. */
  function SeqOf(key: string): nat
    requires IsKey(key)
  {
    Parse(key[2..])
  }

  lemma {:induction false} ParseDecimal(n: nat)
    ensures Parse(Decimal(n)) == n
  {
    if n < 10 {
      assert Decimal(n)[..0] == "";
    } else {
      ParseDecimal(n / 10);
      assert Decimal(n)[..|Decimal(n)| - 1] == Decimal(n / 10);
    }
  }

  lemma {:induction false} ParseZeros(n: nat, s: Digits)
    ensures Parse(Zeros(n) + s) == Parse(s)
    decreases |s|, n
  {
    if s != "" {
      ParseZeros(n, s[..|s| - 1]);
      assert (Zeros(n) + s)[..|Zeros(n) + s| - 1] == Zeros(n) + s[..|s| - 1];
    } else if n > 0 {
      ParseZeros(n - 1, "");
      assert (Zeros(n) + s)[..n - 1] == Zeros(n - 1) + "";
    }
  }

  lemma ParsePadded(s: Digits)
    ensures Parse(PadStart(s)) == Parse(s)
  {
    if |s| < SEQ_DIGITS {
      ParseZeros(SEQ_DIGITS - |s|, s);
    }
  }

  /** A key gives its number back, however many digits it takes. */
  lemma FrameKeyRoundTrip(n: nat)
    ensures IsKey(FrameKey(n)) && SeqOf(FrameKey(n)) == n
  {
    ParseDecimal(n);
    ParsePadded(Decimal(n));
    assert FrameKey(n)[..2] == "f:" && FrameKey(n)[2..] == PadStart(Decimal(n));
  }

  // ---- Order ----

  /** String order: by the first difference, and a proper prefix first. */
  predicate Less(a: string, b: string) {
    b != "" && (a == "" || a[0] < b[0] || (a[0] == b[0] && Less(a[1..], b[1..])))
  }

  /** Strings of one length, compared but for their last characters first. */
  lemma {:induction false} LessByInit(a: string, b: string)
    requires |a| == |b| > 0
    ensures var n := |a| - 1;
            Less(a, b) <==> Less(a[..n], b[..n]) || (a[..n] == b[..n] && a[n] < b[n])
  {
    var n := |a| - 1;
    if n > 0 {
      LessByInit(a[1..], b[1..]);
      assert a[1..][..n - 1] == a[..n][1..] && b[1..][..n - 1] == b[..n][1..];
      assert a[..n] == [a[0]] + a[..n][1..] && b[..n] == [b[0]] + b[..n][1..];
    }
  }

  /** Digits of one length are ordered, and the same, as their numbers are. */
  lemma {:induction false} DigitsOrdered(a: Digits, b: Digits)
    requires |a| == |b|
    ensures Less(a, b) <==> Parse(a) < Parse(b)
    ensures a == b <==> Parse(a) == Parse(b)
  {
    if a != "" {
      var n := |a| - 1;
      LessByInit(a, b);
      DigitsOrdered(a[..n], b[..n]);
      assert a == a[..n] + [a[n]] && b == b[..n] + [b[n]];
    }
  }

  lemma {:induction false} DecimalLength(n: nat, k: nat)
    requires k > 0
    ensures |Decimal(n)| <= k <==> n < Pow10(k)
    decreases k
  {
    if n >= 10 && k > 1 {
      DecimalLength(n / 10, k - 1);
    } else if n < 10 {
      TenAtLeast(k);
    } else {
      assert Pow10(1) == 10 * Pow10(0);
      assert |Decimal(n / 10)| > 0;
    }
  }

  lemma {:induction false} TenAtLeast(k: nat)
    requires k > 0
    ensures Pow10(k) >= 10
  {
    if k > 1 {
      TenAtLeast(k - 1);
    } else {
      assert Pow10(1) == 10 * Pow10(0);
    }
  }

  const LIMIT: nat := 100_000_000_000_000

  lemma LimitIsPower()
    ensures Pow10(SEQ_DIGITS) == LIMIT
  {
    assert Pow10(4) == 10_000;
    assert Pow10(8) == 100_000_000;
    assert Pow10(12) == 1_000_000_000_000;
  }

  lemma LessAfter(prefix: string, a: string, b: string)
    ensures Less(prefix + a, prefix + b) <==> Less(a, b)
    decreases prefix
  {
    if prefix == "" {
      assert prefix + a == a && prefix + b == b;
    } else {
      LessAfter(prefix[1..], a, b);
      assert (prefix + a)[1..] == prefix[1..] + a && (prefix + b)[1..] == prefix[1..] + b;
    }
  }

  /** Below the limit, keys are ordered as their numbers. */
  lemma KeysOrdered(a: nat, b: nat)
    requires a < LIMIT && b < LIMIT
    ensures Less(FrameKey(a), FrameKey(b)) <==> a < b
  {
    LimitIsPower();
    DecimalLength(a, SEQ_DIGITS);
    DecimalLength(b, SEQ_DIGITS);
    var x, y := PadStart(Decimal(a)), PadStart(Decimal(b));
    LessAfter("f:", x, y);
    DigitsOrdered(x, y);
    FrameKeyRoundTrip(a);
    FrameKeyRoundTrip(b);
    assert FrameKey(a)[2..] == x && FrameKey(b)[2..] == y;
  }

  function Lead(n: nat): nat {
    if n < 10 then n else Lead(n / 10)
  }

  lemma {:induction false} LeadIsFirst(n: nat)
    ensures Lead(n) < 10 && Decimal(n)[0] == Digit(Lead(n))
  {
    if n >= 10 {
      LeadIsFirst(n / 10);
    }
  }

  /** The first number with more digits than keys are padded to sorts before the last one without. */
  lemma KeysDisordered()
    ensures Less(FrameKey(LIMIT), FrameKey(LIMIT - 1))
  {
    LimitIsPower();
    DecimalLength(LIMIT, SEQ_DIGITS);
    DecimalLength(LIMIT - 1, SEQ_DIGITS);
    DecimalLength(LIMIT - 1, SEQ_DIGITS - 1);
    assert Pow10(SEQ_DIGITS) == 10 * Pow10(SEQ_DIGITS - 1);
    LeadIsFirst(LIMIT);
    LeadIsFirst(LIMIT - 1);
    assert Lead(100_000_000_000_000) == 1 && Lead(99_999_999_999_999) == 9;
    LessAfter("f:", PadStart(Decimal(LIMIT)), PadStart(Decimal(LIMIT - 1)));
  }

  /** So keys up to a number are in the order of their numbers exactly when that number is below the limit. */
  lemma KeysOrderedIff(n: nat)
    ensures n < LIMIT <==> forall a: nat, b: nat :: a < b <= n ==> Less(FrameKey(a), FrameKey(b))
  {
    if n < LIMIT {
      forall a: nat, b: nat | a < b <= n ensures Less(FrameKey(a), FrameKey(b)) {
        KeysOrdered(a, b);
      }
    } else {
      KeysDisordered();
      LessIsStrict(FrameKey(LIMIT), FrameKey(LIMIT - 1));
      assert !Less(FrameKey(LIMIT - 1), FrameKey(LIMIT));
    }
  }

  lemma {:induction false} LessIsStrict(a: string, b: string)
    requires Less(a, b)
    ensures !Less(b, a)
    decreases a
  {
    if a != "" && a[0] == b[0] {
      LessIsStrict(a[1..], b[1..]);
    }
  }
}
