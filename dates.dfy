/** Stock optional value: JavaScript's `null` (or `undefined`) versus a present value. */
module Wrappers {
  datatype Option<+T> = None | Some(value: T)
}

/**
 * Calendar days as the filter panel stores them. The panel keeps every day as a
 * string in the `DATE_FORMAT` form, assumed here to be the fixed-width
 * `YYYY-MM-DD`, and orders days with JavaScript's `<` and `>` on those strings. The model keeps the day as a value and orders it
 * lexicographically on (year, month, day); `FormatOrder` shows that this is the
 * same order as the string comparison for every day with a four-digit year.
 */
module Dates {

  datatype Date = Date(year: int, month: int, day: int)

  /** Strictly earlier: lexicographic on (year, month, day). */
  predicate Before(a: Date, b: Date)
  {
    a.year < b.year
    || (a.year == b.year && (a.month < b.month || (a.month == b.month && a.day < b.day)))
  }

  /** Not later: `a` comes before `b` or is the same day. */
  predicate NotAfter(a: Date, b: Date)
  {
    Before(a, b) || a == b
  }

  /** `Before` is a strict total order on days. */
  lemma BeforeIsStrictTotalOrder(a: Date, b: Date, c: Date)
    ensures !Before(a, a)
    ensures Before(a, b) && Before(b, c) ==> Before(a, c)
    ensures Before(a, b) || a == b || Before(b, a)
    ensures NotAfter(a, b) <==> !Before(b, a)
  {
  }

  // ---------------------------------------------------------------------------
  // The fixed-width text form and JavaScript string comparison
  // ---------------------------------------------------------------------------

  /** A day the calendar can offer whose year has four digits. */
  predicate Formattable(d: Date)
  {
    0 <= d.year <= 9999 && 1 <= d.month <= 12 && 1 <= d.day <= 31
  }

  function DigitChar(n: int): (c: char)
    requires 0 <= n <= 9
    ensures '0' <= c <= '9'
  {
    ('0' as int + n) as char
  }

  /** Two zero-padded decimal digits. */
  function Pad2(n: int): (s: string)
    requires 0 <= n <= 99
    ensures |s| == 2
  {
    [DigitChar(n / 10), DigitChar(n % 10)]
  }

  /** Four zero-padded decimal digits. */
  function Pad4(n: int): (s: string)
    requires 0 <= n <= 9999
    ensures |s| == 4
  {
    Pad2(n / 100) + Pad2(n % 100)
  }

  /** The `YYYY-MM-DD` text of a day. */
  function Format(d: Date): (s: string)
    requires Formattable(d)
    ensures |s| == 10 && s[4] == '-' && s[7] == '-'
  {
    Pad4(d.year) + (['-'] + (Pad2(d.month) + (['-'] + Pad2(d.day))))
  }

  /** JavaScript's `a < b` on strings: code unit by code unit, a proper prefix first. */
  predicate LexLess(a: string, b: string)
    ensures LexLess(a, b) ==> a != b
    ensures a < b ==> LexLess(a, b)
  {
    if |a| == 0 then |b| > 0
    else if |b| == 0 then false
    else a[0] < b[0] || (a[0] == b[0] && LexLess(a[1..], b[1..]))
  }

  /** Comparing two concatenations whose first parts have equal length. */
  lemma {:induction false} LexLessConcat(x: string, y: string, x': string, y': string)
    requires |x| == |x'|
    ensures LexLess(x + y, x' + y') <==> LexLess(x, x') || (x == x' && LexLess(y, y'))
    decreases |x|
  {
    if |x| == 0 {
      assert x + y == y && x' + y' == y';
    } else {
      assert (x + y)[0] == x[0] && (x' + y')[0] == x'[0];
      assert (x + y)[1..] == x[1..] + y && (x' + y')[1..] == x'[1..] + y';
      LexLessConcat(x[1..], y, x'[1..], y');
      assert x == x' <==> x[0] == x'[0] && x[1..] == x'[1..] by {
        if x[0] == x'[0] && x[1..] == x'[1..] {
          assert x == [x[0]] + x[1..] && x' == [x'[0]] + x'[1..];
        }
      }
    }
  }

  lemma Pad2Order(n: int, m: int)
    requires 0 <= n <= 99 && 0 <= m <= 99
    ensures LexLess(Pad2(n), Pad2(m)) <==> n < m
    ensures Pad2(n) == Pad2(m) <==> n == m
  {
    var p, q := Pad2(n), Pad2(m);
    assert p == [p[0]] + [p[1]] && q == [q[0]] + [q[1]];
    LexLessConcat([p[0]], [p[1]], [q[0]], [q[1]]);
    assert LexLess([p[1]], [q[1]]) <==> p[1] < q[1] by {
      assert [p[1]][1..] == [] && [q[1]][1..] == [];
    }
    assert LexLess([p[0]], [q[0]]) <==> p[0] < q[0] by {
      assert [p[0]][1..] == [] && [q[0]][1..] == [];
    }
  }

  lemma Pad4Order(n: int, m: int)
    requires 0 <= n <= 9999 && 0 <= m <= 9999
    ensures LexLess(Pad4(n), Pad4(m)) <==> n < m
    ensures Pad4(n) == Pad4(m) <==> n == m
  {
    LexLessConcat(Pad2(n / 100), Pad2(n % 100), Pad2(m / 100), Pad2(m % 100));
    Pad2Order(n / 100, m / 100);
    Pad2Order(n % 100, m % 100);
    if Pad4(n) == Pad4(m) {
      assert Pad4(n)[..2] == Pad2(n / 100) && Pad4(m)[..2] == Pad2(m / 100);
      assert Pad4(n)[2..] == Pad2(n % 100) && Pad4(m)[2..] == Pad2(m % 100);
    }
  }

  /**
   * On four-digit years the string comparison the panel performs on `YYYY-MM-DD`
   * texts is exactly the chronological order, and the text identifies the day.
   */
  lemma FormatOrder(a: Date, b: Date)
    requires Formattable(a) && Formattable(b)
    ensures LexLess(Format(a), Format(b)) <==> Before(a, b)
    ensures Format(a) == Format(b) <==> a == b
  {
    var dash: string := ['-'];
    var ta := dash + Pad2(a.day);
    var tb := dash + Pad2(b.day);
    var ma := Pad2(a.month) + ta;
    var mb := Pad2(b.month) + tb;
    Pad2Order(a.day, b.day);
    LexLessConcat(dash, Pad2(a.day), dash, Pad2(b.day));
    assert !LexLess(dash, dash);
    Pad2Order(a.month, b.month);
    LexLessConcat(Pad2(a.month), ta, Pad2(b.month), tb);
    LexLessConcat(dash, ma, dash, mb);
    Pad4Order(a.year, b.year);
    LexLessConcat(Pad4(a.year), dash + ma, Pad4(b.year), dash + mb);
    assert ta == tb ==> Pad2(a.day) == Pad2(b.day) by {
      if ta == tb { assert ta[1..] == Pad2(a.day) && tb[1..] == Pad2(b.day); }
    }
    assert ma == mb ==> Pad2(a.month) == Pad2(b.month) && ta == tb by {
      if ma == mb {
        assert ma[..2] == Pad2(a.month) && mb[..2] == Pad2(b.month);
        assert ma[2..] == ta && mb[2..] == tb;
      }
    }
    assert Format(a) == Format(b) ==> Pad4(a.year) == Pad4(b.year) && ma == mb by {
      if Format(a) == Format(b) {
        assert Format(a)[..4] == Pad4(a.year) && Format(b)[..4] == Pad4(b.year);
        assert Format(a)[5..] == ma && Format(b)[5..] == mb;
      }
    }
  }
}
