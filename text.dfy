/** Character-level building blocks of the Mojangson renderers: Java's
    decimal rendering of integers (`String.valueOf(long)`, which string
    concatenation uses), and joining parts with a separator. */
module Text {

  predicate IsDigit(c: char)
  {
    '0' <= c <= '9'
  }

  predicate AllDigits(s: seq<char>)
  {
    forall i :: 0 <= i < |s| ==> IsDigit(s[i])
  }

  function Digit(d: nat): (c: char)
    requires d < 10
    ensures IsDigit(c) && c as int - '0' as int == d
  {
    (d + '0' as int) as char
  }

  /** The decimal digits of `n`, most significant first, without leading
      zeros. */
  function NatString(n: nat): (r: seq<char>)
    ensures |r| >= 1 && AllDigits(r)
    ensures r[0] == '0' <==> n == 0
    ensures n == 0 ==> r == "0"
    decreases n
  {
    if n < 10 then [Digit(n)] else NatString(n / 10) + [Digit(n % 10)]
  }

  /** `String.valueOf(v)` for a Java `int` or `long`: a minus sign and the
      digits of the magnitude for a negative value. */
  function IntString(v: int): (r: seq<char>)
    ensures |r| >= 1
    ensures r[0] == '-' <==> v < 0
    ensures v < 0 ==> r[1..] == NatString(-v)
    ensures v >= 0 ==> r == NatString(v)
  {
    if v < 0 then "-" + NatString(-v) else NatString(v)
  }

  /** The value a string of decimal digits denotes: the reference reading
      the renderings are checked against. */
  function DigitsValue(s: seq<char>): nat
    requires AllDigits(s)
  {
    if s == [] then 0 else DigitsValue(s[..|s| - 1]) * 10 + (s[|s| - 1] as int - '0' as int)
  }

  /** Reading a signed decimal back. */
  function SignedValue(s: seq<char>): int
    requires |s| >= 1
    requires s[0] == '-' ==> AllDigits(s[1..])
    requires s[0] != '-' ==> AllDigits(s)
  {
    if s[0] == '-' then 0 - DigitsValue(s[1..]) as int else DigitsValue(s)
  }

  /** Reading the digits of `n` back gives `n`. */
  lemma {:induction false} NatStringValue(n: nat)
    ensures DigitsValue(NatString(n)) == n
    decreases n
  {
    if n >= 10 {
      NatStringValue(n / 10);
      var r := NatString(n);
      assert r[..|r| - 1] == NatString(n / 10);
    }
  }

  /** Reading the rendering of `v` back gives `v`, so distinct values render
      differently. */
  lemma IntStringValue(v: int)
    ensures SignedValue(IntString(v)) == v
  {
    if v < 0 {
      NatStringValue(-v);
    } else {
      NatStringValue(v);
    }
  }

  lemma IntStringInjective(v: int, w: int)
    ensures IntString(v) == IntString(w) <==> v == w
  {
    IntStringValue(v);
    IntStringValue(w);
  }

  /** `parts` with `sep` between consecutive parts, and none before the
      first: what a loop that appends `sep` for every part but the first
      produces. */
  function Join(parts: seq<seq<char>>, sep: seq<char>): (r: seq<char>)
    decreases |parts|
  {
    if |parts| == 0 then []
    else if |parts| == 1 then parts[0]
    else Join(parts[..|parts| - 1], sep) + sep + parts[|parts| - 1]
  }

  /** One step of such a loop. */
  lemma JoinNext(parts: seq<seq<char>>, sep: seq<char>, i: nat)
    requires i < |parts|
    ensures Join(parts[..i + 1], sep) == if i == 0 then parts[0] else Join(parts[..i], sep) + sep + parts[i]
  {
    assert parts[..i + 1][..i] == parts[..i];
  }

  /** One round of a loop that writes a separator before every part but the
      first: `gap` is what the round wrote before its part. */
  lemma JoinStep(parts: seq<seq<char>>, sep: seq<char>, i: nat, base: seq<char>, o: seq<char>, gap: seq<char>, o': seq<char>)
    requires i < |parts|
    requires o == base + Join(parts[..i], sep)
    requires gap == if i == 0 then [] else sep
    requires o' == o + gap + parts[i]
    ensures o' == base + Join(parts[..i + 1], sep)
  {
    JoinNext(parts, sep, i);
  }

  /** The last position of `c` in `s`, if any. */
  function LastIndex(s: seq<char>, c: char): (r: int)
    ensures -1 <= r < |s|
    ensures r >= 0 ==> s[r] == c && forall k :: r < k < |s| ==> s[k] != c
    ensures r == -1 <==> c !in s
  {
    if |s| == 0 then -1
    else if s[|s| - 1] == c then |s| - 1
    else LastIndex(s[..|s| - 1], c)
  }

  /** Splitting at every occurrence of `c`. */
  function Split(s: seq<char>, c: char): (r: seq<seq<char>>)
    ensures |r| >= 1
    decreases |s|
  {
    var k := LastIndex(s, c);
    if k < 0 then [s] else Split(s[..k], c) + [s[k + 1..]]
  }

  /** Joining parts free of `c` with `c` and splitting at `c` gives the
      parts back: each part sits between two consecutive separators. */
  lemma {:induction false} SplitJoin(parts: seq<seq<char>>, c: char)
    requires |parts| >= 1
    requires forall i :: 0 <= i < |parts| ==> c !in parts[i]
    ensures Split(Join(parts, [c]), c) == parts
    decreases |parts|
  {
    if |parts| > 1 {
      var init := parts[..|parts| - 1];
      var last := parts[|parts| - 1];
      var j := Join(init, [c]);
      assert Join(parts, [c]) == j + [c] + last;
      LastSeparator(j, last, c);
      SplitJoin(init, c);
      assert parts == init + [last];
    }
  }

  /** The separator before a last part free of `c` is the last `c`. */
  lemma LastSeparator(j: seq<char>, last: seq<char>, c: char)
    requires c !in last
    ensures var s := j + [c] + last;
      LastIndex(s, c) == |j| && s[..|j|] == j && s[|j| + 1..] == last
  {
    var s := j + [c] + last;
    assert s[|j|] == c;
    forall k | |j| < k < |s| ensures s[k] != c {
      assert s[k] == last[k - |j| - 1];
    }
    LastIndexIs(s, c, |j|);
    assert s[..|j|] == j;
    assert s[|j| + 1..] == last;
  }

  lemma {:induction false} LastIndexIs(s: seq<char>, c: char, k: nat)
    requires k < |s| && s[k] == c
    requires forall m :: k < m < |s| ==> s[m] != c
    ensures LastIndex(s, c) == k
    decreases |s|
  {
    if k < |s| - 1 {
      LastIndexIs(s[..|s| - 1], c, k);
    }
  }

  /** `n` copies of `s`. */
  function Repeat(s: seq<char>, n: nat): seq<char>
  {
    if n == 0 then [] else Repeat(s, n - 1) + s
  }

  lemma {:induction false} RepeatLength(s: seq<char>, n: nat)
    ensures |Repeat(s, n)| == n * |s|
  {
    if n > 0 {
      RepeatLength(s, n - 1);
    }
  }

  /** Copies of a string made of one character are made of it too. */
  lemma {:induction false} RepeatOf(s: seq<char>, n: nat, c: char)
    requires forall i :: 0 <= i < |s| ==> s[i] == c
    ensures forall k :: 0 <= k < |Repeat(s, n)| ==> Repeat(s, n)[k] == c
    decreases n
  {
    if n > 0 {
      RepeatOf(s, n - 1, c);
      var r, init := Repeat(s, n), Repeat(s, n - 1);
      assert r == init + s;
      forall k | 0 <= k < |r| ensures r[k] == c {
        if k >= |init| {
          assert r[k] == s[k - |init|];
        }
      }
    }
  }
}
