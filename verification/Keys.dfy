/** The string keys of core/src/telemetry.ts, and when they are unambiguous. */
module Keys {

  function Digit(d: nat): char
    requires d < 10
  {
    "0123456789"[d]
  }

  /** A number as a template literal prints it. */
  function Decimal(n: nat): (s: string)
    ensures s != [] && forall c | c in s :: '0' <= c <= '9'
  {
    if n < 10 then [Digit(n)] else Decimal(n / 10) + [Digit(n % 10)]
  }

  /** What a text of digits says in base ten. */
  function Value(s: string): int {
    if s == "" then 0 else 10 * Value(s[..|s| - 1]) + (s[|s| - 1] as int - '0' as int)
  }

  /** A printed number reads back as itself. */
  lemma {:induction false} DecimalReadsBack(n: nat)
    ensures Value(Decimal(n)) == n
  {
    var s := Decimal(n);
    DigitReadsBack(n % 10);
    if n < 10 {
      assert s[..0] == "";
    } else {
      DecimalReadsBack(n / 10);
      assert s[..|s| - 1] == Decimal(n / 10);
    }
  }

  lemma DigitReadsBack(d: nat)
    requires d < 10
    ensures Digit(d) as int - '0' as int == d
  {
  }

  function PrKey(repo: string, number: nat): string { repo + "#" + Decimal(number) }
  function BranchKey(repo: string, branch: string): string { repo + "@" + branch }

  lemma {:induction false} DecimalInjective(a: nat, b: nat)
    requires Decimal(a) == Decimal(b)
    ensures a == b
  {
    var s, t := Decimal(a), Decimal(b);
    assert s[|s| - 1] == Digit(a % 10) && t[|t| - 1] == Digit(b % 10);
    if a >= 10 && b >= 10 {
      assert s[..|s| - 1] == Decimal(a / 10) && t[..|t| - 1] == Decimal(b / 10);
      DecimalInjective(a / 10, b / 10);
    }
  }

  /** A text splits in one way at its last separator. */
  lemma {:induction false} LastSeparator(a: string, x: char, b: string, a': string, b': string)
    requires x !in b && x !in b' && a + [x] + b == a' + [x] + b'
    ensures a == a' && b == b'
    decreases |b|
  {
    var k := a + [x] + b;
    assert b == "" ==> k[|k| - 1] == x;
    assert b != "" ==> k[|k| - 1] == b[|b| - 1] && b[|b| - 1] in b;
    assert b' == "" ==> k[|k| - 1] == x;
    assert b' != "" ==> k[|k| - 1] == b'[|b'| - 1] && b'[|b'| - 1] in b';
    if b != "" {
      assert k[..|k| - 1] == a + [x] + b[..|b| - 1] && k[..|k| - 1] == a' + [x] + b'[..|b'| - 1];
      LastSeparator(a, x, b[..|b| - 1], a', b'[..|b'| - 1]);
      assert b == b[..|b| - 1] + [k[|k| - 1]] && b' == b'[..|b'| - 1] + [k[|k| - 1]];
    } else {
      assert k[..|k| - 1] == a && k[..|k| - 1] == a';
    }
  }

  /** And in one way at its first. */
  lemma {:induction false} FirstSeparator(a: string, x: char, b: string, a': string, b': string)
    requires x !in a && x !in a' && a + [x] + b == a' + [x] + b'
    ensures a == a' && b == b'
    decreases |a|
  {
    var k := a + [x] + b;
    assert a == "" ==> k[0] == x;
    assert a != "" ==> k[0] == a[0] && a[0] in a;
    assert a' == "" ==> k[0] == x;
    assert a' != "" ==> k[0] == a'[0] && a'[0] in a';
    if a != "" {
      assert k[1..] == a[1..] + [x] + b && k[1..] == a'[1..] + [x] + b';
      FirstSeparator(a[1..], x, b, a'[1..], b');
      assert a == [k[0]] + a[1..] && a' == [k[0]] + a'[1..];
    } else {
      assert k[1..] == b && k[1..] == b';
    }
  }

  /** "repo#number" names one PR, whatever the repo is called: the number has no '#' in it. */
  lemma PrKeyInjective(r: string, n: nat, r': string, n': nat)
    requires PrKey(r, n) == PrKey(r', n')
    ensures r == r' && n == n'
  {
    LastSeparator(r, '#', Decimal(n), r', Decimal(n'));
    DecimalInjective(n, n');
  }

  /**
   * "repo@branch" is ambiguous between two repos exactly when one is the other followed by '@' and
   * anything: then, and only then, some branches of the two share a key.
   */
  lemma BranchKeysCollideExactlyWhen(r: string, r': string)
    requires r != r'
    ensures (exists b, b' :: BranchKey(r, b) == BranchKey(r', b')) <==> r + "@" <= r' || r' + "@" <= r
  {
    if b, b' :| BranchKey(r, b) == BranchKey(r', b') {
      var k := BranchKey(r, b);
      assert r + "@" == k[..|r| + 1] && r' + "@" == k[..|r'| + 1];
      assert r == k[..|r|] && r' == k[..|r'|];
      if |r| < |r'| {
        assert r + "@" <= r';
      } else {
        assert r' + "@" <= r;
      }
    }
    if r + "@" <= r' {
      var b := r'[|r| + 1..] + "@";
      assert r' + "@" == r + "@" + b;
      assert BranchKey(r, b) == BranchKey(r', "");
    }
    if r' + "@" <= r {
      var b := r[|r'| + 1..] + "@";
      assert r + "@" == r' + "@" + b;
      assert BranchKey(r, "") == BranchKey(r', b);
    }
  }
}
