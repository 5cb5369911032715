/**
 * The string operations the routes rely on: the lexicographic order the
 * document store uses for `$lt`, `$gt` and `sort` on string fields, the
 * prefix test of the middleware, ASCII lower-casing of e-mail addresses,
 * and the zero-padded "HH:MM" clock times stored in timetable slots.
 */
module Strings {

  /** Lexicographic "strictly before" on character codes. */
  predicate Less(a: string, b: string)
  {
    if |a| == 0 then |b| > 0
    else if |b| == 0 then false
    else if a[0] == b[0] then Less(a[1..], b[1..])
    else a[0] < b[0]
  }

  predicate LessOrEqual(a: string, b: string)
  {
    a == b || Less(a, b)
  }

  lemma {:induction false} LessIrreflexive(a: string)
    ensures !Less(a, a)
  {
    if |a| > 0 {
      LessIrreflexive(a[1..]);
    }
  }

  lemma {:induction false} LessAsymmetric(a: string, b: string)
    ensures !(Less(a, b) && Less(b, a))
  {
    if |a| > 0 && |b| > 0 && a[0] == b[0] {
      LessAsymmetric(a[1..], b[1..]);
    }
  }

  lemma {:induction false} LessTransitive(a: string, b: string, c: string)
    requires Less(a, b) && Less(b, c)
    ensures Less(a, c)
  {
    if |a| > 0 && a[0] == b[0] && b[0] == c[0] {
      LessTransitive(a[1..], b[1..], c[1..]);
    }
  }

  lemma {:induction false} LessTotal(a: string, b: string)
    ensures a == b || Less(a, b) || Less(b, a)
  {
    if |a| > 0 && |b| > 0 && a[0] == b[0] {
      LessTotal(a[1..], b[1..]);
      if a[1..] == b[1..] {
        assert a == [a[0]] + a[1..] && b == [b[0]] + b[1..];
      }
    }
  }

  /** `String.prototype.startsWith`. */
  predicate StartsWith(s: string, prefix: string)
  {
    |prefix| <= |s| && s[..|prefix|] == prefix
  }

  function LowerChar(c: char): (r: char)
    ensures 'A' <= c <= 'Z' ==> 'a' <= r <= 'z' && r as int - 'a' as int == c as int - 'A' as int
    ensures !('A' <= r <= 'Z')
    ensures !('A' <= c <= 'Z') ==> r == c
  {
    if 'A' <= c <= 'Z' then (c as int + 32) as char else c
  }

  /**
   * ASCII lower-casing: an approximation of the `lowercase: true` setter on
   * e-mail addresses, which uses `toLowerCase` and so also lowers non-ASCII
   * capitals.
   */
  function Lower(s: string): (r: string)
    ensures |r| == |s|
    ensures forall i :: 0 <= i < |r| ==> !('A' <= r[i] <= 'Z')
    ensures forall i :: 0 <= i < |s| && !('A' <= s[i] <= 'Z') ==> r[i] == s[i]
    ensures forall i :: 0 <= i < |s| ==> r[i] == LowerChar(s[i])
  {
    if s == [] then [] else [LowerChar(s[0])] + Lower(s[1..])
  }

  lemma {:induction false} LowerIdempotent(s: string)
    ensures Lower(Lower(s)) == Lower(s)
  {
    var once := Lower(s);
    var twice := Lower(once);
    assert forall i :: 0 <= i < |once| ==> twice[i] == once[i];
  }

  predicate IsDigit(c: char)
  {
    '0' <= c <= '9'
  }

  function DigitValue(c: char): nat
    requires IsDigit(c)
  {
    c as int - '0' as int
  }

  /** A well-formed zero-padded clock time "HH:MM" with HH below 24 and MM below 60. */
  predicate IsClockTime(t: string)
  {
    && |t| == 5
    && IsDigit(t[0]) && IsDigit(t[1]) && t[2] == ':' && IsDigit(t[3]) && IsDigit(t[4])
    && DigitValue(t[0]) * 10 + DigitValue(t[1]) < 24
    && DigitValue(t[3]) < 6
  }

  /** Minutes since midnight of a clock time. */
  function Minutes(t: string): (m: nat)
    requires IsClockTime(t)
    ensures m < 24 * 60
  {
    (DigitValue(t[0]) * 10 + DigitValue(t[1])) * 60 + DigitValue(t[3]) * 10 + DigitValue(t[4])
  }

  /** Zero padding makes the store's string comparison agree with the order of the clock. */
  lemma ClockTimeOrder(a: string, b: string)
    requires IsClockTime(a) && IsClockTime(b)
    ensures Less(a, b) <==> Minutes(a) < Minutes(b)
  {
    var ha, hb := DigitValue(a[0]) * 10 + DigitValue(a[1]), DigitValue(b[0]) * 10 + DigitValue(b[1]);
    var ma, mb := DigitValue(a[3]) * 10 + DigitValue(a[4]), DigitValue(b[3]) * 10 + DigitValue(b[4]);
    assert Minutes(a) == ha * 60 + ma && ma < 60;
    assert Minutes(b) == hb * 60 + mb && mb < 60;
    assert a[1..][1..][1..][1..] == a[4..] && b[1..][1..][1..][1..] == b[4..];
    if ha < hb {
      assert Minutes(a) < Minutes(b);
      assert Less(a, b) by {
        if a[0] == b[0] { assert a[1] < b[1]; }
      }
    } else if hb < ha {
      assert Minutes(b) < Minutes(a);
      assert Less(b, a) by {
        if a[0] == b[0] { assert b[1] < a[1]; }
      }
      LessAsymmetric(a, b);
    } else {
      assert a[0] == b[0] && a[1] == b[1];
      var a3, b3 := a[1..][1..][1..], b[1..][1..][1..];
      assert a3[0] == a[3] && b3[0] == b[3] && a3[1..] == a[4..] && b3[1..] == b[4..];
      assert a[2] == b[2];
      if ma < mb {
        assert Less(a3, b3) by {
          if a[3] == b[3] { assert a[4] < b[4]; }
        }
        assert Less(a, b);
      } else if mb < ma {
        assert Less(b3, a3) by {
          if a[3] == b[3] { assert b[4] < a[4]; }
        }
        assert Less(b, a);
        LessAsymmetric(a, b);
      } else {
        assert a == b;
        LessIrreflexive(a);
      }
    }
  }
}
