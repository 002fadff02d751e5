/** The session ids both tracking services generate: 'session_', the clock
    reading in milliseconds, '_', and a random base-36 suffix. The clock
    reading and the suffix are parameters. */
module SessionIds {
  import opened Text

  function GeneratedSessionId(timestamp: nat, suffix: string): (id: string)
    ensures StartsWith(id, "session_")
    ensures id != ""
  {
    "session_" + DecimalString(timestamp) + "_" + suffix
  }

  predicate AllDigits(s: string) {
    forall k :: 0 <= k < |s| ==> IsDigit(s[k])
  }

  /** Distinct numbers have distinct decimal strings. */
  lemma {:induction false} DecimalStringInjective(a: nat, b: nat)
    requires DecimalString(a) == DecimalString(b)
    ensures a == b
    decreases a
  {
    var da, db := DecimalString(a), DecimalString(b);
    assert da[|da| - 1] == (('0' as int) + a % 10) as char;
    assert db[|db| - 1] == (('0' as int) + b % 10) as char;
    assert a % 10 == b % 10;
    if a >= 10 {
      assert |da| == |DecimalString(a / 10)| + 1 >= 2;
      assert b >= 10;
      assert DecimalString(a / 10) == da[..|da| - 1] == db[..|db| - 1] == DecimalString(b / 10);
      DecimalStringInjective(a / 10, b / 10);
    }
  }

  /** A digit string followed by '_' can be read back from the front. */
  lemma DigitsThenSeparator(d1: string, x1: string, d2: string, x2: string)
    requires AllDigits(d1) && AllDigits(d2)
    requires d1 + "_" + x1 == d2 + "_" + x2
    ensures d1 == d2
  {
    var s := d1 + "_" + x1;
    assert |d1| == |d2| by {
      assert s[|d1|] == '_' && (d2 + "_" + x2)[|d2|] == '_';
    }
    assert d1 == s[..|d1|] == d2;
  }

  /** Ids generated at different clock readings differ, whatever the suffixes. */
  lemma DistinctTimestampsDistinctIds(t1: nat, s1: string, t2: nat, s2: string)
    requires t1 != t2
    ensures GeneratedSessionId(t1, s1) != GeneratedSessionId(t2, s2)
  {
    if GeneratedSessionId(t1, s1) == GeneratedSessionId(t2, s2) {
      var id := GeneratedSessionId(t1, s1);
      assert id[8..] == DecimalString(t1) + "_" + s1 == DecimalString(t2) + "_" + s2;
      DigitsThenSeparator(DecimalString(t1), s1, DecimalString(t2), s2);
      DecimalStringInjective(t1, t2);
    }
  }
}
