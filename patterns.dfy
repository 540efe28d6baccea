/** SQL `LIKE` patterns, the pattern the number filters bind, and how
    trimming and lower-casing treat plain board numbers. */
module Patterns {
  import opened Json

  /** The value bound for a `number` filter: `%<lower(trim(number))>%`. */
  function NumberPattern(number: string): (r: string)
    ensures |r| >= 2 && r[0] == '%' && r[|r| - 1] == '%'
    ensures r[1..|r| - 1] == Lower(Trim(JsTrim, number))
  {
    "%" + Lower(Trim(JsTrim, number)) + "%"
  }

  /** SQL `LIKE`: `%` matches any run of characters, `_` any one character,
      every other character itself. */
  predicate Like(p: string, t: string)
    decreases |p| + |t|
    ensures NoWildcards(p) ==> (Like(p, t) <==> t == p)
  {
    assert p != [] && NoWildcards(p) ==> NoWildcards(p[1..]);
    if p == [] then t == []
    else if p[0] == '%' then Like(p[1..], t) || (t != [] && Like(p, t[1..]))
    else t != [] && (p[0] == '_' || p[0] == t[0]) && Like(p[1..], t[1..])
  }

  /** The pattern characters `%`, `_` and the escape `\` do not occur. */
  predicate NoWildcards(s: string)
  {
    forall i :: 0 <= i < |s| ==> s[i] != '%' && s[i] != '_' && s[i] != '\\'
  }

  /** `s` occurs in `t` at position `i`. */
  predicate OccursAt(t: string, s: string, i: int)
  {
    0 <= i && i + |s| <= |t| && t[i..i + |s|] == s
  }

  predicate Contains(t: string, s: string)
  {
    exists i :: 0 <= i <= |t| && OccursAt(t, s, i)
  }

  lemma {:induction false} LikePercentMatchesAll(t: string)
    ensures Like("%", t)
  {
    if t != [] {
      LikePercentMatchesAll(t[1..]);
    }
  }

  /** A pattern that starts with literal text matches exactly the texts
      that start with that text and continue with a match of the rest. */
  lemma {:induction false} LikeLiteralPrefix(s: string, q: string, t: string)
    requires NoWildcards(s)
    ensures Like(s + q, t) <==> |s| <= |t| && t[..|s|] == s && Like(q, t[|s|..])
  {
    if s == [] {
      assert s + q == q;
    } else {
      var p := s + q;
      assert p[0] == s[0] && p[1..] == s[1..] + q;
      assert s[0] != '%' && s[0] != '_';
      assert NoWildcards(s[1..]) by {
        forall i | 0 <= i < |s[1..]| ensures s[1..][i] != '%' && s[1..][i] != '_' && s[1..][i] != '\\' {
          assert s[1..][i] == s[i + 1];
        }
      }
      if t != [] {
        LikeLiteralPrefix(s[1..], q, t[1..]);
        if |s| <= |t| {
          assert t[1..][|s| - 1..] == t[|s|..];
          assert (t[..|s|] == s) <==> (t[0] == s[0] && t[1..][..|s| - 1] == s[1..]) by {
            if t[0] == s[0] && t[1..][..|s| - 1] == s[1..] {
              assert forall k :: 0 <= k < |s| ==> t[..|s|][k] == s[k] by {
                forall k | 0 <= k < |s| ensures t[..|s|][k] == s[k] {
                  if k > 0 { assert t[1..][..|s| - 1][k - 1] == s[1..][k - 1]; }
                }
              }
            }
          }
        }
      }
    }
  }

  /** `ILIKE '%<s>%'` on a pattern-free `s` is a substring test. */
  lemma {:induction false} LikeContains(s: string, t: string)
    requires NoWildcards(s)
    ensures Like("%" + s + "%", t) <==> Contains(t, s)
    decreases |t|
  {
    var p := "%" + s + "%";
    assert p[0] == '%' && p[1..] == s + "%";
    LikeLiteralPrefix(s, "%", t);
    if |s| <= |t| {
      LikePercentMatchesAll(t[|s|..]);
    }
    var here := |s| <= |t| && t[..|s|] == s;
    assert Like(s + "%", t) <==> here;
    assert here ==> OccursAt(t, s, 0);
    if t == [] {
      if Contains(t, s) {
        var i :| 0 <= i <= |t| && OccursAt(t, s, i);
        assert i == 0 && t[..|s|] == s;
      }
    } else {
      LikeContains(s, t[1..]);
      assert Like(p, t) <==> here || Like(p, t[1..]);
      if Contains(t[1..], s) {
        var i :| 0 <= i <= |t[1..]| && OccursAt(t[1..], s, i);
        assert t[i + 1..i + 1 + |s|] == t[1..][i..i + |s|];
        assert OccursAt(t, s, i + 1);
      }
      if Contains(t, s) && !here {
        var i :| 0 <= i <= |t| && OccursAt(t, s, i);
        assert i != 0;
        assert t[1..][i - 1..i - 1 + |s|] == t[i..i + |s|];
        assert OccursAt(t[1..], s, i - 1);
      }
    }
  }

  lemma LowerIdempotent(s: string)
    ensures Lower(Lower(s)) == Lower(s)
  {
  }

  /** A board number as typed: digits, dots and underscores. */
  predicate PlainNumber(s: string)
  {
    forall i :: 0 <= i < |s| ==> s[i] == '.' || s[i] == '_' || '0' <= s[i] <= '9'
  }

  /** Lower-casing leaves a plain number alone. */
  lemma PlainNumberLower(s: string)
    requires PlainNumber(s)
    ensures Lower(s) == s
  {
    forall i | 0 <= i < |s| ensures Lower(s)[i] == s[i] {
    }
  }

  /** Trimming leaves a plain number alone. */
  lemma PlainNumberTrimmed(s: string)
    requires PlainNumber(s)
    ensures Trim(JsTrim, s) == s && Trim(SqlTrim, s) == s
  {
    forall i | 0 <= i < |s| ensures !Trimmable(JsTrim, s[i]) && !Trimmable(SqlTrim, s[i]) {
    }
  }

  /** Text made of digits, dots and underscores is left alone by trimming
      and lower-casing. */
  lemma PlainNumberUnchanged(s: string)
    requires PlainNumber(s)
    ensures Trim(JsTrim, s) == s && Trim(SqlTrim, s) == s && Lower(s) == s
  {
    PlainNumberTrimmed(s);
    PlainNumberLower(s);
  }

  /** SQL `TRIM` drops one space on each side of a space-free number. */
  lemma SqlTrimPadded(s: string)
    requires s != [] && forall i :: 0 <= i < |s| ==> s[i] != ' '
    ensures Trim(SqlTrim, " " + s + " ") == s
  {
    var p := " " + s + " ";
    assert p[1..] == s + " ";
    assert (s + " ")[0] == s[0];
    assert TrimStart(SqlTrim, s + " ") == s + " ";
    assert (s + " ")[..|s|] == s;
    assert TrimEnd(SqlTrim, s) == s;
  }

  /** The pattern for a number made of digits, dots and underscores is the
      number itself between two `%`. */
  lemma PlainNumberPattern(s: string)
    requires PlainNumber(s)
    ensures NumberPattern(s) == "%" + s + "%"
  {
    PlainNumberTrimmed(s);
    PlainNumberLower(s);
  }

  predicate DigitsAndDots(s: string)
  {
    forall i :: 0 <= i < |s| ==> s[i] == '.' || '0' <= s[i] <= '9'
  }

  lemma LikeOneUnderscoreThree()
    ensures Like("%1_3%", "123")
  {
    var p := "%1_3%";
    var t := "123";
    LikePercentMatchesAll([]);
    assert p[4..] == "%" && t[3..] == [];
    assert Like(p[4..], t[3..]);
    assert p[3..] == "3%" && t[2..] == "3";
    assert Like(p[3..], t[2..]);
    assert Like(p[2..], t[1..]);
    assert Like(p[1..], t);
  }
}
