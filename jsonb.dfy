/** The `jsonb_set` writes of the parameter and comment routes. The key of
    the request is pasted into the SQL text as the array literal
    `'{<key>}'`, which PostgreSQL parses as a `text[]` path; what that path
    is decides what the UPDATE writes, and a literal PostgreSQL refuses
    makes the statement fail. */
module JsonbPath {
  import opened Json

  /** The blanks the array-literal parser skips around elements. */
  predicate IsArraySpace(c: char)
  {
    c == ' ' || c == '\t' || c == '\n' || c == '\r' || c == '\U{B}' || c == '\U{C}'
  }

  /** Characters with a meaning of their own in an array literal. */
  predicate IsArraySpecial(c: char)
  {
    c == '"' || c == '\\' || c == ',' || c == '{' || c == '}'
  }

  predicate AllArraySpace(s: string)
  {
    forall i :: 0 <= i < |s| ==> IsArraySpace(s[i])
  }

  /** A path parsed from a literal: each step is a key, or NULL for an
      unquoted `NULL` element. */
  datatype PathLiteral = Path(steps: seq<Option<string>>) | Malformed

  /** The array literal `{<key>}`: blank content is the empty array,
      anything else is a comma-separated list of elements. */
  function ParsePath(key: string): PathLiteral
  {
    if AllArraySpace(key) then Path([]) else Elements(key)
  }

  /** The path the UPDATE receives. A single quote in the key ends the SQL
      string early; every such statement is taken to fail. */
  function SqlPath(key: string): PathLiteral
  {
    if '\'' in key then Malformed else ParsePath(key)
  }

  function Cons(e: Option<string>, rest: PathLiteral): PathLiteral
  {
    if rest.Malformed? then Malformed else Path([e] + rest.steps)
  }

  /** An unquoted element spelling `NULL` in any case, without a backslash,
      is a NULL step. */
  function UnquotedElement(e: string, escaped: bool): Option<string>
  {
    if !escaped && Lower(e) == "null" then None else Some(e)
  }

  /** The elements from the start of one element to the closing brace; an
      empty element is refused. */
  function Elements(s: string): PathLiteral
    decreases |s|, 1
  {
    if s == [] then Malformed
    else if IsArraySpace(s[0]) then Elements(s[1..])
    else if s[0] == '"' then Quoted(s[1..], [])
    else if s[0] == ',' then Malformed
    else Unquoted(s, [], 0, false)
  }

  /** Inside an unquoted element: `acc` holds what was read, its first
      `keep` characters end at the last one that is not a trailing blank, and
      `escaped` records a backslash. A quote or a brace inside it is
      refused. */
  function Unquoted(s: string, acc: string, keep: nat, escaped: bool): PathLiteral
    requires keep <= |acc|
    decreases |s|, 0
  {
    if s == [] then Path([UnquotedElement(acc[..keep], escaped)])
    else if s[0] == ',' then Cons(UnquotedElement(acc[..keep], escaped), Elements(s[1..]))
    else if s[0] == '"' || s[0] == '{' || s[0] == '}' then Malformed
    else if s[0] == '\\' then
      if |s| == 1 then Malformed else Unquoted(s[2..], acc + [s[1]], |acc| + 1, true)
    else Unquoted(s[1..], acc + [s[0]], if IsArraySpace(s[0]) then keep else |acc| + 1, escaped)
  }

  /** Inside a double-quoted element, where a backslash escapes the next
      character. */
  function Quoted(s: string, acc: string): PathLiteral
    decreases |s|, 0
  {
    if s == [] then Malformed
    else if s[0] == '"' then AfterQuoted(s[1..], acc)
    else if s[0] == '\\' then
      if |s| == 1 then Malformed else Quoted(s[2..], acc + [s[1]])
    else Quoted(s[1..], acc + [s[0]])
  }

  /** After the closing quote only blanks and then a comma or the end may
      follow. */
  function AfterQuoted(s: string, e: string): PathLiteral
    decreases |s|, 0
  {
    if s == [] then Path([Some(e)])
    else if IsArraySpace(s[0]) then AfterQuoted(s[1..], e)
    else if s[0] == ',' then Cons(Some(e), Elements(s[1..]))
    else Malformed
  }

  /** What the UPDATE does to the row it matches: writes a new column value,
      or raises, which fails the statement. */
  datatype Written = Written(col: Option<JsonObject>) | Raises

  /** `jsonb_set(COALESCE(col, '{}'), '{<key>}', to_jsonb(v::text), true)`
      on a map of scalars. The function is strict, so a NULL value makes
      the column NULL; an empty path leaves the map as it is; a NULL step is
      refused once the walk reaches it; `create_missing` adds the last step
      only; and a longer path never writes, because every value it could
      descend into is a scalar. */
  function JsonbSetText(col: Option<JsonObject>, key: string, v: Option<string>): (r: Written)
    ensures SqlPath(key).Malformed? ==> r.Raises?
    ensures SqlPath(key).Path? && v.None? ==> r == Written(None)
    ensures r.Raises? <==> (SqlPath(key).Malformed? || (v.Some? && |SqlPath(key).steps| > 0 &&
      (SqlPath(key).steps[0].None? ||
       (|SqlPath(key).steps| > 1 && SqlPath(key).steps[0].value in Coalesce(col) && SqlPath(key).steps[1].None?))))
    ensures forall k :: SqlPath(key) == Path([Some(k)]) && v.Some? ==>
      r == Written(Some(Coalesce(col)[k := JStr(v.value)]))
    ensures r.Written? && v.Some? ==> (r.col.Some?
      && (forall k :: k in Coalesce(col) ==> k in r.col.value)
      && (forall k :: k in r.col.value && (k !in Coalesce(col) || r.col.value[k] != Coalesce(col)[k]) ==>
            SqlPath(key) == Path([Some(k)]) && r.col.value[k] == JStr(v.value)))
  {
    match SqlPath(key)
    case Malformed => Raises
    case Path(steps) =>
      if v.None? then Written(None)
      else if steps == [] then Written(Some(Coalesce(col)))
      else if steps[0].None? then Raises
      else if |steps| == 1 then Written(Some(Coalesce(col)[steps[0].value := JStr(v.value)]))
      else if steps[0].value in Coalesce(col) && steps[1].None? then Raises
      else Written(Some(Coalesce(col)))
  }

  /** A key that reaches the path as itself: non-empty, no blank at either
      end, no character the literal or the SQL string gives a meaning to,
      and not a spelling of `NULL`. */
  predicate Bare(s: string)
  {
    s != [] && !IsArraySpace(s[0]) && !IsArraySpace(s[|s| - 1])
    && forall i :: 0 <= i < |s| ==> !IsArraySpecial(s[i]) && s[i] != '\''
  }

  predicate PlainKey(key: string)
  {
    Bare(key) && Lower(key) != "null"
  }

  /** Reading a run without special characters that ends in a non-blank
      appends all of it to the element. */
  lemma {:induction false} UnquotedRun(s: string, tail: string, acc: string, keep: nat, escaped: bool)
    requires keep <= |acc|
    requires s != [] && !IsArraySpace(s[|s| - 1])
    requires forall i :: 0 <= i < |s| ==> !IsArraySpecial(s[i])
    ensures Unquoted(s + tail, acc, keep, escaped) == Unquoted(tail, acc + s, |acc| + |s|, escaped)
  {
    var keep' := if IsArraySpace(s[0]) then keep else |acc| + 1;
    assert (s + tail)[0] == s[0];
    assert (s + tail)[1..] == s[1..] + tail;
    if |s| == 1 {
      assert s[1..] + tail == tail;
      assert acc + [s[0]] == acc + s;
    } else {
      UnquotedRun(s[1..], tail, acc + [s[0]], keep', escaped);
      assert acc + [s[0]] + s[1..] == acc + s;
    }
  }

  /** Trailing blanks of an unquoted element are dropped. */
  lemma {:induction false} UnquotedBlanks(s: string, acc: string, keep: nat, escaped: bool)
    requires keep <= |acc|
    requires AllArraySpace(s)
    ensures Unquoted(s, acc, keep, escaped) == Path([UnquotedElement(acc[..keep], escaped)])
  {
    if s != [] {
      UnquotedBlanks(s[1..], acc + [s[0]], keep, escaped);
      assert (acc + [s[0]])[..keep] == acc[..keep];
    }
  }

  /** Leading blanks are skipped. */
  lemma {:induction false} ElementsSkipBlanks(pre: string, s: string)
    requires AllArraySpace(pre)
    ensures Elements(pre + s) == Elements(s)
  {
    if pre != [] {
      assert (pre + s)[0] == pre[0];
      assert (pre + s)[1..] == pre[1..] + s;
      assert AllArraySpace(pre[1..]) by {
        forall i | 0 <= i < |pre[1..]| ensures IsArraySpace(pre[1..][i]) {
          assert pre[1..][i] == pre[i + 1];
        }
      }
      ElementsSkipBlanks(pre[1..], s);
    } else {
      assert pre + s == s;
    }
  }

  /** An element that starts with an ordinary character is unquoted. */
  lemma ElementsStartUnquoted(w: string)
    requires w != [] && !IsArraySpace(w[0]) && !IsArraySpecial(w[0])
    ensures Elements(w) == Unquoted(w, [], 0, false)
  {
  }

  /** A bare run and trailing blanks make one unquoted element. */
  lemma BareUnquoted(s: string, post: string)
    requires AllArraySpace(post) && Bare(s)
    ensures Unquoted(s + post, [], 0, false) == Path([UnquotedElement(s, false)])
  {
    UnquotedRun(s, post, [], 0, false);
    assert [] + s == s;
    UnquotedBlanks(post, s, |s|, false);
    assert s[..|s|] == s;
  }

  /** A bare key, with any blanks around it, is read as itself. */
  lemma BareElement(pre: string, s: string, post: string)
    requires AllArraySpace(pre) && AllArraySpace(post) && Bare(s)
    ensures Elements(pre + s + post) == Path([UnquotedElement(s, false)])
  {
    var w := s + post;
    assert pre + s + post == pre + w;
    ElementsSkipBlanks(pre, w);
    assert w[0] == s[0];
    ElementsStartUnquoted(w);
    BareUnquoted(s, post);
  }

  /** A plain key, padded with blanks or not, is the one-step path to
      itself. */
  lemma PaddedPlainKeyParses(pre: string, key: string, post: string)
    requires AllArraySpace(pre) && AllArraySpace(post) && PlainKey(key)
    requires forall i :: 0 <= i < |pre| ==> pre[i] != '\''
    requires forall i :: 0 <= i < |post| ==> post[i] != '\''
    ensures SqlPath(pre + key + post) == Path([Some(key)])
  {
    BareElement(pre, key, post);
    var whole := pre + key + post;
    assert whole[|pre|] == key[0];
    assert !AllArraySpace(whole);
    assert '\'' !in whole by {
      forall i | 0 <= i < |whole| ensures whole[i] != '\'' {
        if i < |pre| { assert whole[i] == pre[i]; }
        else if i < |pre| + |key| { assert whole[i] == key[i - |pre|]; }
        else { assert whole[i] == post[i - |pre| - |key|]; }
      }
    }
  }

  /** A PATCH with a value under a plain key stores the value under that
      key, on `{}` when the column was NULL. */
  lemma PlainKeyWrite(col: Option<JsonObject>, key: string, v: string)
    requires PlainKey(key)
    ensures JsonbSetText(col, key, Some(v)) == Written(Some(Coalesce(col)[key := JStr(v)]))
  {
    PaddedPlainKeyParses([], key, []);
    assert [] + key + [] == key;
  }

  /** `null`, `NULL` or `Null` as a key is a NULL step, so every non-null
      value the route sends fails the statement. */
  lemma NullKeyIsNullStep(key: string, col: Option<JsonObject>, v: string)
    requires Lower(key) == "null"
    ensures SqlPath(key) == Path([None])
    ensures JsonbSetText(col, key, Some(v)).Raises?
  {
    forall i | 0 <= i < |key| ensures key[i] in "nulNUL" {
      assert LowerChar(key[i]) == "null"[i];
    }
    assert Bare(key);
    BareElement([], key, []);
    assert [] + key + [] == key;
    assert key[0] != '\'' && !IsArraySpace(key[0]);
  }

  /** A double-quoted key may hold commas, braces and blanks; they reach
      the path as they are. */
  lemma QuotedKeyParses(s: string)
    requires forall i :: 0 <= i < |s| ==> s[i] != '"' && s[i] != '\\' && s[i] != '\''
    ensures SqlPath("\"" + s + "\"") == Path([Some(s)])
  {
    QuotedRun(s, [], []);
    var key := "\"" + s + "\"";
    assert key[0] == '"';
    assert key[1..] == s + "\"" + [];
    assert !AllArraySpace(key);
    assert Elements(key) == Quoted(key[1..], []);
    assert [] + s == s;
    assert '\'' !in s;
  }

  lemma {:induction false} QuotedRun(s: string, tail: string, acc: string)
    requires forall i :: 0 <= i < |s| ==> s[i] != '"' && s[i] != '\\'
    ensures Quoted(s + "\"" + tail, acc) == AfterQuoted(tail, acc + s)
  {
    if s == [] {
      assert s + "\"" + tail == "\"" + tail;
      assert ("\"" + tail)[1..] == tail;
      assert acc + s == acc;
    } else {
      assert (s + "\"" + tail)[1..] == s[1..] + "\"" + tail;
      QuotedRun(s[1..], tail, acc + [s[0]]);
      assert acc + [s[0]] + s[1..] == acc + s;
    }
  }

  /** A comma ends an unquoted element and starts the next. */
  lemma UnquotedComma(rest: string, acc: string, keep: nat, escaped: bool)
    requires keep <= |acc|
    ensures Unquoted([','] + rest, acc, keep, escaped) == Cons(UnquotedElement(acc[..keep], escaped), Elements(rest))
  {
    assert ([','] + rest)[1..] == rest;
  }

  /** A bare element followed by a comma. */
  lemma BareThenComma(a: string, rest: string)
    requires Bare(a)
    ensures Unquoted(a + ([','] + rest), [], 0, false) == Cons(UnquotedElement(a, false), Elements(rest))
  {
    UnquotedRun(a, [','] + rest, [], 0, false);
    assert [] + a == a;
    UnquotedComma(rest, a, |a|, false);
    assert a[..|a|] == a;
  }

  /** `a,b` is the two-step path `[a, b]`. */
  lemma TwoStepKeyParses(a: string, b: string)
    requires PlainKey(a) && PlainKey(b)
    ensures SqlPath(a + "," + b) == Path([Some(a), Some(b)])
  {
    var key := a + "," + b;
    assert key == a + ([','] + b);
    assert key[0] == a[0];
    assert !AllArraySpace(key);
    assert '\'' !in a && '\'' !in b;
    assert '\'' !in key;
    assert Elements(key) == Unquoted(key, [], 0, false);
    BareThenComma(a, b);
    BareElement([], b, []);
    assert [] + b + [] == b;
  }

  /** A two-step key makes the PATCH write nothing: below the key `a` there
      is only a scalar, and without it `create_missing` adds nothing. */
  lemma TwoStepKeyWritesNothing(a: string, b: string, col: Option<JsonObject>, v: Option<string>)
    requires PlainKey(a) && PlainKey(b)
    ensures JsonbSetText(col, a + "," + b, v) == Written(if v.Some? then Some(Coalesce(col)) else None)
  {
    TwoStepKeyParses(a, b);
  }

  /** A trailing comma leaves an empty element: the literal is refused and
      the statement fails whatever the value. */
  lemma TrailingCommaRaises(a: string, col: Option<JsonObject>, v: Option<string>)
    requires PlainKey(a)
    ensures SqlPath(a + ",").Malformed?
    ensures JsonbSetText(col, a + ",", v).Raises?
  {
    var key := a + ",";
    UnquotedRun(a, ",", [], 0, false);
    assert [] + a == a;
    assert key[0] == a[0];
    assert !AllArraySpace(key);
    assert '\'' !in a;
  }
}
