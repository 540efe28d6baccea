/** JSON values, JSONB column updates and the string operations the server
    applies to request fields before they reach SQL. */
module Json {

  datatype Option<+T> = None | Some(value: T)

  /** A JSON scalar as it appears in a request body or as a value inside a
      JSONB object column (floating-point numbers are not modelled). */
  datatype JsonValue = JNull | JStr(s: string) | JNum(n: int) | JBool(b: bool)

  /** A JSONB object column such as `workshop_params` or `*_comments`. */
  type JsonObject = map<string, JsonValue>

  /** JavaScript truthiness of a JSON scalar (`if (x)`, `!x`). */
  predicate Truthy(v: JsonValue)
  {
    match v
    case JNull => false
    case JStr(s) => s != ""
    case JNum(n) => n != 0
    case JBool(b) => b
  }

  /** `COALESCE(col, '{}'::jsonb)` */
  function Coalesce(col: Option<JsonObject>): JsonObject
  {
    if col.Some? then col.value else map[]
  }

  /** Property names every JavaScript object inherits from
      `Object.prototype`; looking one of them up on an object that does not
      have it as its own key yields a function or an object, never `null`,
      `undefined` or `''`. */
  const InheritedMembers: set<string> := {
    "constructor", "__proto__", "hasOwnProperty", "isPrototypeOf", "propertyIsEnumerable",
    "toString", "valueOf", "toLocaleString", "__defineGetter__", "__defineSetter__",
    "__lookupGetter__", "__lookupSetter__"}

  /** The JavaScript test `obj?.[k] != null && obj?.[k] !== ''` on a parsed
      JSONB column: a NULL column fails; an own key passes unless its value
      is null or the empty string; a missing key passes exactly when it names
      an inherited member. */
  predicate FilledAt(obj: Option<JsonObject>, k: string)
  {
    obj.Some? && (if k in obj.value then obj.value[k] != JNull && obj.value[k] != JStr("") else k in InheritedMembers)
  }

  /** The SQL test `col->>'k' IS NOT NULL`: the column is not NULL, the key is
      present and its value is not JSON null (an empty string passes). */
  predicate TextNotNullAt(obj: Option<JsonObject>, k: string)
  {
    obj.Some? && k in obj.value && obj.value[k] != JNull
  }

  /** Characters removed by ECMAScript `String.prototype.trim`
      (WhiteSpace and LineTerminator). */
  predicate IsJsWhitespace(c: char)
  {
    c == '\t' || c == '\n' || c == '\r' || c == '\U{B}' || c == '\U{C}' || c == ' '
    || c == '\U{A0}' || c == '\U{1680}' || ('\U{2000}' <= c <= '\U{200A}')
    || c == '\U{2028}' || c == '\U{2029}' || c == '\U{202F}' || c == '\U{205F}'
    || c == '\U{3000}' || c == '\U{FEFF}'
  }

  /** Which characters a trim removes: JavaScript's `trim()`, SQL's
      `TRIM(x)`, which removes spaces only, or the whitespace PostgreSQL's
      lexer skips before a token (space, tab, newline, carriage return and
      form feed). */
  datatype TrimRule = JsTrim | SqlTrim | SqlSpace

  predicate Trimmable(rule: TrimRule, c: char)
  {
    match rule
    case JsTrim => IsJsWhitespace(c)
    case SqlTrim => c == ' '
    case SqlSpace => c == ' ' || c == '\t' || c == '\n' || c == '\r' || c == '\U{C}'
  }

  function TrimStart(rule: TrimRule, s: string): (r: string)
    ensures |r| <= |s| && r == s[|s| - |r|..]
    ensures r != [] ==> !Trimmable(rule, r[0])
    ensures forall i :: 0 <= i < |s| - |r| ==> Trimmable(rule, s[i])
  {
    if s != [] && Trimmable(rule, s[0]) then TrimStart(rule, s[1..]) else s
  }

  function TrimEnd(rule: TrimRule, s: string): (r: string)
    ensures |r| <= |s| && r == s[..|r|]
    ensures r != [] ==> !Trimmable(rule, r[|r| - 1])
    ensures forall i :: |r| <= i < |s| ==> Trimmable(rule, s[i])
  {
    if s != [] && Trimmable(rule, s[|s| - 1]) then TrimEnd(rule, s[..|s| - 1]) else s
  }

  /** `r` is a slice of `s` with nothing but trimmable characters outside
      it. */
  predicate IsTrimmedSlice(rule: TrimRule, s: string, r: string)
  {
    exists i, j :: (0 <= i <= j <= |s| && r == s[i..j]
      && (forall k :: 0 <= k < i ==> Trimmable(rule, s[k]))
      && (forall k :: j <= k < |s| ==> Trimmable(rule, s[k])))
  }

  /** Removes trimmable characters at both ends. */
  function Trim(rule: TrimRule, s: string): (r: string)
    ensures IsTrimmedSlice(rule, s, r)
    ensures r != [] ==> !Trimmable(rule, r[0]) && !Trimmable(rule, r[|r| - 1])
    ensures (forall i :: 0 <= i < |s| ==> !Trimmable(rule, s[i])) ==> r == s
  {
    TrimCutsSlice(rule, s, TrimStart(rule, s), TrimEnd(rule, TrimStart(rule, s)));
    TrimEndsUntrimmable(rule, s);
    TrimKeepsUntrimmable(rule, s);
    TrimEnd(rule, TrimStart(rule, s))
  }

  /** Cutting trimmable characters off the front of `s` and then off the
      back leaves a trimmed slice of `s`. */
  lemma TrimCutsSlice(rule: TrimRule, s: string, t: string, r: string)
    requires |t| <= |s| && t == s[|s| - |t|..]
    requires forall i :: 0 <= i < |s| - |t| ==> Trimmable(rule, s[i])
    requires |r| <= |t| && r == t[..|r|]
    requires forall i :: |r| <= i < |t| ==> Trimmable(rule, t[i])
    ensures IsTrimmedSlice(rule, s, r)
  {
    var i := |s| - |t|;
    PrefixOfSuffix(s, i, |r|);
    SuffixTrimmable(rule, s, i, t, |r|);
    TrimmedSlice(rule, s, i, i + |r|, r);
  }

  lemma PrefixOfSuffix(s: string, i: nat, m: nat)
    requires i + m <= |s|
    ensures s[i..][..m] == s[i..i + m]
  {
  }

  lemma TrimEndsUntrimmable(rule: TrimRule, s: string)
    ensures var r := TrimEnd(rule, TrimStart(rule, s));
      r != [] ==> !Trimmable(rule, r[0]) && !Trimmable(rule, r[|r| - 1])
  {
    var t := TrimStart(rule, s);
    var r := TrimEnd(rule, t);
    if r != [] {
      assert r[0] == t[0];
    }
  }

  /** What is trimmable past position `m` of a suffix `t` of `s` is
      trimmable past position `i + m` of `s`. */
  lemma SuffixTrimmable(rule: TrimRule, s: string, i: nat, t: string, m: nat)
    requires i <= |s| && t == s[i..] && m <= |t|
    requires forall k :: m <= k < |t| ==> Trimmable(rule, t[k])
    ensures forall k :: i + m <= k < |s| ==> Trimmable(rule, s[k])
  {
    forall k | i + m <= k < |s| ensures Trimmable(rule, s[k]) {
      assert s[k] == t[k - i];
    }
  }

  /** A slice whose outside is trimmable witnesses the first property of
      `Trim`. */
  lemma TrimmedSlice(rule: TrimRule, s: string, i: nat, j: nat, r: string)
    requires i <= j <= |s| && r == s[i..j]
    requires forall k :: 0 <= k < i ==> Trimmable(rule, s[k])
    requires forall k :: j <= k < |s| ==> Trimmable(rule, s[k])
    ensures IsTrimmedSlice(rule, s, r)
  {
  }

  /** A string without trimmable characters is its own trim. */
  lemma TrimKeepsUntrimmable(rule: TrimRule, s: string)
    ensures (forall k :: 0 <= k < |s| ==> !Trimmable(rule, s[k])) ==> TrimEnd(rule, TrimStart(rule, s)) == s
  {
    if forall k :: 0 <= k < |s| ==> !Trimmable(rule, s[k]) {
      var t := TrimStart(rule, s);
      if s != [] {
        assert !Trimmable(rule, s[0]);
        assert !Trimmable(rule, s[|s| - 1]);
      }
      assert t == s;
    }
  }

  /** Lower-casing of ASCII letters; other characters are kept. */
  function LowerChar(c: char): char
  {
    if 'A' <= c <= 'Z' then (c as int + 32) as char else c
  }

  function Lower(s: string): (r: string)
    ensures |r| == |s|
    ensures forall i :: 0 <= i < |s| ==> r[i] == LowerChar(s[i])
  {
    seq(|s|, i requires 0 <= i < |s| => LowerChar(s[i]))
  }

  predicate StartsWith(s: string, prefix: string)
  {
    |prefix| <= |s| && s[..|prefix|] == prefix
  }

  predicate EndsWith(s: string, suffix: string)
  {
    |suffix| <= |s| && s[|s| - |suffix|..] == suffix
  }
}
