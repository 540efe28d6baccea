/** The four listing filters. Each route builds its WHERE clause by
    appending conditions to the query text and pushing bound values onto
    `params`, taking every `$n` from `params.length` right after a push.
    The query text is modelled as the list of appended conditions, each
    holding the number of the placeholder it mentions; `Eval` says which
    rows PostgreSQL keeps for a condition. */
module Filters {
  import opened Json
  import opened Boards
  import opened StatusRules
  import opened Patterns

  /** A value bound to a placeholder. */
  datatype SqlArg = IntArg(i: int) | TextArg(t: string) | IntListArg(xs: seq<int>)

  /** One ` AND <condition>` appended to the query. */
  datatype Cond =
    | BplaAmong(ph: nat)                        // b.bpla_id = ANY($n::int[])
    | BplaIs(ph: nat)                           // b.bpla_id = $n
    | NumberLike(ph: nat)                       // LOWER(TRIM(b.number)) ILIKE $n
    | ControllerIs(ph: nat)                     // b.controller_id = $n
    | SupplierIs(ph: nat)                       // b.supplier_id = $n
    | FinishedFrom(ph: nat)                     // b.finished_date >= $n
    | FinishedTo(ph: nat)                       // b.finished_date <= $n
    | StatusParam(d: ChecklistDept, ph: nat)    // b.<dept>_status = $n
    | SetupFinished                             // the seven dates are all set
    | NotSetupFinished                          // NOT of the above
    | DateSet(column: string)                   // b.<column> IS NOT NULL
    | StatusLiteral(d: ChecklistDept, s: Status) // b.<dept>_status = '<s>'
    | SummaryColorIs(c: Color)                  // status_color = '<c>'
    | CreatedToday                              // creation_date = CURRENT_DATE
    | AllParamsFilled(d: ChecklistDept, keys: seq<string>) // every key set and not ''
    | FalseCond                                 // FALSE

  /** The placeholder numbers a condition mentions, in text order. */
  function CondPlaceholders(c: Cond): (r: seq<nat>)
    ensures |r| <= 1
  {
    match c
    case BplaAmong(n) => [n]
    case BplaIs(n) => [n]
    case NumberLike(n) => [n]
    case ControllerIs(n) => [n]
    case SupplierIs(n) => [n]
    case FinishedFrom(n) => [n]
    case FinishedTo(n) => [n]
    case StatusParam(_, n) => [n]
    case _ => []
  }

  /** The placeholder numbers of a whole WHERE clause, in text order. */
  function Placeholders(cs: seq<Cond>): seq<nat>
  {
    if cs == [] then [] else Placeholders(cs[..|cs| - 1]) + CondPlaceholders(cs[|cs| - 1])
  }

  /** `[1, 2, ..., n]` */
  function Iota(n: nat): (r: seq<nat>)
    ensures |r| == n && forall i :: 0 <= i < n ==> r[i] == i + 1
  {
    seq(n, i => i + 1)
  }

  /** The value bound to `$n`, if there is one. */
  function ArgAt(args: seq<SqlArg>, n: nat): Option<SqlArg>
  {
    if 1 <= n <= |args| then Some(args[n - 1]) else None
  }

  /** `->>'k' IS NOT NULL AND ->>'k' != ''`; `->>` renders numbers and
      booleans as non-empty text. */
  predicate SqlFilledAt(obj: Option<JsonObject>, k: string)
  {
    TextNotNullAt(obj, k) && obj.value[k] != JStr("")
  }

  /** Whether PostgreSQL keeps row `b` for condition `c`. A comparison with
      NULL is not true, so it drops the row; `today` is `CURRENT_DATE`. */
  predicate Eval(c: Cond, args: seq<SqlArg>, b: Board, today: int)
  {
    match c
    case BplaAmong(n) =>
      ArgAt(args, n).Some? && ArgAt(args, n).value.IntListArg? && b.bplaId.Some? && b.bplaId.value in ArgAt(args, n).value.xs
    case BplaIs(n) =>
      ArgAt(args, n).Some? && ArgAt(args, n).value.IntArg? && b.bplaId == Some(ArgAt(args, n).value.i)
    case NumberLike(n) =>
      ArgAt(args, n).Some? && ArgAt(args, n).value.TextArg? && b.number.Some?
      && Like(Lower(ArgAt(args, n).value.t), Lower(Trim(SqlTrim, b.number.value)))
    case ControllerIs(n) =>
      ArgAt(args, n).Some? && ArgAt(args, n).value.IntArg? && b.controllerId == Some(ArgAt(args, n).value.i)
    case SupplierIs(n) =>
      ArgAt(args, n).Some? && ArgAt(args, n).value.IntArg? && b.supplierId == Some(ArgAt(args, n).value.i)
    case FinishedFrom(n) =>
      ArgAt(args, n).Some? && ArgAt(args, n).value.IntArg? && b.finishedDate.Some? && b.finishedDate.value >= ArgAt(args, n).value.i
    case FinishedTo(n) =>
      ArgAt(args, n).Some? && ArgAt(args, n).value.IntArg? && b.finishedDate.Some? && b.finishedDate.value <= ArgAt(args, n).value.i
    case StatusParam(d, n) =>
      ArgAt(args, n).Some? && ArgAt(args, n).value.TextArg? && StatusOf(b, d).Some?
      && StatusName(StatusOf(b, d).value) == ArgAt(args, n).value.t
    case SetupFinished => SetupComplete(b)
    case NotSetupFinished => !SetupComplete(b)
    case DateSet(column) => column in b.setupDates
    case StatusLiteral(d, s) => StatusOf(b, d) == Some(s)
    case SummaryColorIs(color) => SummaryColor(b) == color
    case CreatedToday => b.creationDate == Some(today)
    case AllParamsFilled(d, keys) => forall k :: k in keys ==> SqlFilledAt(Params(b, d), k)
    case FalseCond => false
  }

  /** The rows the WHERE clause keeps. */
  predicate Selects(cs: seq<Cond>, args: seq<SqlArg>, b: Board, today: int)
  {
    forall i :: 0 <= i < |cs| ==> Eval(cs[i], args, b, today)
  }

  /** How the listing is ordered. `ByDeptStatus(d)` is the order that
      `StatusRules.ListedBefore(_, _, d)` defines, proved a total preorder
      there; the other two orders compare the board number's numeric parts
      and the id, which this model does not carry. */
  datatype Order =
    | ByNumberParts                 // string_to_array(b.number, '.')::int[] ASC
    | ByDeptStatus(d: ChecklistDept) // status band, then creation_date DESC
    | ByFullyFinishedThenIdDesc     // is_fully_finished ASC, id DESC

  datatype Query = Query(conds: seq<Cond>, args: seq<SqlArg>, order: Order)

  /** A built query, or the 400 answer for a missing `bpla_id`. */
  datatype Built = Built(query: Query) | MissingBpla

  /** Every `$n` of the query names a bound value, and they appear exactly as
      `$1, $2, ..., $<params.length>`, in order. */
  predicate WellNumbered(q: Query)
  {
    Placeholders(q.conds) == Iota(|q.args|)
  }

  /** `if (x)` on an id from the request body: absent, null and 0 are falsy. */
  predicate Given(o: Option<int>)
  {
    o.Some? && o.value != 0
  }

  /** What the number filter means: the board's number, with surrounding
      spaces dropped, matches the request's trimmed number case-insensitively
      as a LIKE substring pattern. */
  predicate NumberMatches(number: string, b: Board)
  {
    b.number.Some? && Like(NumberPattern(number), Lower(Trim(SqlTrim, b.number.value)))
  }

  /** When the trimmed request number holds no pattern character, the
      number filter is a case-insensitive substring test. */
  lemma NumberFilterIsSubstring(number: string, b: Board)
    requires b.number.Some?
    requires NoWildcards(Lower(Trim(JsTrim, number)))
    ensures NumberMatches(number, b) <==> Contains(Lower(Trim(SqlTrim, b.number.value)), Lower(Trim(JsTrim, number)))
  {
    var s := Lower(Trim(JsTrim, number));
    assert NumberPattern(number) == "%" + s + "%";
    LikeContains(s, Lower(Trim(SqlTrim, b.number.value)));
  }

  /** A filter for a number made of digits and dots keeps exactly the
      boards whose stored number, once a space on each side is dropped, is
      made of digits and dots and contains it: a filter for `12.3` keeps
      ` 12.3 ` and `112.3` and drops `1.23`. */
  lemma NumberFilterKeepsContaining(n: string, m: string, padded: bool, b: Board)
    requires DigitsAndDots(n) && DigitsAndDots(m) && m != []
    requires b.number == Some(if padded then " " + m + " " else m)
    ensures NumberMatches(n, b) <==> Contains(m, n)
  {
    DigitsAndDotsRequest(n);
    DigitsAndDotsStored(m, padded);
    NumberFilterIsSubstring(n, b);
  }

  lemma DigitsAndDotsRequest(n: string)
    requires DigitsAndDots(n)
    ensures Lower(Trim(JsTrim, n)) == n && NoWildcards(n)
  {
    assert PlainNumber(n);
    PlainNumberUnchanged(n);
    forall i | 0 <= i < |n| ensures n[i] != '%' && n[i] != '_' && n[i] != '\\' {
      assert n[i] == '.' || '0' <= n[i] <= '9';
    }
  }

  lemma DigitsAndDotsStored(m: string, padded: bool)
    requires DigitsAndDots(m) && m != []
    ensures Lower(Trim(SqlTrim, if padded then " " + m + " " else m)) == m
  {
    assert PlainNumber(m);
    PlainNumberLower(m);
    if padded {
      SqlTrimPadded(m);
    } else {
      PlainNumberTrimmed(m);
    }
  }

  /** `_` in the request is not escaped: a filter for `1_3` also keeps a
      board numbered `123`. */
  lemma NumberFilterUnderscoreIsWildcard(b: Board)
    requires b.number == Some("123")
    ensures NumberMatches("1_3", b)
  {
    var n := "1_3";
    var stored := "123";
    assert PlainNumber(n) && PlainNumber(stored);
    PlainNumberPattern(n);
    assert "%" + n + "%" == "%1_3%";
    PlainNumberUnchanged(stored);
    assert Lower(Trim(SqlTrim, stored)) == stored;
    LikeOneUnderscoreThree();
  }

  // ---------------------------------------------------------------------
  // Placeholder bookkeeping
  // ---------------------------------------------------------------------

  lemma PlaceholdersAppend(cs: seq<Cond>, c: Cond)
    ensures Placeholders(cs + [c]) == Placeholders(cs) + CondPlaceholders(c)
  {
    assert (cs + [c])[..|cs|] == cs;
  }

  /** Every placeholder of a condition of the clause is a placeholder of the
      clause. */
  lemma {:induction false} PlaceholdersCover(cs: seq<Cond>, i: int, n: nat)
    requires 0 <= i < |cs| && n in CondPlaceholders(cs[i])
    ensures n in Placeholders(cs)
  {
    if i < |cs| - 1 {
      var front := cs[..|cs| - 1];
      assert front[i] == cs[i];
      PlaceholdersCover(front, i, n);
    }
  }

  /** Binding more values does not change what the existing, well-numbered
      conditions keep. */
  lemma SelectsStable(cs: seq<Cond>, args: seq<SqlArg>, v: SqlArg, b: Board, today: int)
    requires Placeholders(cs) == Iota(|args|)
    ensures Selects(cs, args + [v], b, today) <==> Selects(cs, args, b, today)
  {
    forall i | 0 <= i < |cs| ensures Eval(cs[i], args + [v], b, today) == Eval(cs[i], args, b, today) {
      if CondPlaceholders(cs[i]) != [] {
        var n := CondPlaceholders(cs[i])[0];
        PlaceholdersCover(cs, i, n);
        assert ArgAt(args + [v], n) == ArgAt(args, n);
      }
    }
  }

  /** `params.push(v); query += <cond with $<params.length>>` keeps the
      numbering and adds the condition. */
  lemma PushAndBind(cs: seq<Cond>, args: seq<SqlArg>, v: SqlArg, c: Cond)
    requires Placeholders(cs) == Iota(|args|)
    requires CondPlaceholders(c) == [|args| + 1]
    ensures Placeholders(cs + [c]) == Iota(|args + [v]|)
    ensures forall b, today :: Selects(cs + [c], args + [v], b, today) <==>
      Selects(cs, args, b, today) && Eval(c, args + [v], b, today)
  {
    PlaceholdersAppend(cs, c);
    assert Iota(|args|) + [|args| + 1] == Iota(|args| + 1);
    forall b, today ensures Selects(cs + [c], args + [v], b, today) <==>
      Selects(cs, args, b, today) && Eval(c, args + [v], b, today) {
      SelectsStable(cs, args, v, b, today);
      assert forall i :: 0 <= i < |cs| ==> (cs + [c])[i] == cs[i];
      assert (cs + [c])[|cs|] == c;
    }
  }

  /** `query += <cond without placeholder>` keeps the numbering. */
  lemma AppendUnbound(cs: seq<Cond>, args: seq<SqlArg>, c: Cond)
    requires CondPlaceholders(c) == []
    ensures Placeholders(cs + [c]) == Placeholders(cs)
    ensures forall b, today :: Selects(cs + [c], args, b, today) <==>
      Selects(cs, args, b, today) && Eval(c, args, b, today)
  {
    PlaceholdersAppend(cs, c);
    forall b, today ensures Selects(cs + [c], args, b, today) <==>
      Selects(cs, args, b, today) && Eval(c, args, b, today) {
      assert forall i :: 0 <= i < |cs| ==> (cs + [c])[i] == cs[i];
      assert (cs + [c])[|cs|] == c;
    }
  }

  // ---------------------------------------------------------------------
  // POST /api/boards/filter
  // ---------------------------------------------------------------------

  datatype BoardsFilterRequest = BoardsFilterRequest(
    number: string,
    controllerId: Option<int>,
    dateFrom: Option<int>,
    dateTo: Option<int>,
    bplaId: Option<int>,
    traction: bool, angle: bool, acceleration: bool, osd: bool,
    osdConfigured: bool, plugs: bool, engineStart: bool,
    status: string)

  /** The setup date columns whose flags the request sets, in column order. */
  function RequestedDates(req: BoardsFilterRequest): set<string>
  {
    (if req.traction then {"traction_date"} else {})
    + (if req.angle then {"angle_date"} else {})
    + (if req.acceleration then {"acceleration_date"} else {})
    + (if req.osd then {"osd_date"} else {})
    + (if req.osdConfigured then {"osd_configured_date"} else {})
    + (if req.plugs then {"plugs_date"} else {})
    + (if req.engineStart then {"engine_start_date"} else {})
  }

  /** Which boards `/api/boards/filter` is meant to return. `children` is the
      answer of the child-type lookup, `None` when that lookup failed (the
      type filter is then dropped). A `finished` or `in_progress` status
      decides on the seven dates and the per-date flags are ignored. */
  predicate BoardsFilterKeeps(req: BoardsFilterRequest, children: Option<seq<int>>, b: Board)
  {
    TypePart(req, children, b) && NumberPart(req.number, b) && IdPart(req.controllerId, b.controllerId)
    && FinishedFromPart(req, b) && FinishedToPart(req, b) && SetupStatusPart(req, b)
  }

  predicate TypePart(req: BoardsFilterRequest, children: Option<seq<int>>, b: Board)
  {
    Given(req.bplaId) && children.Some? ==> b.bplaId.Some? && b.bplaId.value in [req.bplaId.value] + children.value
  }

  predicate NumberPart(number: string, b: Board)
  {
    number != "" ==> NumberMatches(number, b)
  }

  /** `if (id) ... AND <column> = $n`: a falsy id leaves the column free. */
  predicate IdPart(id: Option<int>, column: Option<int>)
  {
    Given(id) ==> column == id
  }

  predicate FinishedFromPart(req: BoardsFilterRequest, b: Board)
  {
    req.dateFrom.Some? ==> b.finishedDate.Some? && b.finishedDate.value >= req.dateFrom.value
  }

  predicate FinishedToPart(req: BoardsFilterRequest, b: Board)
  {
    req.dateTo.Some? ==> b.finishedDate.Some? && b.finishedDate.value <= req.dateTo.value
  }

  predicate SetupStatusPart(req: BoardsFilterRequest, b: Board)
  {
    if req.status == "finished" then SetupComplete(b)
    else if req.status == "in_progress" then !SetupComplete(b)
    else forall c :: c in RequestedDates(req) ==> c in b.setupDates
  }

  /** The bound pattern is already lower case, so `ILIKE` compares it as
      written. */
  lemma NumberPatternIsLower(number: string)
    ensures Lower(NumberPattern(number)) == NumberPattern(number)
  {
    var x := Lower(Trim(JsTrim, number));
    LowerIdempotent(Trim(JsTrim, number));
    var p := NumberPattern(number);
    assert p == "%" + x + "%";
    forall i | 0 <= i < |p| ensures Lower(p)[i] == p[i] {
      if 0 < i < |p| - 1 {
        assert p[i] == x[i - 1] && Lower(x)[i - 1] == x[i - 1];
      }
    }
  }

  /** `if (bpla_id)`: the type and its children. */
  method FilterByType(req: BoardsFilterRequest, children: Option<seq<int>>) returns (cs: seq<Cond>, args: seq<SqlArg>)
    ensures Placeholders(cs) == Iota(|args|)
    ensures forall b, today :: Selects(cs, args, b, today) <==> TypePart(req, children, b)
    ensures Given(req.bplaId) && children.Some? ==>
      cs == [BplaAmong(1)] && args == [IntListArg([req.bplaId.value] + children.value)]
    ensures !(Given(req.bplaId) && children.Some?) ==> cs == [] && args == []
  {
    cs, args := [], [];
    if Given(req.bplaId) && children.Some? {
      var v := IntListArg([req.bplaId.value] + children.value);
      PushAndBind(cs, args, v, BplaAmong(1));
      args := args + [v];
      cs := cs + [BplaAmong(|args|)];
      assert ArgAt(args, 1) == Some(v);
    }
  }

  /** `if (number)`: the case-insensitive substring pattern. */
  method FilterByNumber(number: string, cs: seq<Cond>, args: seq<SqlArg>) returns (cs': seq<Cond>, args': seq<SqlArg>)
    requires Placeholders(cs) == Iota(|args|)
    ensures Placeholders(cs') == Iota(|args'|)
    ensures forall b, today :: Selects(cs', args', b, today) <==> Selects(cs, args, b, today) && NumberPart(number, b)
    ensures number != "" ==> args' == args + [TextArg(NumberPattern(number))] && cs' == cs + [NumberLike(|args'|)]
    ensures number == "" ==> cs' == cs && args' == args
  {
    cs', args' := cs, args;
    if number != "" {
      var v := TextArg(NumberPattern(number));
      PushAndBind(cs, args, v, NumberLike(|args| + 1));
      args' := args + [v];
      cs' := cs + [NumberLike(|args'|)];
      assert ArgAt(args', |args'|) == Some(v);
      NumberPatternIsLower(number);
    }
  }

  /** `if (controller_id)` */
  method FilterByController(controllerId: Option<int>, cs: seq<Cond>, args: seq<SqlArg>) returns (cs': seq<Cond>, args': seq<SqlArg>)
    requires Placeholders(cs) == Iota(|args|)
    ensures Placeholders(cs') == Iota(|args'|)
    ensures forall b, today :: Selects(cs', args', b, today) <==> Selects(cs, args, b, today) && IdPart(controllerId, b.controllerId)
  {
    cs', args' := cs, args;
    if Given(controllerId) {
      var v := IntArg(controllerId.value);
      PushAndBind(cs, args, v, ControllerIs(|args| + 1));
      args' := args + [v];
      cs' := cs + [ControllerIs(|args'|)];
      assert ArgAt(args', |args'|) == Some(v);
    }
  }

  /** `if (supplier_id)` */
  method FilterBySupplier(supplierId: Option<int>, cs: seq<Cond>, args: seq<SqlArg>) returns (cs': seq<Cond>, args': seq<SqlArg>)
    requires Placeholders(cs) == Iota(|args|)
    ensures Placeholders(cs') == Iota(|args'|)
    ensures forall b, today :: Selects(cs', args', b, today) <==> Selects(cs, args, b, today) && IdPart(supplierId, b.supplierId)
  {
    cs', args' := cs, args;
    if Given(supplierId) {
      var v := IntArg(supplierId.value);
      PushAndBind(cs, args, v, SupplierIs(|args| + 1));
      args' := args + [v];
      cs' := cs + [SupplierIs(|args'|)];
      assert ArgAt(args', |args'|) == Some(v);
    }
  }

  /** `if (bpla_id)` on the summary page: the type itself, without its
      children. */
  method FilterByTypeOnly(bplaId: Option<int>, cs: seq<Cond>, args: seq<SqlArg>) returns (cs': seq<Cond>, args': seq<SqlArg>)
    requires Placeholders(cs) == Iota(|args|)
    ensures Placeholders(cs') == Iota(|args'|)
    ensures forall b, today :: Selects(cs', args', b, today) <==> Selects(cs, args, b, today) && IdPart(bplaId, b.bplaId)
  {
    cs', args' := cs, args;
    if Given(bplaId) {
      var v := IntArg(bplaId.value);
      PushAndBind(cs, args, v, BplaIs(|args| + 1));
      args' := args + [v];
      cs' := cs + [BplaIs(|args'|)];
      assert ArgAt(args', |args'|) == Some(v);
    }
  }

  /** `if (date_from)` */
  method FilterByFinishedFrom(req: BoardsFilterRequest, cs: seq<Cond>, args: seq<SqlArg>) returns (cs': seq<Cond>, args': seq<SqlArg>)
    requires Placeholders(cs) == Iota(|args|)
    ensures Placeholders(cs') == Iota(|args'|)
    ensures forall b, today :: Selects(cs', args', b, today) <==> Selects(cs, args, b, today) && FinishedFromPart(req, b)
  {
    cs', args' := cs, args;
    if req.dateFrom.Some? {
      var v := IntArg(req.dateFrom.value);
      PushAndBind(cs, args, v, FinishedFrom(|args| + 1));
      args' := args + [v];
      cs' := cs + [FinishedFrom(|args'|)];
      assert ArgAt(args', |args'|) == Some(v);
    }
  }

  /** `if (date_to)` */
  method FilterByFinishedTo(req: BoardsFilterRequest, cs: seq<Cond>, args: seq<SqlArg>) returns (cs': seq<Cond>, args': seq<SqlArg>)
    requires Placeholders(cs) == Iota(|args|)
    ensures Placeholders(cs') == Iota(|args'|)
    ensures forall b, today :: Selects(cs', args', b, today) <==> Selects(cs, args, b, today) && FinishedToPart(req, b)
  {
    cs', args' := cs, args;
    if req.dateTo.Some? {
      var v := IntArg(req.dateTo.value);
      PushAndBind(cs, args, v, FinishedTo(|args| + 1));
      args' := args + [v];
      cs' := cs + [FinishedTo(|args'|)];
      assert ArgAt(args', |args'|) == Some(v);
    }
  }

  /** Appends `b.<column> IS NOT NULL` when the flag is set. */
  method AddDateFlag(cs: seq<Cond>, ghost args: seq<SqlArg>, flag: bool, column: string) returns (cs': seq<Cond>)
    ensures Placeholders(cs') == Placeholders(cs)
    ensures forall b, today :: Selects(cs', args, b, today) <==>
      Selects(cs, args, b, today) && (flag ==> column in b.setupDates)
  {
    cs' := cs;
    if flag {
      AppendUnbound(cs, args, DateSet(column));
      cs' := cs + [DateSet(column)];
    }
  }

  lemma RequestedDatesSet(req: BoardsFilterRequest, b: Board)
    ensures (forall c :: c in RequestedDates(req) ==> c in b.setupDates) <==>
      && (req.traction ==> "traction_date" in b.setupDates)
      && (req.angle ==> "angle_date" in b.setupDates)
      && (req.acceleration ==> "acceleration_date" in b.setupDates)
      && (req.osd ==> "osd_date" in b.setupDates)
      && (req.osdConfigured ==> "osd_configured_date" in b.setupDates)
      && (req.plugs ==> "plugs_date" in b.setupDates)
      && (req.engineStart ==> "engine_start_date" in b.setupDates)
  {
  }

  /** The per-date flags, each appended on its own. */
  method FilterByDateFlags(req: BoardsFilterRequest, cs: seq<Cond>, ghost args: seq<SqlArg>) returns (cs': seq<Cond>)
    ensures Placeholders(cs') == Placeholders(cs)
    ensures forall b, today :: Selects(cs', args, b, today) <==>
      Selects(cs, args, b, today) && forall c :: c in RequestedDates(req) ==> c in b.setupDates
  {
    var cs1 := AddDateFlag(cs, args, req.traction, "traction_date");
    var cs2 := AddDateFlag(cs1, args, req.angle, "angle_date");
    var cs3 := AddDateFlag(cs2, args, req.acceleration, "acceleration_date");
    var cs4 := AddDateFlag(cs3, args, req.osd, "osd_date");
    var cs5 := AddDateFlag(cs4, args, req.osdConfigured, "osd_configured_date");
    var cs6 := AddDateFlag(cs5, args, req.plugs, "plugs_date");
    cs' := AddDateFlag(cs6, args, req.engineStart, "engine_start_date");
    forall b, today ensures Selects(cs', args, b, today) <==>
      Selects(cs, args, b, today) && forall c :: c in RequestedDates(req) ==> c in b.setupDates
    {
      RequestedDatesSet(req, b);
    }
  }

  /** The overall `finished` / `in_progress` status takes precedence over
      the per-date flags. */
  method FilterBySetupStatus(req: BoardsFilterRequest, cs: seq<Cond>, ghost args: seq<SqlArg>) returns (cs': seq<Cond>)
    ensures Placeholders(cs') == Placeholders(cs)
    ensures forall b, today :: Selects(cs', args, b, today) <==> Selects(cs, args, b, today) && SetupStatusPart(req, b)
  {
    if req.status == "finished" {
      AppendUnbound(cs, args, SetupFinished);
      cs' := cs + [SetupFinished];
    } else if req.status == "in_progress" {
      AppendUnbound(cs, args, NotSetupFinished);
      cs' := cs + [NotSetupFinished];
    } else {
      cs' := FilterByDateFlags(req, cs, args);
    }
  }

  /** `POST /api/boards/filter`: the WHERE clause keeps exactly the boards
      the request asks for, and its placeholders are numbered in order. */
  method BuildBoardsFilter(req: BoardsFilterRequest, children: Option<seq<int>>) returns (q: Query)
    ensures WellNumbered(q) && q.order == ByNumberParts
    ensures forall b, today :: Selects(q.conds, q.args, b, today) <==> BoardsFilterKeeps(req, children, b)
  {
    var cs0, args0 := FilterByType(req, children);
    var cs1, args1 := FilterByNumber(req.number, cs0, args0);
    var cs2, args2 := FilterByController(req.controllerId, cs1, args1);
    var cs3, args3 := FilterByFinishedFrom(req, cs2, args2);
    var cs4, args4 := FilterByFinishedTo(req, cs3, args3);
    var cs5 := FilterBySetupStatus(req, cs4, args4);
    q := Query(cs5, args4, ByNumberParts);
  }

  // ---------------------------------------------------------------------
  // Listings that start from one UAV type: POST /api/electrical/filter
  // and POST /api/workshop/filter
  // ---------------------------------------------------------------------

  /** `WHERE b.bpla_id = $1` with `params = [bpla_id]`. */
  method StartWithType(bplaId: int) returns (cs: seq<Cond>, args: seq<SqlArg>)
    ensures Placeholders(cs) == Iota(|args|)
    ensures forall b, today :: Selects(cs, args, b, today) <==> b.bplaId == Some(bplaId)
  {
    PushAndBind([], [], IntArg(bplaId), BplaIs(1));
    cs, args := [BplaIs(1)], [IntArg(bplaId)];
    assert [] + [BplaIs(1)] == cs && [] + [IntArg(bplaId)] == args;
  }

  /** The status names the electrical filter recognises. */
  function StatusNamed(s: string): (r: Option<Status>)
    ensures r.Some? <==> s in {"in_progress", "finished", "semifinished"}
    ensures r.Some? ==> StatusName(r.value) == s
  {
    if s == "in_progress" then Some(InProgress)
    else if s == "finished" then Some(Finished)
    else if s == "semifinished" then Some(Semifinished)
    else None
  }

  datatype ElectricalFilterRequest = ElectricalFilterRequest(
    bplaId: Option<int>, status: string, number: string, supplierId: Option<int>)

  /** Which boards `/api/electrical/filter` is meant to return: boards of the
      type, by number and supplier; a known status name fixes the electrical
      status and any other status is ignored. */
  predicate ElectricalFilterKeeps(req: ElectricalFilterRequest, b: Board)
  {
    b.bplaId == req.bplaId && NumberPart(req.number, b) && IdPart(req.supplierId, b.supplierId)
    && (StatusNamed(req.status).Some? ==> StatusOf(b, Electrical) == StatusNamed(req.status))
  }

  /** The three `if (status === ...)` tests, each appending a literal. */
  method FilterByElectricalStatus(status: string, cs: seq<Cond>, ghost args: seq<SqlArg>) returns (cs': seq<Cond>)
    ensures Placeholders(cs') == Placeholders(cs)
    ensures forall b, today :: Selects(cs', args, b, today) <==>
      Selects(cs, args, b, today) && (StatusNamed(status).Some? ==> StatusOf(b, Electrical) == StatusNamed(status))
  {
    cs' := cs;
    var named := StatusNamed(status);
    if named.Some? {
      AppendUnbound(cs, args, StatusLiteral(Electrical, named.value));
      cs' := cs + [StatusLiteral(Electrical, named.value)];
    }
  }

  /** `POST /api/electrical/filter`: 400 without a type; otherwise the
      WHERE clause keeps exactly the boards the request asks for. */
  method BuildElectricalFilter(req: ElectricalFilterRequest) returns (r: Built)
    ensures r.MissingBpla? <==> !Given(req.bplaId)
    ensures r.Built? ==> WellNumbered(r.query) && r.query.order == ByDeptStatus(Electrical)
    ensures r.Built? ==> forall b, today :: Selects(r.query.conds, r.query.args, b, today) <==> ElectricalFilterKeeps(req, b)
  {
    if !Given(req.bplaId) {
      return MissingBpla;
    }
    var cs0, args0 := StartWithType(req.bplaId.value);
    var cs1, args1 := FilterByNumber(req.number, cs0, args0);
    var cs2, args2 := FilterBySupplier(req.supplierId, cs1, args1);
    var cs3 := FilterByElectricalStatus(req.status, cs2, args2);
    r := Built(Query(cs3, args2, ByDeptStatus(Electrical)));
  }

  /** The `isFinishedCondition` the electrical filter builds from the keys of
      the type's `electrical_config.params`: every key filled, or `FALSE`
      when there are no keys. The route builds it but never appends it to
      the query. */
  function ElectricalFinishedCondition(keys: seq<string>): (r: Cond)
    ensures r == FalseCond <==> keys == []
    ensures CondPlaceholders(r) == []
    ensures forall args, b, today :: keys != [] ==>
      (Eval(r, args, b, today) <==> forall k :: k in keys ==> SqlFilledAt(Params(b, Electrical), k))
  {
    if keys == [] then FalseCond else AllParamsFilled(Electrical, keys)
  }

  /** A board the condition keeps passes the recalculation's test; with keys
      that are not inherited member names the two agree. With no keys the
      condition keeps no board while the recalculation calls every such
      board finished. */
  lemma ElectricalFinishedConditionVsRecalc(keys: seq<string>, args: seq<SqlArg>, b: Board, today: int)
    ensures keys != [] && Eval(ElectricalFinishedCondition(keys), args, b, today) ==>
      AllFilled((set k | k in keys), Params(b, Electrical))
    ensures keys != [] && (forall i :: 0 <= i < |keys| ==> keys[i] !in InheritedMembers) ==>
      (Eval(ElectricalFinishedCondition(keys), args, b, today) <==> AllFilled((set k | k in keys), Params(b, Electrical)))
    ensures keys == [] ==> !Eval(ElectricalFinishedCondition(keys), args, b, today) && AllFilled((set k | k in keys), Params(b, Electrical))
  {
    assert forall k :: SqlFilledAt(Params(b, Electrical), k) ==> FilledAt(Params(b, Electrical), k);
    assert forall k :: k !in InheritedMembers ==> (SqlFilledAt(Params(b, Electrical), k) <==> FilledAt(Params(b, Electrical), k));
  }

  /** The SQL test and the recalculation disagree on a key named after an
      inherited member: `->>'constructor'` of `{}` is NULL, while
      `paramsData['constructor']` is a function. */
  lemma InheritedKeySplitsConditionFromRecalc(args: seq<SqlArg>, b: Board, today: int)
    requires Params(b, Electrical) == Some(map[])
    ensures !Eval(ElectricalFinishedCondition(["constructor"]), args, b, today)
    ensures AllFilled({"constructor"}, Params(b, Electrical))
  {
    assert !SqlFilledAt(Params(b, Electrical), "constructor");
  }

  datatype WorkshopFilterRequest = WorkshopFilterRequest(bplaId: Option<int>, status: string)

  /** Which boards `/api/workshop/filter` is meant to return: boards of the
      type whose workshop status, when one is given, has that name. */
  predicate WorkshopFilterKeeps(req: WorkshopFilterRequest, b: Board)
  {
    b.bplaId == req.bplaId
    && (req.status != "" ==> StatusOf(b, Workshop).Some? && StatusName(StatusOf(b, Workshop).value) == req.status)
  }

  /** `if (status)`: the placeholder is numbered before the push. */
  method FilterByWorkshopStatus(status: string, cs: seq<Cond>, args: seq<SqlArg>) returns (cs': seq<Cond>, args': seq<SqlArg>)
    requires Placeholders(cs) == Iota(|args|)
    ensures Placeholders(cs') == Iota(|args'|)
    ensures forall b, today :: Selects(cs', args', b, today) <==>
      Selects(cs, args, b, today)
      && (status != "" ==> StatusOf(b, Workshop).Some? && StatusName(StatusOf(b, Workshop).value) == status)
  {
    cs', args' := cs, args;
    if status != "" {
      var c := StatusParam(Workshop, |args| + 1);
      var v := TextArg(status);
      PushAndBind(cs, args, v, c);
      cs' := cs + [c];
      args' := args + [v];
      assert ArgAt(args', |args'|) == Some(v);
    }
  }

  /** `POST /api/workshop/filter`: 400 without a type; the status is not
      checked against the known names. */
  method BuildWorkshopFilter(req: WorkshopFilterRequest) returns (r: Built)
    ensures r.MissingBpla? <==> !Given(req.bplaId)
    ensures r.Built? ==> WellNumbered(r.query) && r.query.order == ByDeptStatus(Workshop)
    ensures r.Built? ==> forall b, today :: Selects(r.query.conds, r.query.args, b, today) <==> WorkshopFilterKeeps(req, b)
  {
    if !Given(req.bplaId) {
      return MissingBpla;
    }
    var cs0, args0 := StartWithType(req.bplaId.value);
    var cs1, args1 := FilterByWorkshopStatus(req.status, cs0, args0);
    r := Built(Query(cs1, args1, ByDeptStatus(Workshop)));
  }

  /** A workshop status that names no status keeps no board at all. */
  lemma UnknownWorkshopStatusKeepsNothing(req: WorkshopFilterRequest, b: Board)
    requires req.status != "" && StatusNamed(req.status).None?
    ensures !WorkshopFilterKeeps(req, b)
  {
  }

  // ---------------------------------------------------------------------
  // POST /api/summary/filter
  // ---------------------------------------------------------------------

  datatype SummaryFilterRequest = SummaryFilterRequest(
    number: string, supplierId: Option<int>, bplaId: Option<int>, status: string)

  /** The summary status filter: `finished` is green, `overdue` red, `today`
      an orange board created today; any other status is ignored. */
  predicate SummaryStatusPart(status: string, b: Board, today: int)
  {
    if status == "finished" then SummaryColor(b) == Green
    else if status == "overdue" then SummaryColor(b) == Red
    else if status == "today" then SummaryColor(b) == Orange && b.creationDate == Some(today)
    else true
  }

  /** Which boards `/api/summary/filter` is meant to return. */
  predicate SummaryFilterKeeps(req: SummaryFilterRequest, b: Board, today: int)
  {
    NumberPart(req.number, b) && IdPart(req.supplierId, b.supplierId) && IdPart(req.bplaId, b.bplaId)
    && SummaryStatusPart(req.status, b, today)
  }

  method FilterBySummaryStatus(status: string, cs: seq<Cond>, ghost args: seq<SqlArg>) returns (cs': seq<Cond>)
    ensures Placeholders(cs') == Placeholders(cs)
    ensures forall b, today :: Selects(cs', args, b, today) <==> Selects(cs, args, b, today) && SummaryStatusPart(status, b, today)
  {
    cs' := cs;
    if status != "" {
      if status == "finished" {
        AppendUnbound(cs, args, SummaryColorIs(Green));
        cs' := cs + [SummaryColorIs(Green)];
      } else if status == "overdue" {
        AppendUnbound(cs, args, SummaryColorIs(Red));
        cs' := cs + [SummaryColorIs(Red)];
      } else if status == "today" {
        AppendUnbound(cs, args, SummaryColorIs(Orange));
        var cs1 := cs + [SummaryColorIs(Orange)];
        AppendUnbound(cs1, args, CreatedToday);
        cs' := cs1 + [CreatedToday];
      }
    }
  }

  /** `POST /api/summary/filter`: the WHERE clause keeps exactly the boards
      the request asks for, and its placeholders are numbered in order. */
  method BuildSummaryFilter(req: SummaryFilterRequest) returns (q: Query)
    ensures WellNumbered(q) && q.order == ByFullyFinishedThenIdDesc
    ensures forall b, today :: Selects(q.conds, q.args, b, today) <==> SummaryFilterKeeps(req, b, today)
  {
    var cs1, args1 := FilterByNumber(req.number, [], []);
    var cs2, args2 := FilterBySupplier(req.supplierId, cs1, args1);
    var cs3, args3 := FilterByTypeOnly(req.bplaId, cs2, args2);
    var cs4 := FilterBySummaryStatus(req.status, cs3, args3);
    q := Query(cs4, args3, ByFullyFinishedThenIdDesc);
  }

  /** The summary's `finished` filter and the department listings disagree:
      a board can be green on the summary while both department statuses
      are still in progress, because the summary reads `is_fully_finished`. */
  lemma SummaryFinishedIgnoresDepartments(b: Board, today: int)
    requires b.isFullyFinished == Some(true)
    requires b.workshopStatus == Some(InProgress) && b.electricalStatus == Some(InProgress)
    ensures SummaryStatusPart("finished", b, today)
    ensures DeptColor(StatusOf(b, Workshop)) == Orange && DeptColor(StatusOf(b, Electrical)) == Orange
  {
  }
}
