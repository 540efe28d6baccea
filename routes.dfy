/** What each board-writing route does to one row, as functions of the row
    before the request, and the request checks that run before any write.
    The class in store.dfy applies these steps to its map of boards. */
module Routes {
  import opened Json
  import opened Boards
  import opened StatusRules
  import opened JsonbPath

  /** `${parameter}` inside a template literal: an absent field prints as
      `undefined`. */
  function KeyText(p: Option<string>): string
  {
    if p.Some? then p.value else "undefined"
  }

  /** The UPDATE of `PATCH /api/<dept>/:id/parameter` on the matched row:
      the department's JSON map through `jsonb_set`; `None` when the
      statement raises. */
  function WriteParam(b: Board, d: ChecklistDept, key: string, value: Option<string>): (r: Option<Board>)
    ensures r.None? <==> JsonbSetText(Params(b, d), key, value).Raises?
    ensures r.Some? ==> r.value == WithParams(b, d, JsonbSetText(Params(b, d), key, value).col)
  {
    match JsonbSetText(Params(b, d), key, value)
    case Raises => None
    case Written(p) => Some(WithParams(b, d, p))
  }

  /** The row after a parameter PATCH: the write, then the recalculation;
      `None` when the write raises. Only the department's map and status
      change; the status follows the new map unless it is semifinished,
      NULL or the type has no configuration. */
  function AfterParamPatch(b: Board, types: map<int, UavType>, d: ChecklistDept, key: string, value: Option<string>): (r: Option<Board>)
    ensures r.None? <==> JsonbSetText(Params(b, d), key, value).Raises?
    ensures r.Some? ==> Params(r.value, d) == JsonbSetText(Params(b, d), key, value).col
    ensures r.Some? ==> r.value == WithStatus(WithParams(b, d, Params(r.value, d)), d, StatusOf(r.value, d))
    ensures r.Some? && ConfiguredKeys(b, types, d).Some? && StatusOf(b, d) in {Some(InProgress), Some(Finished)} ==>
      (StatusOf(r.value, d) == Some(Finished) <==> AllFilled(ConfiguredKeys(b, types, d).value, Params(r.value, d)))
    ensures r.Some? && (ConfiguredKeys(b, types, d).None? || StatusOf(b, d) !in {Some(InProgress), Some(Finished)}) ==>
      StatusOf(r.value, d) == StatusOf(b, d)
  {
    match WriteParam(b, d, key, value)
    case None => None
    case Some(w) =>
      assert ConfiguredKeys(w, types, d) == ConfiguredKeys(b, types, d);
      Some(Recalc(w, types, d))
  }

  /** A PATCH with a value under a plain key stores the value under that key,
      starting from `{}` when the map was NULL; every other key, the other
      department's map, the comments and the other status are unchanged; and
      the status ends `finished` exactly when every configured key is filled
      in the new map. */
  lemma ParamPatchEffect(b: Board, types: map<int, UavType>, d: ChecklistDept, e: ChecklistDept, key: string, v: string)
    requires PlainKey(key) && e != d
    ensures AfterParamPatch(b, types, d, key, Some(v)).Some?
    ensures var r := AfterParamPatch(b, types, d, key, Some(v)).value;
      && Params(r, d).Some? && key in Params(r, d).value && Params(r, d).value[key] == JStr(v)
      && (forall k :: k != key && k in Params(r, d).value ==> k in Coalesce(Params(b, d)) && Params(r, d).value[k] == Coalesce(Params(b, d))[k])
      && (forall k :: k != key && k in Coalesce(Params(b, d)) ==> k in Params(r, d).value)
      && Params(r, e) == Params(b, e)
      && StatusOf(r, e) == StatusOf(b, e)
      && (forall c :: Comments(r, c) == Comments(b, c))
      && r.departmentStatuses == b.departmentStatuses
      && (ConfiguredKeys(b, types, d).Some? && StatusOf(b, d) in {Some(InProgress), Some(Finished)} ==>
            (StatusOf(r, d) == Some(Finished) <==> AllFilled(ConfiguredKeys(b, types, d).value, Params(r, d))))
  {
    PlainKeyWrite(Params(b, d), key, v);
    var w := WriteParam(b, d, key, Some(v)).value;
    assert w == WithParams(b, d, Some(Coalesce(Params(b, d))[key := JStr(v)]));
    RecalcIsLocal(w, types, d, e);
  }

  /** `jsonb_set` is strict: a PATCH whose value is null (the workshop page
      sends null when a box is unchecked) makes the whole map NULL, not just
      the one key, and with a non-empty configuration the board drops back
      to `in_progress` unless it is semifinished or its status is NULL. Only
      a key PostgreSQL cannot read as a path fails the statement. */
  lemma NullPatchClearsWholeMap(b: Board, types: map<int, UavType>, d: ChecklistDept, key: string)
    ensures AfterParamPatch(b, types, d, key, None).Some? <==> SqlPath(key).Path?
    ensures var r := AfterParamPatch(b, types, d, key, None);
      r.Some? ==> Params(r.value, d).None?
    ensures var r := AfterParamPatch(b, types, d, key, None);
      (r.Some? && ConfiguredKeys(b, types, d).Some? && ConfiguredKeys(b, types, d).value != {}
       && StatusOf(b, d) in {Some(InProgress), Some(Finished)}) ==> StatusOf(r.value, d) == Some(InProgress)
  {
    var r := AfterParamPatch(b, types, d, key, None);
    if r.Some? && ConfiguredKeys(b, types, d).Some? && ConfiguredKeys(b, types, d).value != {} {
      var k :| k in ConfiguredKeys(b, types, d).value;
      assert !FilledAt(Params(r.value, d), k);
    }
  }

  /** A semifinished board stays semifinished, and keeps its
      `department_statuses`, whatever parameter PATCHes follow. */
  lemma PatchesKeepSemifinished(b: Board, types: map<int, UavType>, d: ChecklistDept, k1: string, v1: Option<string>, k2: string, v2: Option<string>)
    requires StatusOf(b, d) == Some(Semifinished)
    ensures var r1 := AfterParamPatch(b, types, d, k1, v1);
      r1.Some? ==> (StatusOf(r1.value, d) == Some(Semifinished) && r1.value.departmentStatuses == b.departmentStatuses
        && (var r2 := AfterParamPatch(r1.value, types, d, k2, v2);
            r2.Some? ==> StatusOf(r2.value, d) == Some(Semifinished) && r2.value.departmentStatuses == b.departmentStatuses))
  {
  }

  /** The row after `PATCH /api/board/:id/set-semifinished` for a department
      name that resolves to the status column of `d`: the flag writes
      `semifinished`; clearing it writes `in_progress` and then recalculates
      under that name. */
  function AfterSetSemifinished(b: Board, types: map<int, UavType>, name: string, d: ChecklistDept, flag: bool): (r: Board)
    ensures r == WithStatus(b, d, StatusOf(r, d))
    ensures flag <==> StatusOf(r, d) == Some(Semifinished)
    ensures !flag ==> StatusOf(r, d) in {Some(InProgress), Some(Finished)}
    ensures name == DeptName(d) && StatusOf(r, d) == Some(Finished) ==>
      ConfiguredKeys(b, types, d).Some? && AllFilled(ConfiguredKeys(b, types, d).value, Params(b, d))
  {
    var w := WithStatus(b, d, Some(InProgress));
    assert ConfiguredKeys(w, types, d) == ConfiguredKeys(b, types, d);
    if flag then WithStatus(b, d, Some(Semifinished))
    else RecalcNamed(w, types, name, d)
  }

  /** Under the department's own name, setting the flag yields
      `semifinished` whatever the parameters; clearing it yields `finished`
      exactly when every configured key is filled, and `in_progress` when
      the type has no configuration. Only the status column changes. */
  lemma SetSemifinishedEffect(b: Board, types: map<int, UavType>, d: ChecklistDept, flag: bool)
    ensures var r := AfterSetSemifinished(b, types, DeptName(d), d, flag);
      && r == WithStatus(b, d, StatusOf(r, d))
      && (flag ==> StatusOf(r, d) == Some(Semifinished))
      && (!flag && ConfiguredKeys(b, types, d).Some? ==>
            StatusOf(r, d) == (if AllFilled(ConfiguredKeys(b, types, d).value, Params(b, d)) then Some(Finished) else Some(InProgress)))
      && (!flag && ConfiguredKeys(b, types, d).None? ==> StatusOf(r, d) == Some(InProgress))
  {
    var w := WithStatus(b, d, Some(InProgress));
    assert ConfiguredKeys(w, types, d) == ConfiguredKeys(b, types, d);
    assert Params(w, d) == Params(b, d);
    var r := AfterSetSemifinished(b, types, DeptName(d), d, flag);
    if !flag {
      assert r == WithStatus(w, d, StatusOf(r, d));
    }
  }

  /** Another spelling of a department name (`Workshop`, ` workshop`)
      still writes that department's status column, but the recalculation
      after clearing the flag reads the electrical configuration and finds
      no parameters: the board ends `finished` exactly when that
      configuration has no keys, whatever its own parameters hold. */
  lemma RespelledDeptIgnoresParams(b: Board, types: map<int, UavType>, name: string)
    requires ColumnDeptOf(name).Some? && name != DeptName(ColumnDeptOf(name).value)
    requires ConfiguredKeys(b, types, Electrical).Some?
    ensures var d := ColumnDeptOf(name).value;
      StatusOf(AfterSetSemifinished(b, types, name, d, false), d)
        == (if ConfiguredKeys(b, types, Electrical).value == {} then Some(Finished) else Some(InProgress))
  {
    var d := ColumnDeptOf(name).value;
    var w := WithStatus(b, d, Some(InProgress));
    assert ConfiguredKeys(w, types, Electrical) == ConfiguredKeys(b, types, Electrical);
  }

  /** `Workshop` and ` workshop` name the workshop status column. */
  lemma RespelledWorkshopResolves()
    ensures ColumnDeptOf("Workshop") == Some(Workshop)
    ensures ColumnDeptOf(" workshop") == Some(Workshop)
  {
    var w := "Workshop";
    assert LowerChar(w[0]) == 'w';
    assert forall i :: 1 <= i < |w| ==> LowerChar(w[i]) == w[i];
    assert FoldsTo(w, "workshop");
    assert " workshop"[1..] == "workshop";
  }

  /** `jsonb_set(COALESCE(department_statuses, '{}'), '{<dept>, is_semi_finished}', flag, true)`.
      `create_missing` applies to the last path step only: when the
      department has no entry yet the target comes back unchanged. */
  function SetSemiFlag(ds: Option<map<string, map<string, bool>>>, dept: string, flag: bool): (r: Option<map<string, map<string, bool>>>)
    ensures r.Some?
    ensures dept in r.value <==> (ds.Some? && dept in ds.value)
    ensures dept in r.value ==> "is_semi_finished" in r.value[dept] && r.value[dept]["is_semi_finished"] == flag
    ensures forall x :: x != dept ==> (x in r.value <==> ds.Some? && x in ds.value) && (x in r.value ==> r.value[x] == ds.value[x])
  {
    var m := if ds.Some? then ds.value else map[];
    if dept in m then Some(m[dept := m[dept]["is_semi_finished" := flag]]) else Some(m)
  }

  /** The row after `POST /api/workshop/:boardId/comment` for an allowed
      department: both writes of the transaction, or `None` when the comment
      write raises and the transaction is rolled back. Only
      `department_statuses` and the department's comment map change. */
  function AfterComment(b: Board, d: Dept, key: string, comment: Option<string>, flag: bool): (r: Option<Board>)
    ensures r.None? <==> JsonbSetText(Comments(b, d), key, comment).Raises?
    ensures r.Some? ==> Comments(r.value, d) == JsonbSetText(Comments(b, d), key, comment).col
    ensures r.Some? ==> r.value.departmentStatuses == SetSemiFlag(b.departmentStatuses, DeptName(d), flag)
    ensures r.Some? ==> r.value == WithComments(b.(departmentStatuses := r.value.departmentStatuses), d, Comments(r.value, d))
  {
    var withFlag := b.(departmentStatuses := SetSemiFlag(b.departmentStatuses, DeptName(d), flag));
    match JsonbSetText(Comments(b, d), key, comment)
    case Raises => None
    case Written(c) => Some(WithComments(withFlag, d, c))
  }

  /** The comment route writes `department_statuses` and the comment map but
      neither status column nor any parameter map, so the department
      colours and listing order are unchanged by it. */
  lemma CommentKeepsDepartmentColours(b: Board, d: Dept, key: string, comment: Option<string>, flag: bool, e: ChecklistDept)
    ensures var r := AfterComment(b, d, key, comment, flag);
      r.Some? ==> (StatusOf(r.value, e) == StatusOf(b, e)
      && Params(r.value, e) == Params(b, e)
      && DeptColor(StatusOf(r.value, e)) == DeptColor(StatusOf(b, e))
      && DeptRank(StatusOf(r.value, e)) == DeptRank(StatusOf(b, e)))
  {
  }

  /** The comment route records its flag only for a department that already
      has an entry in `department_statuses`; on a board without one the flag
      is lost. A null comment empties the whole comment map. */
  lemma CommentFlagNeedsEntry(b: Board, d: Dept, key: string, comment: Option<string>, flag: bool)
    ensures AfterComment(b, d, key, None, flag).Some? <==> SqlPath(key).Path?
    ensures var r := AfterComment(b, d, key, comment, flag);
      r.Some? ==> ((b.departmentStatuses.None? || DeptName(d) !in b.departmentStatuses.value ==>
            r.value.departmentStatuses == Some(StatusesOrEmpty(b.departmentStatuses)))
      && (b.departmentStatuses.Some? && DeptName(d) in b.departmentStatuses.value ==>
            r.value.departmentStatuses.value[DeptName(d)]["is_semi_finished"] == flag)
      && (comment.None? ==> Comments(r.value, d).None?))
  {
  }

  function StatusesOrEmpty(ds: Option<map<string, map<string, bool>>>): map<string, map<string, bool>>
  {
    if ds.Some? then ds.value else map[]
  }

  /** A comment on a watched workshop parameter that has no value turns the
      summary colour red (unless the board is fully finished), although the
      department colour stays as it was. */
  lemma CommentCanTurnSummaryRed(b: Board, key: string, c: string, flag: bool)
    requires key in SummaryWatchedParams
    requires !TextNotNullAt(b.workshopParams, key)
    requires b.isFullyFinished != Some(true)
    ensures AfterComment(b, Workshop, key, Some(c), flag).Some?
    ensures SummaryColor(AfterComment(b, Workshop, key, Some(c), flag).value) == Red
    ensures DeptColor(StatusOf(AfterComment(b, Workshop, key, Some(c), flag).value, Workshop)) == DeptColor(StatusOf(b, Workshop))
  {
    WatchedParamsArePlain(key);
    PlainKeyWrite(b.workshopComments, key, c);
    var r := AfterComment(b, Workshop, key, Some(c), flag).value;
    assert TextNotNullAt(r.workshopComments, key);
    assert SummaryRed(r);
  }

  /** The watched parameter names reach `jsonb_set` as one-step paths. */
  lemma WatchedParamsArePlain(key: string)
    requires key in SummaryWatchedParams
    ensures PlainKey(key)
  {
  }

  /** `allowedParameters.includes(parameter)` of the legacy date PATCH. */
  predicate LegacyParameterAllowed(p: Option<string>)
  {
    p.Some? && p.value in SetupColumns
  }

  /** `UPDATE boards SET <column> = $1`: a null date makes the column NULL. */
  function AfterLegacyPatch(b: Board, column: string, date: Option<string>): (r: Board)
    ensures date.Some? <==> column in r.setupDates
    ensures date.Some? ==> r.setupDates[column] == date.value
    ensures forall c :: c != column ==> (c in r.setupDates <==> c in b.setupDates) && (c in r.setupDates ==> r.setupDates[c] == b.setupDates[c])
    ensures r.(setupDates := b.setupDates) == b
  {
    var dates := if date.Some? then b.setupDates[column := date.value] else b.setupDates - {column};
    b.(setupDates := dates)
  }

  /** The lookup `allowedDepartments[department]` of the status route. */
  datatype FlagColumn = FlagColumn(d: Dept) | NoColumn | InheritedColumn

  function FinishedFlagColumn(department: Option<string>): (r: FlagColumn)
    ensures r.FlagColumn? <==> department.Some? && department.value in {"workshop", "electrical", "setup"}
    ensures r.FlagColumn? ==> DeptName(r.d) == department.value
    ensures r.InheritedColumn? <==> department.Some? && department.value in InheritedMembers
  {
    if department.None? then NoColumn
    else match ParseDept(department.value)
      case Some(d) => FlagColumn(d)
      case None => if department.value in InheritedMembers then InheritedColumn else NoColumn
  }

  /** `UPDATE boards SET is_<dept>_finished = !!is_finished` */
  function AfterFinishedFlag(b: Board, d: Dept, flag: bool): (r: Board)
    ensures d in r.finishedFlags && r.finishedFlags[d] == flag
    ensures forall e :: e != d ==> (e in r.finishedFlags <==> e in b.finishedFlags) && (e in r.finishedFlags ==> r.finishedFlags[e] == b.finishedFlags[e])
    ensures r.(finishedFlags := b.finishedFlags) == b
  {
    b.(finishedFlags := b.finishedFlags[d := flag])
  }

  /** The check of `PATCH /api/board/:id/semifinished`: the body's `params`
      must be an array (`None` here when it is not); an empty array is stored
      as NULL. */
  datatype ArrayCheck = NotAnArray | Store(value: Option<seq<string>>)

  function SemifinishedParamsToSave(params: Option<seq<string>>): (r: ArrayCheck)
    ensures r.NotAnArray? <==> params.None?
    ensures r.Store? ==> (r.value.None? <==> params.value == [])
    ensures r.Store? && r.value.Some? ==> r.value.value == params.value
  {
    match params
    case None => NotAnArray
    case Some(ps) => Store(if |ps| > 0 then Some(ps) else None)
  }

  /** The outcome of `add_board`'s check `!number || number.trim() === ''`. */
  datatype NumberCheck = NumberOk(number: string) | NumberMissing | NumberNotText

  function CheckBoardNumber(number: JsonValue): (r: NumberCheck)
    ensures r.NumberOk? <==> number.JStr? && Trim(JsTrim, number.s) != ""
    ensures r.NumberOk? ==> r.number == number.s
    ensures r.NumberNotText? <==> Truthy(number) && !number.JStr?
  {
    if !Truthy(number) then NumberMissing
    else if !number.JStr? then NumberNotText  // `number.trim` is not a function: the handler throws
    else if Trim(JsTrim, number.s) == "" then NumberMissing
    else NumberOk(number.s)
  }

  /** The row `add_board` inserts: `controller_id || null` turns a falsy id
      (0) into NULL; the status columns get the column default. */
  function NewBoard(number: string, bplaId: Option<int>, supplierId: Option<int>, controllerId: Option<int>,
                    workshopParams: Option<JsonObject>, electricalParams: Option<JsonObject>,
                    now: int, defaultStatus: Option<Status>): (r: Board)
    ensures r.number == Some(number) && r.creationDate == Some(now) && r.finishedDate.None?
    ensures r.bplaId == bplaId && r.supplierId == supplierId
    ensures r.workshopParams == workshopParams && r.electricalParams == electricalParams
    ensures r.controllerId.Some? <==> controllerId.Some? && controllerId.value != 0
    ensures controllerId != Some(0) ==> r.controllerId == controllerId
    ensures StatusOf(r, Workshop) == defaultStatus && StatusOf(r, Electrical) == defaultStatus
    ensures r.setupDates == map[] && r.workshopComments.None? && r.electricalComments.None?
  {
    Board(
      number := Some(number),
      bplaId := bplaId,
      supplierId := supplierId,
      controllerId := if controllerId == Some(0) then None else controllerId,
      creationDate := Some(now),
      finishedDate := None,
      setupDates := map[],
      engineInstallationDate := None,
      isFullyFinished := None,
      workshopParams := workshopParams,
      electricalParams := electricalParams,
      workshopComments := None,
      electricalComments := None,
      setupComments := None,
      workshopStatus := defaultStatus,
      electricalStatus := defaultStatus,
      departmentStatuses := None,
      finishedFlags := map[],
      semiFinishedParams := None)
  }

  /** `PUT /api/electrical/:id` overwrites four columns and does not
      recalculate the status. */
  function AfterElectricalPut(b: Board, number: Option<string>, supplierId: Option<int>, controllerId: Option<int>,
                              electricalParams: Option<JsonObject>): (r: Board)
    ensures r.number == number && r.supplierId == supplierId && r.controllerId == controllerId
    ensures Params(r, Electrical) == electricalParams
    ensures StatusOf(r, Electrical) == StatusOf(b, Electrical) && StatusOf(r, Workshop) == StatusOf(b, Workshop)
    ensures r.(number := b.number, supplierId := b.supplierId, controllerId := b.controllerId, electricalParams := b.electricalParams) == b
  {
    b.(number := number, supplierId := supplierId, controllerId := controllerId, electricalParams := electricalParams)
  }

  /** Because the whole-map PUT skips the recalculation, a board can be left
      `in_progress` with every configured key filled: its status is stale
      until the next parameter PATCH. */
  lemma ElectricalPutLeavesStatusStale(b: Board, types: map<int, UavType>, number: Option<string>, s: Option<int>, c: Option<int>, p: JsonObject)
    requires StatusOf(b, Electrical) == Some(InProgress)
    requires ConfiguredKeys(b, types, Electrical).Some?
    requires AllFilled(ConfiguredKeys(b, types, Electrical).value, Some(p))
    ensures var r := AfterElectricalPut(b, number, s, c, Some(p));
      StatusOf(r, Electrical) == Some(InProgress)
      && StatusOf(Recalc(r, types, Electrical), Electrical) == Some(Finished)
  {
    var r := AfterElectricalPut(b, number, s, c, Some(p));
    assert ConfiguredKeys(r, types, Electrical) == ConfiguredKeys(b, types, Electrical);
  }
}
