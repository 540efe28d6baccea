/** The `boards` table as the server's routes update it. */
module Store {
  import opened Json
  import opened Boards
  import opened StatusRules
  import opened Routes
  import opened JsonbPath

  /** The rows of `boards` by id, next to the `bpla` rows they reference.
      Each method is one route, or `recalculateBoardStatus`, and returns the
      HTTP status code of its answer; a request naming a board id that does
      not exist runs an UPDATE that matches no row. */
  class BoardStore {
    var boards: map<int, Board>
    const types: map<int, UavType>
    /** The next value of the `boards.id` sequence. */
    var nextId: int
    /** The column default of `<dept>_status`, which the insert leaves to
        the schema. */
    const defaultStatus: Option<Status>

    ghost predicate Valid()
      reads this
    {
      forall id :: id in boards ==> id < nextId
    }

    constructor (types: map<int, UavType>, defaultStatus: Option<Status>)
      ensures Valid()
      ensures boards == map[] && this.types == types && this.defaultStatus == defaultStatus
    {
      this.boards := map[];
      this.types := types;
      this.nextId := 1;
      this.defaultStatus := defaultStatus;
    }

    /** `recalculateBoardStatus(boardId, department)`. The department name
        is pasted into SQL, so the statements fail (`ok` is false) unless
        PostgreSQL resolves it to a department's columns. */
    method RecalculateBoardStatus(id: int, department: string) returns (ok: bool)
      requires Valid()
      modifies this
      ensures Valid() && nextId == old(nextId)
      ensures ok <==> ColumnDeptOf(department).Some?
      ensures !ok ==> boards == old(boards)
      ensures ok ==> boards == if id in old(boards)
        then old(boards)[id := RecalcNamed(old(boards)[id], types, department, ColumnDeptOf(department).value)]
        else old(boards)
    {
      var column := ColumnDeptOf(department);
      if column.None? {
        return false;
      }
      var d := column.value;
      ok := true;
      if id !in boards {
        return;
      }
      var b := boards[id];
      // board[`${department}_params`]: the result row is keyed by the folded name
      var paramsData := if department == DeptName(d) then Params(b, d) else None;
      var configDept: ChecklistDept := if department == "workshop" then Workshop else Electrical;
      ghost var expected := RecalcNamed(b, types, department, d);
      assert expected == RecalcWith(b, ConfiguredKeys(b, types, configDept), paramsData, d);
      if b.bplaId.None? || b.bplaId.value !in types {
        assert expected == b;
        return;
      }
      var config := ConfigOf(types[b.bplaId.value], configDept);
      if config.None? || config.value.params.None? {
        assert expected == b;
        return;
      }
      var paramKeys := config.value.params.value.Keys;
      var isFinished := AllFilled(paramKeys, paramsData);
      var newStatus := if isFinished then Finished else InProgress;
      // UPDATE ... WHERE <dept>_status != 'semifinished': no match on NULL either
      if StatusOf(b, d).Some? && StatusOf(b, d).value != Semifinished {
        assert expected == WithStatus(b, d, Some(newStatus));
        boards := boards[id := WithStatus(b, d, Some(newStatus))];
      } else {
        assert expected == b;
      }
    }

    /** `PATCH /api/workshop/:id/parameter`: neither the parameter name nor
        its presence is checked. A name PostgreSQL cannot read as a path
        fails the UPDATE even when no row matches; a NULL step fails it on
        the matched row; either way the answer is 500 and nothing changes. */
    method PatchWorkshopParameter(id: int, parameter: Option<string>, value: Option<string>) returns (code: int)
      requires Valid()
      modifies this
      ensures Valid() && nextId == old(nextId)
      ensures code == 500 <==> (SqlPath(KeyText(parameter)).Malformed?
        || (id in old(boards) && AfterParamPatch(old(boards)[id], types, Workshop, KeyText(parameter), value).None?))
      ensures code != 500 ==> code == 200
      ensures code == 500 ==> boards == old(boards)
      ensures code == 200 ==> boards == if id in old(boards)
        then old(boards)[id := AfterParamPatch(old(boards)[id], types, Workshop, KeyText(parameter), value).value]
        else old(boards)
    {
      var key := KeyText(parameter);
      if SqlPath(key).Malformed? {
        return 500;
      }
      if id in boards {
        var w := WriteParam(boards[id], Workshop, key, value);
        if w.None? {
          return 500;
        }
        boards := boards[id := w.value];
      }
      var _ := RecalculateBoardStatus(id, "workshop");
      code := 200;
    }

    /** `PATCH /api/electrical/:id/parameter`: a missing or empty parameter
        name is refused with 400 before anything is written; otherwise as
        the workshop route. */
    method PatchElectricalParameter(id: int, parameter: Option<string>, value: Option<string>) returns (code: int)
      requires Valid()
      modifies this
      ensures Valid() && nextId == old(nextId)
      ensures code == 400 <==> parameter.None? || parameter.value == ""
      ensures code == 500 <==> (code != 400 && (SqlPath(parameter.value).Malformed?
        || (id in old(boards) && AfterParamPatch(old(boards)[id], types, Electrical, parameter.value, value).None?)))
      ensures code in {200, 400, 500}
      ensures code != 200 ==> boards == old(boards)
      ensures code == 200 ==> boards == if id in old(boards)
        then old(boards)[id := AfterParamPatch(old(boards)[id], types, Electrical, parameter.value, value).value]
        else old(boards)
    {
      if parameter.None? || parameter.value == "" {
        return 400;
      }
      if SqlPath(parameter.value).Malformed? {
        return 500;
      }
      if id in boards {
        var w := WriteParam(boards[id], Electrical, parameter.value, value);
        if w.None? {
          return 500;
        }
        boards := boards[id := w.value];
      }
      var _ := RecalculateBoardStatus(id, "electrical");
      code := 200;
    }

    /** `PATCH /api/board/:id/set-semifinished`. The department is not
        checked: it is pasted into `UPDATE boards SET <department>_status`,
        which fails unless PostgreSQL resolves the name to the workshop or
        electrical column, in any letter case and after leading blanks. */
    method SetSemifinished(id: int, department: Option<string>, isSemiFinished: bool) returns (code: int)
      requires Valid()
      modifies this
      ensures Valid() && nextId == old(nextId)
      ensures code == 500 <==> ColumnDeptOf(KeyText(department)).None?
      ensures code != 500 ==> code == 200
      ensures code == 500 ==> boards == old(boards)
      ensures code == 200 ==> boards == if id in old(boards)
        then old(boards)[id := AfterSetSemifinished(old(boards)[id], types, KeyText(department), ColumnDeptOf(KeyText(department)).value, isSemiFinished)]
        else old(boards)
    {
      var name := KeyText(department);
      var dept := ColumnDeptOf(name);
      if dept.None? {
        return 500;
      }
      var d := dept.value;
      var newStatus := if isSemiFinished then Semifinished else InProgress;
      code := 200;
      if id !in boards {
        if !isSemiFinished {
          var _ := RecalculateBoardStatus(id, name);
        }
        return;
      }
      var b := boards[id];
      boards := boards[id := WithStatus(b, d, Some(newStatus))];
      if !isSemiFinished {
        var _ := RecalculateBoardStatus(id, name);
        assert boards == old(boards)[id := RecalcNamed(WithStatus(b, d, Some(InProgress)), types, name, d)];
        assert RecalcNamed(WithStatus(b, d, Some(InProgress)), types, name, d) == AfterSetSemifinished(b, types, name, d, false);
      }
    }

    /** `POST /api/workshop/:boardId/comment`: the department must be on the
        allow-list; then one transaction writes the flag into
        `department_statuses` and the comment into `<dept>_comments`. */
    method PostComment(id: int, department: Option<string>, parameter: Option<string>, comment: Option<string>, isSemiFinished: bool)
      returns (code: int)
      requires Valid()
      modifies this
      ensures Valid() && nextId == old(nextId)
      ensures code == 400 <==> department.None? || ParseDept(department.value).None?
      ensures code == 500 <==> (code != 400 && (SqlPath(KeyText(parameter)).Malformed?
        || (id in old(boards) && AfterComment(old(boards)[id], ParseDept(department.value).value, KeyText(parameter), comment, isSemiFinished).None?)))
      ensures code in {200, 400, 500}
      ensures code != 200 ==> boards == old(boards)
      ensures code == 200 ==> boards == if id in old(boards)
        then old(boards)[id := AfterComment(old(boards)[id], ParseDept(department.value).value, KeyText(parameter), comment, isSemiFinished).value]
        else old(boards)
    {
      if department.None? || ParseDept(department.value).None? {
        return 400;
      }
      var d := ParseDept(department.value).value;
      var key := KeyText(parameter);
      var before := boards;
      if id in boards {
        var b := boards[id];
        boards := boards[id := b.(departmentStatuses := SetSemiFlag(b.departmentStatuses, DeptName(d), isSemiFinished))];
      }
      if SqlPath(key).Malformed? {
        boards := before;  // ROLLBACK
        return 500;
      }
      if id in boards {
        var withFlag := boards[id];
        var written := JsonbSetText(Comments(withFlag, d), key, comment);
        if written.Raises? {
          boards := before;  // ROLLBACK
          return 500;
        }
        boards := boards[id := WithComments(withFlag, d, written.col)];
      }
      code := 200;
    }

    /** `PATCH /api/board/:id/parameter`: only the seven setup date columns
        may be written; the updated row is returned, or 404. */
    method PatchSetupDate(id: int, parameter: Option<string>, date: Option<string>) returns (code: int, row: Option<Board>)
      requires Valid()
      modifies this
      ensures Valid() && nextId == old(nextId)
      ensures code == 400 <==> !LegacyParameterAllowed(parameter)
      ensures code == 404 <==> LegacyParameterAllowed(parameter) && id !in old(boards)
      ensures code == 200 <==> LegacyParameterAllowed(parameter) && id in old(boards)
      ensures code != 200 ==> boards == old(boards) && row.None?
      ensures code == 200 ==>
        boards == old(boards)[id := AfterLegacyPatch(old(boards)[id], parameter.value, date)] && row == Some(boards[id])
    {
      if !LegacyParameterAllowed(parameter) {
        return 400, None;
      }
      if id !in boards {
        return 404, None;
      }
      boards := boards[id := AfterLegacyPatch(boards[id], parameter.value, date)];
      code, row := 200, Some(boards[id]);
    }

    /** `PATCH /api/board/:id/status`: `allowedDepartments[department]`
        gives the `is_<dept>_finished` column, or 400; a name inherited by
        every JavaScript object passes the lookup and then fails in SQL. */
    method PatchFinishedFlag(id: int, department: Option<string>, isFinished: bool) returns (code: int)
      requires Valid()
      modifies this
      ensures Valid() && nextId == old(nextId)
      ensures code == 400 <==> FinishedFlagColumn(department).NoColumn?
      ensures code == 500 <==> FinishedFlagColumn(department).InheritedColumn?
      ensures code == 200 <==> FinishedFlagColumn(department).FlagColumn?
      ensures code != 200 ==> boards == old(boards)
      ensures code == 200 ==> boards == if id in old(boards)
        then old(boards)[id := AfterFinishedFlag(old(boards)[id], FinishedFlagColumn(department).d, isFinished)]
        else old(boards)
    {
      match FinishedFlagColumn(department)
      case NoColumn =>
        code := 400;
      case InheritedColumn =>
        code := 500;
      case FlagColumn(d) =>
        if id in boards {
          boards := boards[id := AfterFinishedFlag(boards[id], d, isFinished)];
        }
        code := 200;
    }

    /** `PATCH /api/board/:id/semifinished`: the body must carry an array. */
    method PatchSemifinishedParams(id: int, params: Option<seq<string>>) returns (code: int)
      requires Valid()
      modifies this
      ensures Valid() && nextId == old(nextId)
      ensures code == 400 <==> params.None?
      ensures code != 400 ==> code == 200
      ensures code == 400 ==> boards == old(boards)
      ensures code == 200 ==> boards == if id in old(boards)
        then old(boards)[id := old(boards)[id].(semiFinishedParams := SemifinishedParamsToSave(params).value)]
        else old(boards)
    {
      var check := SemifinishedParamsToSave(params);
      if check.NotAnArray? {
        return 400;
      }
      if id in boards {
        boards := boards[id := boards[id].(semiFinishedParams := check.value)];
      }
      code := 200;
    }

    /** `POST /api/add_board`: a missing or blank number is refused; a number
        that is not a string makes the check throw. `now` is the clock. */
    method AddBoard(number: JsonValue, bplaId: Option<int>, supplierId: Option<int>, controllerId: Option<int>,
                    workshopParams: Option<JsonObject>, electricalParams: Option<JsonObject>, now: int)
      returns (code: int, id: Option<int>)
      requires Valid()
      modifies this
      ensures Valid()
      ensures code == 201 <==> CheckBoardNumber(number).NumberOk?
      ensures code == 400 <==> CheckBoardNumber(number).NumberMissing?
      ensures code == 500 <==> CheckBoardNumber(number).NumberNotText?
      ensures code != 201 ==> boards == old(boards) && nextId == old(nextId) && id.None?
      ensures code == 201 ==>
        && id == Some(old(nextId)) && old(nextId) !in old(boards) && nextId == old(nextId) + 1
        && boards == old(boards)[old(nextId) := NewBoard(CheckBoardNumber(number).number, bplaId, supplierId,
                                                         controllerId, workshopParams, electricalParams, now, defaultStatus)]
    {
      match CheckBoardNumber(number)
      case NumberMissing =>
        code, id := 400, None;
      case NumberNotText =>
        code, id := 500, None;
      case NumberOk(n) =>
        boards := boards[nextId := NewBoard(n, bplaId, supplierId, controllerId, workshopParams, electricalParams, now, defaultStatus)];
        id := Some(nextId);
        nextId := nextId + 1;
        code := 201;
    }

    /** `DELETE /api/board/:id` */
    method DeleteBoard(id: int) returns (code: int)
      requires Valid()
      modifies this
      ensures Valid() && nextId == old(nextId)
      ensures code == 404 <==> id !in old(boards)
      ensures code != 404 ==> code == 200
      ensures boards == old(boards) - {id}
    {
      if id !in boards {
        return 404;
      }
      boards := boards - {id};
      code := 200;
    }

    /** `PUT /api/electrical/:id`: overwrites the whole electrical map without
        recalculating the status. */
    method PutElectrical(id: int, number: Option<string>, supplierId: Option<int>, controllerId: Option<int>,
                         electricalParams: Option<JsonObject>) returns (code: int)
      requires Valid()
      modifies this
      ensures Valid() && nextId == old(nextId)
      ensures code == 200
      ensures boards == if id in old(boards)
        then old(boards)[id := AfterElectricalPut(old(boards)[id], number, supplierId, controllerId, electricalParams)]
        else old(boards)
    {
      if id in boards {
        boards := boards[id := AfterElectricalPut(boards[id], number, supplierId, controllerId, electricalParams)];
      }
      code := 200;
    }
  }
}
