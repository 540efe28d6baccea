/** A row of the `boards` table, the UAV types (`bpla`) with their
    per-department configuration, and the column accessors per department. */
module Boards {
  import opened Json

  /** The departments that the comment and status routes accept. */
  datatype Dept = Workshop | Electrical | Setup

  /** The departments that keep a checklist: a `<dept>_params` JSON map, a
      `<dept>_status` column and a configuration on the UAV type. */
  type ChecklistDept = d: Dept | d != Setup witness Workshop

  /** The values of a `<dept>_status` column; SQL NULL is `None` where the
      column is used. */
  datatype Status = InProgress | Finished | Semifinished

  function StatusName(s: Status): string
  {
    match s
    case InProgress => "in_progress"
    case Finished => "finished"
    case Semifinished => "semifinished"
  }

  function DeptName(d: Dept): string
  {
    match d
    case Workshop => "workshop"
    case Electrical => "electrical"
    case Setup => "setup"
  }

  /** The allow-list `['workshop', 'electrical', 'setup'].includes(department)`. */
  function ParseDept(s: string): (r: Option<Dept>)
    ensures r.Some? <==> s in {"workshop", "electrical", "setup"}
    ensures r.Some? ==> DeptName(r.value) == s
  {
    if s == "workshop" then Some(Workshop)
    else if s == "electrical" then Some(Electrical)
    else if s == "setup" then Some(Setup)
    else None
  }

  /** The checklist department whose columns `<name>_status` and
      `<name>_params` name when `name` is pasted into SQL text as an unquoted
      identifier: PostgreSQL skips the whitespace before it and folds it to
      lower case (`ColumnDeptFolds`). Only the workshop and electrical
      departments have these columns; any other name makes the statement
      fail. */
  function ColumnDeptOf(name: string): (r: Option<ChecklistDept>)
    ensures name == "workshop" ==> r == Some(Workshop)
    ensures name == "electrical" ==> r == Some(Electrical)
    decreases |name|
  {
    ExactNamesFold();
    if name != [] && Trimmable(SqlSpace, name[0]) then ColumnDeptOf(name[1..])
    else if FoldsTo(name, "workshop") then Some(Workshop)
    else if FoldsTo(name, "electrical") then Some(Electrical)
    else None
  }

  /** `s` is `target` once its ASCII letters are folded to lower case. */
  predicate FoldsTo(s: string, target: string)
  {
    |s| == |target| && forall i :: 0 <= i < |s| ==> LowerChar(s[i]) == target[i]
  }

  /** A name resolves exactly when, after the leading whitespace and
      lower-cased, it is `workshop` or `electrical`, and then to that
      department. */
  lemma {:induction false} ColumnDeptFolds(name: string)
    ensures ColumnDeptOf(name).Some? <==> Lower(TrimStart(SqlSpace, name)) in {"workshop", "electrical"}
    ensures ColumnDeptOf(name).Some? ==> DeptName(ColumnDeptOf(name).value) == Lower(TrimStart(SqlSpace, name))
    decreases |name|
  {
    if name != [] && Trimmable(SqlSpace, name[0]) {
      ColumnDeptFolds(name[1..]);
    } else {
      FoldedIsLower(name, "workshop");
      FoldedIsLower(name, "electrical");
    }
  }

  lemma FoldedIsLower(s: string, target: string)
    ensures FoldsTo(s, target) <==> Lower(s) == target
  {
    if FoldsTo(s, target) {
      assert forall i :: 0 <= i < |s| ==> Lower(s)[i] == target[i];
    }
  }

  /** The two lower-case names are already in folded form. */
  lemma ExactNamesFold()
    ensures FoldsTo("workshop", "workshop") && FoldsTo("electrical", "electrical")
  {
    LowerCaseFolds("workshop");
    LowerCaseFolds("electrical");
  }

  lemma LowerCaseFolds(name: string)
    requires name in {"workshop", "electrical"}
    ensures FoldsTo(name, name)
  {
    assert forall i :: 0 <= i < |name| ==> 'a' <= name[i] <= 'z';
  }

  /** `{ params: {key: label}, engines?: [...] }`; `params` may be missing. */
  datatype Config = Config(params: Option<map<string, string>>, engines: Option<seq<string>>)

  /** A row of the `bpla` table. */
  datatype UavType = UavType(
    name: string,
    parentId: Option<int>,
    workshopConfig: Option<Config>,
    electricalConfig: Option<Config>)

  /** The seven setup date columns, also the legacy PATCH allow-list. */
  const SetupColumns: seq<string> := [
    "traction_date", "angle_date", "acceleration_date", "osd_date",
    "osd_configured_date", "plugs_date", "engine_start_date"]

  /** The workshop parameters the summary page watches, besides the engine
      installation, which has a column of its own. */
  const SummaryWatchedParams: seq<string> := ["catapult_hooks", "fuel_system", "rods", "lead_weight"]

  /** A row of the `boards` table. Dates are day numbers; a setup date column
      is NULL exactly when its name is not a key of `setupDates`; a flag of
      `finishedFlags` (`is_<dept>_finished`) is NULL when absent. */
  datatype Board = Board(
    number: Option<string>,
    bplaId: Option<int>,
    supplierId: Option<int>,
    controllerId: Option<int>,
    creationDate: Option<int>,
    finishedDate: Option<int>,
    setupDates: map<string, string>,
    engineInstallationDate: Option<string>,
    isFullyFinished: Option<bool>,
    workshopParams: Option<JsonObject>,
    electricalParams: Option<JsonObject>,
    workshopComments: Option<JsonObject>,
    electricalComments: Option<JsonObject>,
    setupComments: Option<JsonObject>,
    workshopStatus: Option<Status>,
    electricalStatus: Option<Status>,
    departmentStatuses: Option<map<string, map<string, bool>>>,
    finishedFlags: map<Dept, bool>,
    semiFinishedParams: Option<seq<string>>)

  /** The `<dept>_params` column. */
  function Params(b: Board, d: ChecklistDept): Option<JsonObject>
  {
    if d == Workshop then b.workshopParams else b.electricalParams
  }

  function WithParams(b: Board, d: ChecklistDept, p: Option<JsonObject>): (r: Board)
    ensures Params(r, d) == p
  {
    if d == Workshop then b.(workshopParams := p) else b.(electricalParams := p)
  }

  /** The `<dept>_status` column. */
  function StatusOf(b: Board, d: ChecklistDept): Option<Status>
  {
    if d == Workshop then b.workshopStatus else b.electricalStatus
  }

  function WithStatus(b: Board, d: ChecklistDept, s: Option<Status>): (r: Board)
    ensures StatusOf(r, d) == s
  {
    if d == Workshop then b.(workshopStatus := s) else b.(electricalStatus := s)
  }

  /** The `<dept>_comments` column. */
  function Comments(b: Board, d: Dept): Option<JsonObject>
  {
    match d
    case Workshop => b.workshopComments
    case Electrical => b.electricalComments
    case Setup => b.setupComments
  }

  function WithComments(b: Board, d: Dept, c: Option<JsonObject>): (r: Board)
    ensures Comments(r, d) == c
  {
    match d
    case Workshop => b.(workshopComments := c)
    case Electrical => b.(electricalComments := c)
    case Setup => b.(setupComments := c)
  }

  /** The configuration column the status recalculation reads:
      `workshop_config` for the workshop, `electrical_config` otherwise. */
  function ConfigOf(t: UavType, d: ChecklistDept): Option<Config>
  {
    if d == Workshop then t.workshopConfig else t.electricalConfig
  }

  /** `config?.params` of the board's type, when the type row, its config
      and the config's `params` are all present. */
  function ConfiguredKeys(b: Board, types: map<int, UavType>, d: ChecklistDept): (r: Option<set<string>>)
    ensures r.Some? ==> b.bplaId.Some? && b.bplaId.value in types
    ensures r.Some? ==> exists c :: ConfigOf(types[b.bplaId.value], d) == Some(c) && c.params.Some? && r.value == c.params.value.Keys
    ensures r.None? ==> (b.bplaId.None? || b.bplaId.value !in types
      || ConfigOf(types[b.bplaId.value], d).None? || ConfigOf(types[b.bplaId.value], d).value.params.None?)
  {
    if b.bplaId.Some? && b.bplaId.value in types then
      var cfg := ConfigOf(types[b.bplaId.value], d);
      if cfg.Some? && cfg.value.params.Some? then Some(cfg.value.params.value.Keys) else None
    else None
  }

  /** All seven setup date columns are non-NULL. */
  predicate SetupComplete(b: Board)
  {
    forall c :: c in SetupColumns ==> c in b.setupDates
  }

  /** The summary's `workshop_complete` column: the engine installation date
      and the four watched workshop parameters are all non-NULL. */
  predicate WorkshopComplete(b: Board)
    ensures WorkshopComplete(b) ==> (b.engineInstallationDate.Some? && b.workshopParams.Some?
      && forall k :: k in SummaryWatchedParams ==> k in b.workshopParams.value && b.workshopParams.value[k] != JNull)
  {
    assert SummaryWatchedParams[0] in SummaryWatchedParams;
    b.engineInstallationDate.Some?
    && forall k :: k in SummaryWatchedParams ==> TextNotNullAt(b.workshopParams, k)
  }
}
