/** The department status rules: when a checklist counts as finished, how
    `recalculateBoardStatus` rewrites the status column, and the colour and
    ordering rules that the listing queries apply to it. */
module StatusRules {
  import opened Json
  import opened Boards

  /** `paramKeys.every(key => paramsData?.[key] != null && paramsData?.[key] !== '')`.
      A NULL column fills no key. Keys that are not inherited member names
      are filled exactly when they hold a value other than null and `''`. */
  predicate AllFilled(keys: set<string>, params: Option<JsonObject>)
    ensures params.None? ==> (AllFilled(keys, params) <==> keys == {})
    ensures params.Some? && (forall k :: k in keys ==> k !in InheritedMembers) ==>
      (AllFilled(keys, params) <==> forall k :: k in keys ==> k in params.value && params.value[k] != JNull && params.value[k] != JStr(""))
  {
    forall k :: k in keys ==> FilledAt(params, k)
  }

  /** The row after `recalculateBoardStatus(id, d)`. Nothing changes when the
      type or its `config.params` is missing; otherwise the
      `UPDATE ... WHERE <dept>_status != 'semifinished'` writes `finished` or
      `in_progress`, and under SQL's three-valued logic it matches neither a
      semifinished row nor a row whose status is NULL. */
  function Recalc(b: Board, types: map<int, UavType>, d: ChecklistDept): (r: Board)
    ensures r == WithStatus(b, d, StatusOf(r, d))
    ensures StatusOf(b, d) == Some(Semifinished) ==> r == b
    ensures StatusOf(b, d).None? ==> r == b
    ensures ConfiguredKeys(b, types, d).None? ==> r == b
    ensures ConfiguredKeys(b, types, d).Some? && StatusOf(b, d) in {Some(InProgress), Some(Finished)} ==>
      StatusOf(r, d) == (if AllFilled(ConfiguredKeys(b, types, d).value, Params(b, d)) then Some(Finished) else Some(InProgress))
  {
    RecalcWith(b, ConfiguredKeys(b, types, d), Params(b, d), d)
  }

  /** The recalculation once its inputs are read: the configured keys
      (`None` for the early return), the parameter map it tests and the
      status column it writes. */
  function RecalcWith(b: Board, keys: Option<set<string>>, params: Option<JsonObject>, d: ChecklistDept): Board
  {
    match keys
    case None => b
    case Some(ks) =>
      var newStatus := if AllFilled(ks, params) then Finished else InProgress;
      if StatusOf(b, d).Some? && StatusOf(b, d).value != Semifinished then WithStatus(b, d, Some(newStatus))
      else b
  }

  /** `recalculateBoardStatus(id, name)` for a department name that
      PostgreSQL resolves to the columns of `d`. The source picks the
      configuration column by the exact test `name === 'workshop'` and reads
      the parameters back from the result row under the key `<name>_params`,
      while the row's column is named in folded form. So the lower-case name
      is `Recalc`; any other spelling (`Workshop`, ` workshop`) reads the
      electrical configuration and no parameters, and writes `finished`
      only when that configuration has no keys. */
  function RecalcNamed(b: Board, types: map<int, UavType>, name: string, d: ChecklistDept): (r: Board)
    ensures name == DeptName(d) ==> r == Recalc(b, types, d)
    ensures r == WithStatus(b, d, StatusOf(r, d))
    ensures StatusOf(b, d) !in {Some(InProgress), Some(Finished)} ==> r == b
    ensures name != DeptName(d) && name != "workshop" && ConfiguredKeys(b, types, Electrical).None? ==> r == b
    ensures (name != DeptName(d) && name != "workshop" && ConfiguredKeys(b, types, Electrical).Some?
      && StatusOf(b, d) in {Some(InProgress), Some(Finished)}) ==>
      (StatusOf(r, d) == Some(Finished) <==> ConfiguredKeys(b, types, Electrical).value == {})
  {
    var configDept: ChecklistDept := if name == "workshop" then Workshop else Electrical;
    var params := if name == DeptName(d) then Params(b, d) else None;
    RecalcWith(b, ConfiguredKeys(b, types, configDept), params, d)
  }

  /** Recalculating twice is the same as recalculating once. */
  lemma RecalcIdempotent(b: Board, types: map<int, UavType>, d: ChecklistDept)
    ensures Recalc(Recalc(b, types, d), types, d) == Recalc(b, types, d)
  {
    var r := Recalc(b, types, d);
    assert ConfiguredKeys(r, types, d) == ConfiguredKeys(b, types, d);
    assert Params(r, d) == Params(b, d);
  }

  /** Recalculating one department leaves the other department's status, the
      parameters and the comments as they were. */
  lemma RecalcIsLocal(b: Board, types: map<int, UavType>, d: ChecklistDept, e: ChecklistDept)
    requires e != d
    ensures StatusOf(Recalc(b, types, d), e) == StatusOf(b, e)
    ensures Params(Recalc(b, types, d), e) == Params(b, e) && Params(Recalc(b, types, d), d) == Params(b, d)
    ensures forall c :: Comments(Recalc(b, types, d), c) == Comments(b, c)
  {
  }

  /** A configured key named after a member every JavaScript object
      inherits, such as `constructor`, counts as filled on any board whose
      map is not NULL, even when the map lacks it. */
  lemma InheritedKeysCountAsFilled(b: Board, types: map<int, UavType>, d: ChecklistDept)
    requires ConfiguredKeys(b, types, d).Some? && Params(b, d).Some?
    requires StatusOf(b, d) in {Some(InProgress), Some(Finished)}
    requires forall k :: k in ConfiguredKeys(b, types, d).value ==> k in InheritedMembers && k !in Params(b, d).value
    ensures StatusOf(Recalc(b, types, d), d) == Some(Finished)
  {
  }

  /** An empty `config.params` makes every board finished: `every` over no
      keys is true. */
  lemma EmptyConfigMeansFinished(b: Board, types: map<int, UavType>, d: ChecklistDept)
    requires ConfiguredKeys(b, types, d) == Some({})
    requires StatusOf(b, d) == Some(InProgress)
    ensures StatusOf(Recalc(b, types, d), d) == Some(Finished)
  {
  }

  /** The colour a department listing gives a board. */
  datatype Color = Green | Red | Orange

  /** `CASE WHEN <dept>_status = 'semifinished' THEN 'red'
      WHEN <dept>_status = 'finished' THEN 'green' ELSE 'orange' END` */
  function DeptColor(s: Option<Status>): (r: Color)
    ensures r == Red <==> s == Some(Semifinished)
    ensures r == Green <==> s == Some(Finished)
  {
    if s == Some(Semifinished) then Red
    else if s == Some(Finished) then Green
    else Orange
  }

  /** `CASE WHEN <dept>_status = 'in_progress' THEN 0
      WHEN <dept>_status = 'finished' THEN 1 ELSE 2 END` */
  function DeptRank(s: Option<Status>): (r: nat)
    ensures r == 0 <==> s == Some(InProgress)
    ensures r == 1 <==> s == Some(Finished)
    ensures r <= 2
  {
    if s == Some(InProgress) then 0
    else if s == Some(Finished) then 1
    else 2
  }

  /** Green boards are exactly those in the middle band of the listing, the
      first band is orange and the red boards are in the last band. A NULL
      status is coloured orange like work in progress yet listed last. */
  lemma ColorMatchesRank(s: Option<Status>)
    ensures DeptColor(s) == Green <==> DeptRank(s) == 1
    ensures DeptRank(s) == 0 ==> DeptColor(s) == Orange
    ensures DeptColor(s) == Red ==> DeptRank(s) == 2
    ensures s.None? ==> DeptColor(s) == Orange && DeptRank(s) == 2
  {
  }

  /** `b.creation_date DESC`: PostgreSQL puts NULLs first in a descending
      order, then later dates before earlier ones. */
  predicate CreatedNoEarlier(x: Option<int>, y: Option<int>)
  {
    x.None? || (y.Some? && x.value >= y.value)
  }

  /** Board `a` may be listed before board `b` in the workshop or electrical
      listing: by status band, then by creation date descending. */
  predicate ListedBefore(a: Board, b: Board, d: ChecklistDept)
  {
    DeptRank(StatusOf(a, d)) < DeptRank(StatusOf(b, d))
    || (DeptRank(StatusOf(a, d)) == DeptRank(StatusOf(b, d)) && CreatedNoEarlier(a.creationDate, b.creationDate))
  }

  /** The listing order is a total preorder, so ORDER BY has an answer. */
  lemma ListedBeforeIsTotalPreorder(a: Board, b: Board, c: Board, d: ChecklistDept)
    ensures ListedBefore(a, b, d) || ListedBefore(b, a, d)
    ensures ListedBefore(a, a, d)
    ensures ListedBefore(a, b, d) && ListedBefore(b, c, d) ==> ListedBefore(a, c, d)
  {
  }

  predicate NeighboursInOrder(s: seq<Board>, d: ChecklistDept)
  {
    forall i :: 0 < i < |s| ==> ListedBefore(s[i - 1], s[i], d)
  }

  predicate InListingOrder(s: seq<Board>, d: ChecklistDept)
  {
    forall i, j :: 0 <= i < j < |s| ==> ListedBefore(s[i], s[j], d)
  }

  /** A listing whose neighbours are in order is in order throughout; in it
      every in-progress board precedes every finished board, which precedes
      every semifinished one. */
  lemma {:induction false} NeighboursSuffice(s: seq<Board>, d: ChecklistDept)
    requires NeighboursInOrder(s, d)
    ensures InListingOrder(s, d)
    ensures forall i, j :: 0 <= i < j < |s| ==> DeptRank(StatusOf(s[i], d)) <= DeptRank(StatusOf(s[j], d))
  {
    if |s| > 1 {
      var t := s[..|s| - 1];
      assert NeighboursInOrder(t, d) by {
        forall i | 0 < i < |t| ensures ListedBefore(t[i - 1], t[i], d) {
          assert t[i - 1] == s[i - 1] && t[i] == s[i];
        }
      }
      NeighboursSuffice(t, d);
      forall i, j | 0 <= i < j < |s| ensures ListedBefore(s[i], s[j], d) {
        if j < |s| - 1 {
          assert s[i] == t[i] && s[j] == t[j];
        } else if i < j - 1 {
          assert s[i] == t[i] && s[j - 1] == t[j - 1];
          ListedBeforeIsTotalPreorder(s[i], s[j - 1], s[j], d);
        }
      }
    }
  }

  /** The summary colour (`status_color` of the summary pages): green when
      `is_fully_finished` is TRUE; red when a watched workshop parameter has a
      comment but no value; orange otherwise. It does not read the
      `<dept>_status` columns. */
  function SummaryColor(b: Board): (r: Color)
    ensures r == Green <==> b.isFullyFinished == Some(true)
    ensures r == Red ==> b.workshopComments.Some? && b.workshopComments.value != map[]
  {
    if b.isFullyFinished == Some(true) then Green
    else if SummaryRed(b) then Red
    else Orange
  }

  /** The red test of the summary pages: the engine installation has a comment
      but no date, or a watched parameter has a comment but no value. */
  predicate SummaryRed(b: Board)
    ensures SummaryRed(b) ==> b.workshopComments.Some? && b.workshopComments.value != map[]
  {
    (TextNotNullAt(b.workshopComments, "engine_installation") && b.engineInstallationDate.None?)
    || exists k :: k in SummaryWatchedParams && TextNotNullAt(b.workshopComments, k) && !TextNotNullAt(b.workshopParams, k)
  }

  /** A board that is red on the summary page is not `workshop_complete`,
      and a complete board is never red there. */
  lemma SummaryRedMeansIncomplete(b: Board)
    ensures SummaryColor(b) == Red ==> !WorkshopComplete(b)
    ensures WorkshopComplete(b) ==> SummaryColor(b) != Red
  {
  }

  /** The summary colour and the department colours read different columns:
      rewriting a status column never changes the summary colour. */
  lemma SummaryIgnoresStatus(b: Board, d: ChecklistDept, s: Option<Status>)
    ensures SummaryColor(WithStatus(b, d, s)) == SummaryColor(b)
  {
  }
}
