/** `GET /api/bpla/:id/electrical-config`. Two handlers are registered for
    this path: the first answers from a table written into the server, the
    second from the `bpla` table. Express runs the first matching handler,
    and that one always answers, so the second is never reached. */
module ElectricalConfig {
  import opened Json
  import opened Boards

  /** `electricalConfigs`: the parameter keys per type id, in order. */
  const ElectricalConfigs: map<string, seq<string>> := map[
    "2" := ["telemetry_id", "bec_id", "gps_id", "video_tx_id", "pvd_id", "seal_number"],
    "1" := ["telemetry_id", "bec_id", "gps_id", "video_tx_id", "pvd_id"],
    "4" := ["telemetry_id", "bec_id", "gps_id", "video_tx_id"],
    "5" := ["telemetry_id", "bec_id", "gps_id", "video_tx_id"]]

  /** `electricalParamLabels` */
  const ElectricalParamLabels: map<string, string> := map[
    "telemetry_id" := "Модуль телеметрии",
    "bec_id" := "BEC",
    "gps_id" := "GPS модуль",
    "video_tx_id" := "Видеопередатчик",
    "pvd_id" := "ПВД",
    "seal_number" := "Номер пломбы"]

  /** `electricalParamLabels[key] || key`: a missing or empty label falls
      back to the key itself. */
  function LabelOf(key: string): (r: string)
    ensures r == key || (key in ElectricalParamLabels && r == ElectricalParamLabels[key])
    ensures key in ElectricalParamLabels && ElectricalParamLabels[key] != "" ==> r == ElectricalParamLabels[key]
    ensures key != "" ==> r != ""
  {
    if key in ElectricalParamLabels && ElectricalParamLabels[key] != "" then ElectricalParamLabels[key] else key
  }

  /** `paramKeys.reduce((obj, key) => { obj[key] = label; return obj; }, {})` */
  function LabelProjection(keys: seq<string>): (r: map<string, string>)
    ensures r.Keys == set k | k in keys
    ensures forall k :: k in r ==> r[k] == LabelOf(k)
  {
    if keys == [] then map[]
    else LabelProjection(keys[..|keys| - 1])[keys[|keys| - 1] := LabelOf(keys[|keys| - 1])]
  }

  /** Every key of the table has a label of its own, so no raw key reaches
      the page. */
  lemma TableKeysAreLabelled(id: string, k: string)
    requires id in ElectricalConfigs && k in ElectricalConfigs[id]
    ensures k in ElectricalParamLabels && LabelOf(k) == ElectricalParamLabels[k] && LabelOf(k) != k
  {
  }

  /** The answer of the route: `{ params }`, or 404. */
  datatype ConfigAnswer = LabelsFound(labels: map<string, string>) | StoredConfig(config: Config) | NotFound

  /** The first handler: `electricalConfigs[bplaId]?.params`. Only the ids of
      the table have a `params` list; a name every object inherits, such as
      `constructor`, yields `undefined` and so 404 as well. */
  function HardCodedConfig(id: string): (r: ConfigAnswer)
    ensures r.LabelsFound? <==> id in ElectricalConfigs
    ensures r.StoredConfig? == false
    ensures r.LabelsFound? ==> r.labels.Keys == set k | k in ElectricalConfigs[id]
  {
    if id in ElectricalConfigs then LabelsFound(LabelProjection(ElectricalConfigs[id])) else NotFound
  }

  /** The second handler: the `electrical_config` column of the type row,
      or 404 when the row is missing or the column is NULL. */
  function DatabaseConfig(types: map<int, UavType>, id: int): (r: ConfigAnswer)
    ensures r.StoredConfig? <==> id in types && types[id].electricalConfig.Some?
    ensures r.LabelsFound? == false
  {
    if id in types && types[id].electricalConfig.Some? then StoredConfig(types[id].electricalConfig.value) else NotFound
  }

  /** What a client gets for `GET /api/bpla/<id>/electrical-config`: the
      first handler always answers. */
  function ServeElectricalConfig(id: string, types: map<int, UavType>): (r: ConfigAnswer)
    ensures !r.StoredConfig?
    ensures r.LabelsFound? <==> id in ElectricalConfigs
    ensures r.LabelsFound? ==> r.labels.Keys == set k | k in ElectricalConfigs[id]
  {
    HardCodedConfig(id)
  }

  /** The answer does not depend on the `bpla` table at all. */
  lemma ServedConfigIgnoresDatabase(id: string, types1: map<int, UavType>, types2: map<int, UavType>)
    ensures ServeElectricalConfig(id, types1) == ServeElectricalConfig(id, types2)
  {
  }

  /** A type whose electrical configuration is stored only in the database
      (id 3, say) gets 404, although the second handler would have found it. */
  lemma ShadowedRouteHidesStoredConfig(types: map<int, UavType>)
    requires 3 in types && types[3].electricalConfig.Some?
    ensures ServeElectricalConfig("3", types).NotFound?
    ensures DatabaseConfig(types, 3).StoredConfig?
  {
  }

  /** Type 2 is the only one with the seal number. */
  lemma SealNumberOnlyForTypeTwo(id: string)
    requires ServeElectricalConfig(id, map[]).LabelsFound?
    ensures "seal_number" in ServeElectricalConfig(id, map[]).labels <==> id == "2"
    ensures id == "2" ==> ServeElectricalConfig(id, map[]).labels["seal_number"] == "Номер пломбы"
  {
  }
}
