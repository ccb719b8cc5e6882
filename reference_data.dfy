/** The dashboard's static reference data: three zones in the Caspian Sea, one
    spill per zone and a few historical events per zone. Coordinates and areas
    are exact reals. */
module ReferenceData {
  import opened Types

  /** DANGER_ZONES["zones"], in their fixed enumeration order. */
  const DangerZones: seq<Zone> := [
    Zone("Z1", 40.20, 49.80, "SCENARIO_001"),
    Zone("Z2", 40.05, 49.9, "SCENARIO_001"),
    Zone("Z3", 39.90, 50.00, "SCENARIO_001")
  ]

  /** HISTORY_DATA: past spills per zone. */
  const HistoryData: map<string, seq<HistoryEvent>> := map[
    "Z1" := [
      HistoryEvent("2023-05-10", 1.8, "H1"),
      HistoryEvent("2023-08-21", 2.2, "H2"),
      HistoryEvent("2024-01-03", 1.1, "H3")
    ],
    "Z2" := [
      HistoryEvent("2022-11-02", 3.0, "H4")
    ],
    "Z3" := [
      HistoryEvent("2023-02-15", 0.9, "H5"),
      HistoryEvent("2023-09-10", 1.2, "H6")
    ]
  ]

  /** The spill feature table held inside get_spill_geojson. */
  const SpillData: map<string, seq<Spill>> := map[
    "Z1" := [Spill(Some("S1"), 2.5, "crude", "thick", 0.92)],
    "Z2" := [Spill(Some("S2"), 3.8, "crude", "medium", 0.88)],
    "Z3" := [Spill(Some("S3"), 1.5, "crude", "thin", 0.79)]
  ]
}
