/** The entities of the oil-spill dashboard: zones, spill features, historical
    events, cleanup status values and chat transcript entries. */
module Types {

  datatype Option<+T> = None | Some(value: T)

  /** A danger zone: identifier, centre coordinate (degrees) and scene reference. */
  datatype Zone = Zone(zoneId: string, lat: real, lon: real, sceneId: string)

  /** The properties of one spill feature of a zone. `spillId` is None when the
      feature carries no "spill_id" property. The point geometry is unused by the
      dashboard and is not kept. */
  datatype Spill = Spill(
    spillId: Option<string>,
    areaKm2: real,
    oilType: string,
    thicknessClass: string,
    confidence: real)

  /** A past spill of a zone, used only for the history summary. */
  datatype HistoryEvent = HistoryEvent(date: string, areaKm2: real, spillId: string)

  /** The cleanup lifecycle of one spill: "idle", "cleaning" or "done". */
  datatype Status = Idle | Cleaning | Done

  datatype Role = User | Assistant

  /** One entry of the chat transcript: {"role": ..., "content": ...}. */
  datatype ChatMessage = ChatMessage(role: Role, content: string)
}
