/**
 * A user's conversation state: the finite-state-machine phase set by the handlers
 * (no phase, `PoiState.poi`, `PoiState.poi_list`) and the data stored with it.
 */
module Session {
  import Search

  datatype Phase = NoPhase | PoiShown | PoiListShown

  /** The stored data: nothing, `{'poi': id}`, or `{'query': q, 'poi': ids}`. */
  datatype Data = NoData | OnePoi(poi: Search.PoiId) | PoiList(query: string, pois: seq<Search.PoiId>)

  datatype Session = Session(phase: Phase, data: Data)

  /** What `state.finish()` leaves: no phase and no data. */
  const Finished := Session(NoPhase, NoData)

  /** Each phase carries its own kind of data; a list always has more than one POI. */
  predicate WellFormed(s: Session) {
    || (s.phase == NoPhase && s.data == NoData)
    || (s.phase == PoiShown && s.data.OnePoi?)
    || (s.phase == PoiListShown && s.data.PoiList? && |s.data.pois| > 1)
  }

  /**
   * The session `process_query` sets for a non-empty result: one POI is shown with its
   * id, several are listed with the stored query and the full ordered id list.
   */
  function QuerySession(pois: seq<Search.PoiId>, query: string): (s: Session)
    requires pois != []
    ensures WellFormed(s)
    ensures s.phase == PoiShown <==> |pois| == 1
    ensures s.phase == PoiShown ==> s.data == OnePoi(pois[0])
    ensures s.phase == PoiListShown <==> |pois| > 1
    ensures s.phase == PoiListShown ==> s.data == PoiList(query, pois)
  {
    if |pois| == 1 then Session(PoiShown, OnePoi(pois[0]))
    else Session(PoiListShown, PoiList(query, pois))
  }
}
