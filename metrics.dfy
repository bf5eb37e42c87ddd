/** Process-wide counters for observability. Each counter is its own field,
    and each update names only the field it changes, so no update can disturb
    another counter. */
module Metrics {

  /** What one metrics log line reports. */
  datatype MetricsSnapshot = MetricsSnapshot(
    sessions: int, svcToPv: int, pvToSvc: int, dropped: int, transcoded: int)

  class BridgeMetrics {
    var activeSessions: int
    var svcToPlasmoFrames: int
    var plasmoToSvcFrames: int
    var droppedFrames: int
    var transcodingCount: int

    predicate AllZero()
      reads this
    {
      activeSessions == 0 && svcToPlasmoFrames == 0 && plasmoToSvcFrames == 0
      && droppedFrames == 0 && transcodingCount == 0
    }

    constructor ()
      ensures AllZero()
    {
      activeSessions, svcToPlasmoFrames, plasmoToSvcFrames := 0, 0, 0;
      droppedFrames, transcodingCount := 0, 0;
    }

    method Reset()
      modifies this
      ensures AllZero()
    {
      activeSessions := 0;
      svcToPlasmoFrames := 0;
      plasmoToSvcFrames := 0;
      droppedFrames := 0;
      transcodingCount := 0;
    }

    /** Reads the five counters for the log line; changes nothing. */
    method Log() returns (line: MetricsSnapshot)
      ensures line.sessions == activeSessions && line.svcToPv == svcToPlasmoFrames
      ensures line.pvToSvc == plasmoToSvcFrames && line.dropped == droppedFrames
      ensures line.transcoded == transcodingCount
    {
      line := MetricsSnapshot(activeSessions, svcToPlasmoFrames, plasmoToSvcFrames,
                              droppedFrames, transcodingCount);
    }

    method IncrementActiveSessions()
      modifies this`activeSessions
      ensures activeSessions == old(activeSessions) + 1
    {
      activeSessions := activeSessions + 1;
    }

    method DecrementActiveSessions()
      modifies this`activeSessions
      ensures activeSessions == old(activeSessions) - 1
    {
      activeSessions := activeSessions - 1;
    }

    method SetActiveSessions(value: int)
      modifies this`activeSessions
      ensures activeSessions == value
    {
      activeSessions := value;
    }

    method IncrementSvcToPlasmoFrames()
      modifies this`svcToPlasmoFrames
      ensures svcToPlasmoFrames == old(svcToPlasmoFrames) + 1
    {
      svcToPlasmoFrames := svcToPlasmoFrames + 1;
    }

    method IncrementPlasmoToSvcFrames()
      modifies this`plasmoToSvcFrames
      ensures plasmoToSvcFrames == old(plasmoToSvcFrames) + 1
    {
      plasmoToSvcFrames := plasmoToSvcFrames + 1;
    }

    method IncrementDroppedFrames()
      modifies this`droppedFrames
      ensures droppedFrames == old(droppedFrames) + 1
    {
      droppedFrames := droppedFrames + 1;
    }
  }
}
