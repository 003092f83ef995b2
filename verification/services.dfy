/**
 * The requests the state layer sends to the backend. The transport itself is not
 * modelled: a `Network` object records every request it is asked to send, in order,
 * and whether a request succeeded is a parameter of the method that awaits it.
 */
module Services {
  import opened Wrappers

  /** One `{ streamerUuid, isActive }` element of the batch active-state request. */
  datatype ActiveUpdate = ActiveUpdate(streamerUuid: string, isActive: bool)

  /** The body of a schedule creation request: the editor form as it stands. */
  datatype CreateScheduleRequest = CreateScheduleRequest(
    title: string,
    scheduleDate: string,
    startTime: string,
    status: string,
    description: string,
    streamerUuid: string)

  /**
   * The body of a schedule modification request: no streamer, date or local time, the
   * UTC start only when there is one, and the version stamp (absent when the schedule
   * being edited has none).
   */
  datatype ModifyScheduleRequest = ModifyScheduleRequest(
    title: string,
    status: string,
    description: string,
    startAtUtc: Option<string>,
    lastUpdatedAt: Option<string>)

  /** The query of the schedule list request; the home calendar filters by platform instead of by streamer. */
  datatype GetSchedulesDto = GetSchedulesDto(
    startDate: string,
    endDate: string,
    streamerUuids: Option<seq<string>>,
    platforms: Option<seq<string>>)

  /** The body of the streamer directory request: optional keys are left out when absent. */
  datatype StreamerListRequest = StreamerListRequest(
    isVerified: bool,
    page: int,
    size: int,
    platforms: Option<seq<string>>,
    qName: Option<string>)

  datatype Call =
    | SaveBatchActiveFollowing(updates: seq<ActiveUpdate>)
    | FollowStreamer(streamerUuid: string)
    | UnfollowStreamer(streamerUuid: string)
    | AddLike(scheduleUuid: string)
    | RemoveLike(scheduleUuid: string)
    | CreateNewSchedule(createBody: CreateScheduleRequest)
    | ModifySchedule(scheduleUuid: string, modifyBody: ModifyScheduleRequest)
    | GetStreamerSchedules(query: GetSchedulesDto)
    | GetStreamerList(listBody: StreamerListRequest)
    | UpdateProfile(nickname: string)

  /** The log of requests sent so far. */
  class Network {
    var log: seq<Call>

    constructor()
      ensures log == []
    {
      log := [];
    }

    /** Sends one request: it is appended to the log and nothing else changes. */
    method Send(c: Call)
      modifies this
      ensures log == old(log) + [c]
    {
      log := log + [c];
    }
  }
}
