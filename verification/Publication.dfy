/** What a graph publication and its clients exchange besides the graph. */
module Publication {
  datatype PublicationState = Synchronizing | Live | Stale

  /** What a completed delta does to the client's wake schedule. */
  datatype ScheduleAction = Replace(wakeAt: nat, wakeSent: bool) | ValidateOnly
}
