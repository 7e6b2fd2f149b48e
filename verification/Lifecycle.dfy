/** What the HTTP and the stdio server share: the watch goroutine, the log and its shutdown
    records (server.go). A buffered channel of capacity one is an Option: a send needs it
    empty, a receive takes its value. */
module Lifecycle {
  datatype Reason = BySignal | ByServeFailure | ByWatchError

  datatype Record = Starting | ShuttingDown(reason: Reason) | ServerStopped

  /** The reasons of the shutdown records in a log. */
  function Shutdowns(log: seq<Record>): seq<Reason> {
    if log == [] then []
    else Shutdowns(log[..|log| - 1]) + (match log[|log| - 1] case ShuttingDown(r) => [r] case _ => [])
  }

  lemma ShutdownsNext(log: seq<Record>, record: Record)
    ensures Shutdowns(log + [record]) == Shutdowns(log) + (match record case ShuttingDown(r) => [r] case _ => [])
  {
    assert (log + [record])[..|log|] == log;
  }

  lemma NoShutdowns()
    ensures Shutdowns([]) == []
  {
  }

  /** How the watch loop ended: with its context, or with an error of its own. */
  datatype WatchOutcome = Canceled | Fatal

  /** The watch goroutine, which exists only if watching was asked for. */
  datatype Watch = NotWatching | Watching | WatchSending(outcome: WatchOutcome) | WatchExited(outcome: WatchOutcome)

  function WatchRank(w: Watch): nat {
    match w case Watching => 2 case WatchSending(_) => 1 case _ => 0
  }
}
