/** The entities of a crawl: configuration, request records, resources. */
module CrawlTypes {
  import opened Wrappers

  type Url = string

  /** The host and path of a parsed URL, all that candidate selection looks at. */
  datatype Location = Location(host: string, path: string)

  /** The parts of a job's configuration that decide what is crawled.
      `parse` stands for `url.Parse`, which is foreign code. */
  datatype JobConfig = JobConfig(
    id: string,
    seeds: seq<Url>,
    crawl: bool,
    maxAttempts: int,
    stopUrl: Url,
    ignorePatterns: seq<string>,
    domains: seq<Location>,
    parse: Url -> Option<Location>)

  datatype Status = Unknown | Fetch | Queued | Requesting | Done | Failed

  /** What the request store remembers under a URL. */
  datatype Record = Record(jobID: string, status: Status, attempts: nat, prevStatus: int)

  /** A fetched page. `content` stands for the fields the coordinator only passes on. */
  datatype Resource = Resource(jobID: string, url: Url, status: int, links: seq<Url>, content: string)

  /** What a worker reads off a request it takes from the queue. */
  datatype Entry = Entry(jobID: string, url: Url)

  /** One `go h.HandleResource(rsc)` that has been started but has not run yet. */
  datatype Call = Call(handler: nat, rsc: Resource)

  /** How the deferred part of `dequeue` leaves its call: it goes on, it waits to receive on the shutdown
      channel, or it waits in `Shutdown` to send on it. */
  datatype Turn = Goes | Waits | Sends

  /** A call of `CompletedResources` that has come to a halt: the results it has not looked at yet and the
      links it has collected. */
  datatype Halted = Halted(rest: seq<Resource>, links: set<Url>, turn: Turn)

  function NewRecord(jobID: string): Record {
    Record(jobID, Unknown, 0, 0)
  }

  function EntryOf(r: Resource): Entry {
    Entry(r.jobID, r.url)
  }

  /** `job.okResponseStatus`: 200 to 308 inclusive. */
  predicate OkStatus(status: int) {
    200 <= status <= 308
  }
}
