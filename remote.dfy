/** What the program sees of S3: the pages of a listing and the outcome of an S3 Select
    request. The service is a value handed to the program, not something it computes. */
module Remote {
  import opened Types
  import opened Query

  /** One message of the S3 Select event stream. Only `Records` carries output. */
  datatype Event =
    | Records(payload: string)
    | Stats
    | Progress
    | Cont
    | End

  /** The outcome of `SelectObjectContent`: the request is rejected with an error, or it
      is accepted and yields its events in order, after which closing the stream either
      succeeds or fails with an error. */
  datatype SelectOutcome =
    | Rejected(err: Error)
    | Streamed(events: seq<Event>, closeFailure: Option<Error>)

  /** `ListObjectsV2Pages` for one bucket and prefix: the pages that are fetched in order,
      each a sequence of keys, and then either the end of the listing (`None`) or the
      error of fetching the next page. */
  datatype Listing = Listing(pages: seq<seq<string>>, failure: Option<Error>)

  /** The S3 client the program holds: what each request returns and what each
      (bucket, prefix) lists. */
  datatype Store = Store(
    select: SelectRequest -> SelectOutcome,
    list: (string, string) -> Listing)
}
