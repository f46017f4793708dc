/** The body of `main` after flag parsing: resolve the path, try it as one object, and fall
    back to scanning it as a prefix when S3 says there is no such key. */
module Orchestrator {
  import opened Types
  import opened Paths
  import opened Query
  import opened Remote
  import opened Walker
  import opened Scanner

  /** The four `exitErrorf` calls that end a failed run. */
  datatype Fatal =
    | UnableToParsePath        // "Unable to parse path: %v"
    | ListingAndScanningFailed // "AWS Client Error listing prefixes and scanning: %v"
    | ScanningFailed           // "AWS Client Error scanning: %v"
    | GenericScanningFailed    // "Generic Error scanning: %v"

  /** How a run ends: normally, or through `exitErrorf` with the error it prints. */
  datatype Outcome = Success | Exit(reason: Fatal, err: Error)

  /** What a run ends with and what it printed on standard output. */
  datatype RunResult = RunResult(outcome: Outcome, printed: seq<string>)

  /** Lines 199-216 of `main`: the single-object attempt (no header) and the fallback. */
  function Resolve(store: Store, bucket: string, key: string, exp: string): RunResult
  {
    var single := Match(store, bucket, key, exp, false);
    match single.err
    case None => RunResult(Success, single.printed)
    case Some(e) =>
      if !e.AwsError? then RunResult(Exit(GenericScanningFailed, e), single.printed)
      else if e.code != NoSuchKey then RunResult(Exit(ScanningFailed, e), single.printed)
      else
        var prefixScan := ScanPrefix(store, bucket, key, exp);
        RunResult(
          if prefixScan.err.None? then Success else Exit(ListingAndScanningFailed, prefixScan.err.value),
          single.printed + prefixScan.printed)
  }

  /** Lines 194-216 of `main`: parse the path, then resolve it. */
  function Grep(store: Store, parsed: Result<Url>, exp: string): RunResult
  {
    match ParseS3Path(parsed)
    case Err(e) => RunResult(Exit(UnableToParsePath, e), [])
    case Ok(loc) => Resolve(store, loc.bucket, loc.key, exp)
  }

  /** The fallback of `main`, step by step. */
  method ResolveThenScan(store: Store, bucket: string, key: string, exp: string)
    returns (outcome: Outcome, printed: seq<string>)
    ensures RunResult(outcome, printed) == Resolve(store, bucket, key, exp)
  {
    var err;
    err, printed := MatchS3(store, bucket, key, exp, false);
    outcome := Success;
    if err.Some? {
      var e := err.value;
      if e.AwsError? {
        if e.code == NoSuchKey {
          var prefixErr, prefixPrinted := ScanAndMatch(store, bucket, key, exp);
          printed := printed + prefixPrinted;
          if prefixErr.Some? {
            outcome := Exit(ListingAndScanningFailed, prefixErr.value);
          }
        } else {
          outcome := Exit(ScanningFailed, e);
        }
      } else {
        outcome := Exit(GenericScanningFailed, e);
      }
    }
  }

  /** `main` from the parsed path on. */
  method Run(store: Store, parsed: Result<Url>, exp: string)
    returns (outcome: Outcome, printed: seq<string>)
    ensures RunResult(outcome, printed) == Grep(store, parsed, exp)
  {
    var location := ParseS3Path(parsed);
    if location.Err? {
      return Exit(UnableToParsePath, location.error), [];
    }
    outcome, printed := ResolveThenScan(store, location.value.bucket, location.value.key, exp);
  }

  /** The prefix is scanned only after a `NoSuchKey` error from the single-object attempt:
      after any other outcome the run does not depend on what S3 lists, and it ends as the
      single scan ends, any error being fatal under the message its kind selects. */
  lemma NoFallbackWithoutNoSuchKey(store: Store, bucket: string, key: string, exp: string,
                                   listing: (string, string) -> Listing)
    requires var single := Match(store, bucket, key, exp, false);
      !(single.err.Some? && IsNoSuchKey(single.err.value))
    ensures Resolve(store, bucket, key, exp) == Resolve(store.(list := listing), bucket, key, exp)
    ensures Resolve(store, bucket, key, exp).printed == Match(store, bucket, key, exp, false).printed
    ensures var single := Match(store, bucket, key, exp, false);
      Resolve(store, bucket, key, exp).outcome
        == if single.err.None? then Success
           else Exit(if single.err.value.AwsError? then ScanningFailed else GenericScanningFailed, single.err.value)
  {
  }

  /** After a `NoSuchKey` error nothing has been printed yet, and the run is exactly the
      prefix scan: its output, and its error reported as a listing-and-scanning failure. */
  lemma FallbackIsPrefixScan(store: Store, bucket: string, key: string, exp: string)
    requires var single := Match(store, bucket, key, exp, false);
      single.err.Some? && IsNoSuchKey(single.err.value)
    ensures var prefixScan := ScanPrefix(store, bucket, key, exp);
      Resolve(store, bucket, key, exp)
        == RunResult(if prefixScan.err.None? then Success else Exit(ListingAndScanningFailed, prefixScan.err.value),
                     prefixScan.printed)
  {
    NoSuchKeyPrintsNothing(store, bucket, key, exp, false);
    var prefixScan := ScanPrefix(store, bucket, key, exp);
    assert [] + prefixScan.printed == prefixScan.printed;
  }

  /** A key ending in '/' (after one leading '/' is removed from the path) always goes to
      the prefix scan, whatever S3 would answer for it as an object. */
  lemma FolderPathScansPrefix(store: Store, bucket: string, key: string, exp: string)
    requires IsFolderKey(key)
    ensures var prefixScan := ScanPrefix(store, bucket, key, exp);
      Resolve(store, bucket, key, exp)
        == RunResult(if prefixScan.err.None? then Success else Exit(ListingAndScanningFailed, prefixScan.err.value),
                     prefixScan.printed)
  {
    MatchFolderKey(store, store, bucket, key, exp, false);
    FallbackIsPrefixScan(store, bucket, key, exp);
  }

  /** A stream that fails to close ends the run with a generic error and no fallback, even
      though its matches were printed (without a header) and stay printed. */
  lemma CloseFailureIsFatal(store: Store, bucket: string, key: string, exp: string,
                            events: seq<Event>, cause: Error)
    requires !IsFolderKey(key)
    requires store.select(ScanObjectParams(bucket, key, exp)) == Streamed(events, Some(cause))
    ensures Resolve(store, bucket, key, exp)
         == RunResult(Exit(GenericScanningFailed, CloseError(cause)), Payloads(events))
  {
  }

  /** An object that exists prints exactly its matching records, with no header. */
  lemma SingleObjectPrintsRecords(store: Store, bucket: string, key: string, exp: string, events: seq<Event>)
    requires !IsFolderKey(key)
    requires store.select(ScanObjectParams(bucket, key, exp)) == Streamed(events, None)
    ensures Resolve(store, bucket, key, exp) == RunResult(Success, Payloads(events))
  {
  }

  /** An error of S3 other than `NoSuchKey` on the single object (a denied permission, say)
      ends the run with that error: no fallback, nothing printed. */
  lemma OtherAwsErrorIsFatal(store: Store, bucket: string, key: string, exp: string, e: Error)
    requires !IsFolderKey(key)
    requires store.select(ScanObjectParams(bucket, key, exp)) == Rejected(e)
    requires e.AwsError? && e.code != NoSuchKey
    ensures Resolve(store, bucket, key, exp) == RunResult(Exit(ScanningFailed, e), [])
  {
  }

  /** A path that does not parse, or whose scheme is not "s3", ends the run before S3 is
      asked anything. */
  lemma BadPathIsFatal(store: Store, parsed: Result<Url>, exp: string)
    requires parsed.Err? || parsed.value.scheme != S3Scheme
    ensures Grep(store, parsed, exp) == RunResult(Exit(UnableToParsePath, ParseS3Path(parsed).error), [])
  {
  }

  /** The bucket root "s3://b/" is not a folder: its key is empty, so it is first asked for
      as the single object "" and is scanned as a prefix only if S3 answers `NoSuchKey`. */
  lemma BucketRootIsSingleObject(store: Store, bucket: string, exp: string, listing: (string, string) -> Listing)
    ensures ParseS3Path(Ok(Url(S3Scheme, bucket, "/"))) == Ok(Location(bucket, ""))
    ensures !IsFolderKey("")
    ensures Grep(store, Ok(Url(S3Scheme, bucket, "/")), exp) == Resolve(store, bucket, "", exp)
    ensures var single := Match(store, bucket, "", exp, false);
      !(single.err.Some? && IsNoSuchKey(single.err.value)) ==>
        && Grep(store, Ok(Url(S3Scheme, bucket, "/")), exp).printed == single.printed
        && Grep(store, Ok(Url(S3Scheme, bucket, "/")), exp)
           == Grep(store.(list := listing), Ok(Url(S3Scheme, bucket, "/")), exp)
  {
    var single := Match(store, bucket, "", exp, false);
    if !(single.err.Some? && IsNoSuchKey(single.err.value)) {
      NoFallbackWithoutNoSuchKey(store, bucket, "", exp, listing);
    }
  }

  /** A store whose listing of any prefix holds the folder "logs/" and the objects
      "logs/a.txt" and "logs/b.txt", over two pages. */
  function ExampleStore(): Store {
    Store(ExampleSelect, ExampleList)
  }

  function ExampleSelect(req: SelectRequest): SelectOutcome {
    if req.key == "logs/a.txt" then Streamed([Records("a1"), Stats, End], None)
    else Streamed([Records("b1"), Records("b2")], None)
  }

  function ExampleList(bucket: string, prefix: string): Listing {
    Listing([["logs/", "logs/a.txt"], ["logs/b.txt"]], None)
  }

  lemma ExampleListing()
    ensures PrefixCandidates(ExampleStore(), "b", "logs/") == ["logs/a.txt", "logs/b.txt"]
  {
    var pages := ExampleList("b", "logs/").pages;
    assert NonFolders(pages[0]) == ["logs/a.txt"];
    assert NonFolders(pages[1]) == ["logs/b.txt"];
    assert pages[1..][1..] == [];
  }

  lemma ExampleHeaders()
    ensures Header("logs/a.txt") == "=== logs/a.txt ==="
    ensures Header("logs/b.txt") == "=== logs/b.txt ==="
  {
  }

  lemma ExampleScanA(exp: string)
    ensures Match(ExampleStore(), "b", "logs/a.txt", exp, true) == ScanResult(None, ["=== logs/a.txt ===", "a1"])
  {
    var events: seq<Event> := [Records("a1"), Stats, End];
    assert Payloads(events) == ["a1"] by {
      assert events[1..] == [Stats, End] && events[1..][1..] == [End] && events[1..][1..][1..] == [];
    }
    var req := ScanObjectParams("b", "logs/a.txt", exp);
    assert req.key == "logs/a.txt";
    assert ExampleSelect(req) == Streamed(events, None);
    assert ExampleStore().select(req) == ExampleSelect(req);
    ExampleHeaders();
  }

  lemma ExampleScanB(exp: string)
    ensures Match(ExampleStore(), "b", "logs/b.txt", exp, true) == ScanResult(None, ["=== logs/b.txt ===", "b1", "b2"])
  {
    var events: seq<Event> := [Records("b1"), Records("b2")];
    assert Payloads(events) == ["b1", "b2"] by {
      assert events[1..] == [Records("b2")] && events[1..][1..] == [];
    }
    var req := ScanObjectParams("b", "logs/b.txt", exp);
    assert req.key == "logs/b.txt" && req.key[5] != "logs/a.txt"[5];
    assert ExampleSelect(req) == Streamed(events, None);
    assert ExampleStore().select(req) == ExampleSelect(req);
    ExampleHeaders();
  }

  lemma ExamplePrinted(exp: string)
    ensures PrintedBy(ExampleStore(), "b", exp, ["logs/a.txt", "logs/b.txt"])
         == ["=== logs/a.txt ===", "a1", "=== logs/b.txt ===", "b1", "b2"]
  {
    var store := ExampleStore();
    var first, both := ["logs/a.txt"], ["logs/a.txt", "logs/b.txt"];
    ExampleScanA(exp);
    ExampleScanB(exp);
    assert first[..0] == [];
    assert PrintedBy(store, "b", exp, first) == Match(store, "b", "logs/a.txt", exp, true).printed;
    assert both[..1] == first && both[1] == "logs/b.txt";
    assert PrintedBy(store, "b", exp, both)
        == PrintedBy(store, "b", exp, first) + Match(store, "b", "logs/b.txt", exp, true).printed;
  }

  lemma ExamplePrefixScan(exp: string)
    ensures ScanPrefix(ExampleStore(), "b", "logs/", exp)
         == ScanResult(None, ["=== logs/a.txt ===", "a1", "=== logs/b.txt ===", "b1", "b2"])
  {
    var store := ExampleStore();
    ExampleListing();
    ExampleScanA(exp);
    ExampleScanB(exp);
    var cs := PrefixCandidates(store, "b", "logs/");
    assert ScanSucceeds(store, "b", exp, cs[0]) && ScanSucceeds(store, "b", exp, cs[1]);
    ScanPrefixAllSucceed(store, "b", "logs/", exp);
    assert store.list("b", "logs/").failure == None;
    ExamplePrinted(exp);
  }

  /** The path "s3://b/logs/": both objects are scanned in listing order, each after its
      header, and the folder entry is skipped. */
  lemma PrefixScanExample(exp: string)
    ensures Grep(ExampleStore(), Ok(Url(S3Scheme, "b", "/logs/")), exp)
         == RunResult(Success, ["=== logs/a.txt ===", "a1", "=== logs/b.txt ===", "b1", "b2"])
  {
    assert ParseS3Path(Ok(Url(S3Scheme, "b", "/logs/"))) == Ok(Location("b", "logs/"));
    FolderPathScansPrefix(ExampleStore(), "b", "logs/", exp);
    ExamplePrefixScan(exp);
  }
}
