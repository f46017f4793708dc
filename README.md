# s3grep, modelled in Dafny

s3grep is a grep over S3. Given a path `s3://bucket/key` and a search term, it
pushes a substring search down to S3 Select and prints the matching lines. It
first treats the path as one object. When S3 answers that there is no such key
(or the key ends in '/'), it treats the path as a prefix instead. It then walks
the paged listing of that prefix and scans every object under it, printing a
header line `=== key ===` before each object's matches. The first error ends
the run.

This project models the whole of that logic (`s3grep.go`) over an abstract S3:

- `types.dfy` (module `Types`): Go's error values. An `AwsError` is an
  `awserr.Error` with a code. A `GenericError` is any other error, known only
  by its text. The module also holds `strings.HasPrefix` and
  `strings.HasSuffix`.
- `paths.dfy` (`Paths`): `trimInitialSlash` and `parseS3Path`. The outcome
  of `url.Parse` is an input.
- `query.dfy` (`Query`): `getCompression`, `scanObjectParams` (the S3 Select
  request as a datatype) and `isFolderKey`.
- `remote.dfy` (`Remote`): what S3 gives back. A `Store` maps each request
  to its outcome and each (bucket, prefix) to its listing. A request is
  either rejected with an error, or accepted, in which case it yields a
  sequence of events and then a close that may fail. A listing is a sequence
  of pages, then either its end or the error of fetching the next page.
- `walker.dfy` (`Walker`): `iterObjects` and its page callback, as methods
  with loops. They are proved against the function `Walk`. `Walk` is in turn
  proved equal to a flat reference: the non-folder keys in listing order, up
  to and including the first key that `process` rejects.
- `scanner.dfy` (`Scanner`): `matchS3`, `scanAndMatchS3` and the callback
  that `scanAndMatchS3` hands `iterObjects`, as methods. They are proved
  against the functions `Match` and `ScanPrefix`.
- `orchestrator.dfy` (`Orchestrator`): `main` from line 194 on. This covers
  the parse, the single-object attempt and the fallback to a prefix scan.
  Each `exitErrorf` call is modelled as an `Exit` outcome.

Standard output is the sequence of lines a call prints. Each element is one
`fmt.Println`.

## Model

| member | source | states |
|---|---|---|
| `Paths.TrimInitialSlash` | s3grep.go:32-38 | a string starting with '/' is '/' followed by the result; any other string is returned unchanged |
| `Paths.ParseS3Path` | s3grep.go:41-51 | succeeds exactly when the URL parsed and its scheme is "s3"; a parse error is passed through; a wrong scheme gives the scheme error; on success the bucket is the host and the path is the key with or without one leading '/' |
| `Paths.SchemeErrorNamesScheme` | s3grep.go:47 | the scheme error's text contains the offending scheme, and it is not an `awserr.Error` |
| `Paths.LeadingSlashOptional` | s3grep.go:41-51 | a parsed URL with scheme "s3", host b and path "/k", and one with path "k", both resolve to the location (b, k) |
| `Paths.OnlyOneSlashTrimmed` | s3grep.go:32-38 | only one separator is removed: the path "//k" gives the key "/k" |
| `Query.CompressionSuffixesExclusive` | s3grep.go:54-62 | no key ends both in ".gz" and in ".bz2", so the order of the two tests does not matter |
| `Query.GetCompression` | s3grep.go:54-62 | "GZIP" exactly for keys ending in ".gz", "BZIP2" exactly for keys ending in ".bz2", "NONE" exactly for all other keys |
| `Query.CompressionOfExtension` | s3grep.go:54-62 | whatever the name, ".gz" selects GZIP, ".bz2" selects BZIP2 and ".txt" selects NONE |
| `Query.ScanObjectParams` | s3grep.go:65-89 | bucket and key pass through unchanged; compression is the key's; the expression type, the NUL field delimiter, the newline record delimiter, the absent header and the unquoted output are fixed; the expression is the LIKE query with the term pasted in |
| `Query.SearchTermRoundTrip` | s3grep.go:72 | the term can be read back out of the built expression: it is embedded verbatim, with no escaping |
| `Query.ScanObjectParamsInjective` | s3grep.go:65-89 | two requests are equal exactly when bucket, key and term are equal |
| `Query.OnlyExpressionDependsOnTerm` | s3grep.go:65-89 | requests for the same bucket and key differ in the expression only, whatever the terms |
| `Query.IsFolderKey` | s3grep.go:93-95 | true exactly when the key is non-empty and its last character is '/' |
| `Walker.TakeThroughStopsAtFirstFailure` | s3grep.go:109-116 | the reference walk is a prefix of the keys; every key but the last passes; it takes every key when all pass; otherwise its last key is one that fails |
| `Walker.VisitPageAgrees` | s3grep.go:107-118 | one page hands `process` exactly the reference walk over its non-folder keys, and continues exactly when all of them pass |
| `Walker.WalkAgrees` | s3grep.go:99-121 | the paged walk hands `process` the non-folder keys in listing order across pages, up to and including the first it rejects; it returns the listing error only when no key was rejected, and no error after a stop |
| `Walker.WalkSkipsFolders` | s3grep.go:110 | no key ending in '/' is ever handed to `process` |
| `Walker.ProcessPage` | s3grep.go:107-118 | the page callback's calls and its answer are those of `VisitPage` |
| `Walker.IterObjects` | s3grep.go:99-121 | the keys handed to `process` and the returned error are those of `Walk` over the listing of the prefix |
| `Scanner.PayloadsAreRecords` | s3grep.go:144-150 | a line is printed from the events exactly when some `Records` event carries it; there are no more lines than events |
| `Scanner.MatchFolderKey` | s3grep.go:126-128 | a folder key gives a `NoSuchKey` error with nothing printed, whatever S3 would answer |
| `Scanner.MatchRejected` | s3grep.go:133-136 | a rejected request returns its error and prints nothing, not even the header |
| `Scanner.MatchStreamed` | s3grep.go:138-157 | an accepted request prints the header (only if asked) and then every record payload in order; it fails exactly when the close fails, with a wrapped error that is not an `awserr.Error` |
| `Scanner.NoSuchKeyPrintsNothing` | s3grep.go:124-157 | a scan that reports `NoSuchKey` has printed nothing |
| `Scanner.MatchS3` | s3grep.go:124-158 | the error and printed lines of the step-by-step scan are those of `Match` |
| `Scanner.ScanEntry` | s3grep.go:164-171 | the callback prints and keeps the scan's result, and asks to continue exactly when the scan succeeded |
| `Scanner.ScanPage` | s3grep.go:107-118 | one page of the prefix scan visits the keys `VisitPage` gives for "scan succeeds", prints their output in order, and leaves the last scan's error; the `break` after a failed scan is the loop's `keepGoing` guard |
| `Scanner.ScanPrefixFirstErrorWins` | s3grep.go:161-178 | if the i-th non-folder key of the listing is the first whose scan fails, only keys 0..i are scanned and printed, and its error is returned even if the listing fails later |
| `Scanner.ScanPrefixAllSucceed` | s3grep.go:161-178 | if every non-folder key of the listing scans, all are scanned in listing order with headers, and the result is the listing's own error or success |
| `Scanner.EmptyPrefixPrintsNothing` | s3grep.go:161-178 | a prefix with no objects and no listing error succeeds with no output |
| `Scanner.ScanAndMatch` | s3grep.go:161-178 | the error and printed lines of the step-by-step prefix scan are those of `ScanPrefix` |
| `Orchestrator.ResolveThenScan` | s3grep.go:199-216 | the outcome and output of the fallback block are those of `Resolve` |
| `Orchestrator.Run` | s3grep.go:194-216 | the outcome and output of `main` after flag parsing are those of `Grep` |
| `Orchestrator.NoFallbackWithoutNoSuchKey` | s3grep.go:199-216 | unless the single-object scan fails with `NoSuchKey`, the run does not depend on any listing, prints only the single scan's output, and ends in `Success` or in the `Exit` that matches the error's kind (`ScanningFailed` for an `awserr.Error`, `GenericScanningFailed` otherwise), carrying that error |
| `Orchestrator.FallbackIsPrefixScan` | s3grep.go:202-209 | after a `NoSuchKey` error the run is exactly the prefix scan: its output, and its error as a listing-and-scanning failure |
| `Orchestrator.FolderPathScansPrefix` | s3grep.go:126-127 | a key ending in '/', after one leading '/' is removed from the path, always goes to the prefix scan |
| `Orchestrator.CloseFailureIsFatal` | s3grep.go:153-155 | a failed close ends the run as a generic error with no fallback; the matches already printed stay printed |
| `Orchestrator.SingleObjectPrintsRecords` | s3grep.go:200 | an existing object prints exactly its matching records, with no header |
| `Orchestrator.OtherAwsErrorIsFatal` | s3grep.go:210-211 | an S3 error with any other code ends the run with that error and no output |
| `Orchestrator.BadPathIsFatal` | s3grep.go:194-197 | a path that does not parse, or whose parsed scheme is not "s3", ends the run with the parse error or the scheme error and no output, whatever S3 holds |
| `Orchestrator.BucketRootIsSingleObject` | s3grep.go:194-216 | the bucket root "s3://b/" gives the empty key, which is not a folder key: it is asked for as the single object "", and unless S3 answers `NoSuchKey` the run prints only that scan's output, without listing anything |
| `Orchestrator.PrefixScanExample` | s3grep.go:194-216 | for the parsed path "s3://b/logs/" listing a folder entry, then "logs/a.txt" and "logs/b.txt", the folder entry is skipped and each object's header precedes its lines, in listing order |

## Left out

- `getS3`, the session and the credentials (s3grep.go:22-29) are not modelled. The client is the `Store` value passed in.
- Flag parsing and the checks for empty flags (s3grep.go:183-192) are not modelled. The run starts from the parsed path and the term.
- `exitErrorf` and `os.Exit` are not modelled as such. A failed run ends in `Exit(reason, error)`: the reason is which of the four messages is printed, and the error is what `%v` formats.
- The bucket root "s3://b/" cannot be grepped as a whole: its key is "", which is not a folder key, so S3 is asked for the object "" and the listing happens only if S3 answers `NoSuchKey`. What S3 answers for an empty key is outside the model (the store decides); `Orchestrator.BucketRootIsSingleObject` states the rest.
- `url.Parse` is not modelled. Its outcome (scheme, host and path, or an error) is an input of `ParseS3Path`. What `url.Parse` does to the text before `parseS3Path` sees it is outside the model: it lowercases the scheme (so "S3://b/k" is accepted), percent-decodes the path, cuts it at '?' or '#', and for "s3://host..." text gives a path that is empty or starts with '/'.
- How S3 Select evaluates the LIKE predicate and frames CSV is not modelled. The model covers the request that is built and whatever events S3 returns for it.
- The event-stream channel and its transport are not modelled. The stream is a finite sequence of tagged events, then the result of `Close`.
- Byte-level output formatting is not modelled. One `fmt.Println` is one element of the printed sequence. Payload bytes are a string, and a payload holding several lines stays one element.
- The `lastPage` argument of the listing callback is not modelled. The source ignores it.
- `Types.Text`: an `awserr.Error` is rendered as "code: message". Its extra fields and wrapped cause are not modelled. This matters only for the text of the wrapped close error.
- `Walker.IterObjects`: `process` is a pure function here, because a Dafny function cannot print. The printing callback of `scanAndMatchS3` is modelled by `Scanner.ScanAndMatch`, `Scanner.ScanPage` and `Scanner.ScanEntry`. They repeat the walk's loops with the scan in place of the call to `process`, and are proved against the same `Walk`.
