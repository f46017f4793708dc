/** `matchS3` and `scanAndMatchS3`: scanning one object, and scanning every object under a
    prefix. Standard output is modelled as the sequence of lines a call prints, one line per
    `fmt.Println`. */
module Scanner {
  import opened Types
  import opened Query
  import opened Remote
  import opened Walker

  /** The error `matchS3` reports for a folder key, without asking S3. */
  const FolderError: Error := AwsError(NoSuchKey, "Considering ending in '/' to not be a real key")

  /** What one scan returns and prints. */
  datatype ScanResult = ScanResult(err: Option<Error>, printed: seq<string>)

  /** The line printed before an object's matches when scanning a prefix. */
  function Header(key: string): string {
    "=== " + key + " ==="
  }

  /** The error reported when the event stream fails to close: made by `fmt.Errorf`, so it
      is no longer an `awserr.Error`. */
  function CloseError(cause: Error): Error {
    GenericError("failed to read from SelectObjectContent EventStream, " + Text(cause))
  }

  /** The payloads of the `Records` events, in arrival order. */
  function Payloads(events: seq<Event>): seq<string>
  {
    if events == [] then []
    else if events[0].Records? then [events[0].payload] + Payloads(events[1..])
    else Payloads(events[1..])
  }

  lemma {:induction false} PayloadsAppend(a: seq<Event>, b: seq<Event>)
    ensures Payloads(a + b) == Payloads(a) + Payloads(b)
  {
    if a == [] {
      assert a + b == b;
    } else {
      assert (a + b)[0] == a[0];
      assert (a + b)[1..] == a[1..] + b;
      PayloadsAppend(a[1..], b);
    }
  }

  /** Every printed payload is the payload of a `Records` event and every `Records`
      event's payload is printed; no other event adds a line. */
  lemma {:induction false} PayloadsAreRecords(events: seq<Event>)
    ensures |Payloads(events)| <= |events|
    ensures forall p :: p in Payloads(events) <==> Records(p) in events
  {
    if events != [] {
      PayloadsAreRecords(events[1..]);
      assert events == [events[0]] + events[1..];
    }
  }

  /** `matchS3`: what scanning one object returns and prints. */
  function Match(store: Store, bucket: string, key: string, exp: string, printKey: bool): ScanResult
  {
    if IsFolderKey(key) then ScanResult(Some(FolderError), [])
    else
      match store.select(ScanObjectParams(bucket, key, exp))
      case Rejected(e) => ScanResult(Some(e), [])
      case Streamed(events, closeFailure) =>
        ScanResult(
          if closeFailure.Some? then Some(CloseError(closeFailure.value)) else None,
          (if printKey then [Header(key)] else []) + Payloads(events))
  }

  /** A folder key is reported as a missing key, with nothing printed and no request made:
      the result does not depend on what S3 would answer. */
  lemma MatchFolderKey(store: Store, other: Store, bucket: string, key: string, exp: string, printKey: bool)
    requires IsFolderKey(key)
    ensures Match(store, bucket, key, exp, printKey) == ScanResult(Some(FolderError), [])
    ensures Match(store, bucket, key, exp, printKey) == Match(other, bucket, key, exp, printKey)
  {
  }

  /** A rejected request is returned as it is, and nothing is printed, not even the header. */
  lemma MatchRejected(store: Store, bucket: string, key: string, exp: string, printKey: bool, e: Error)
    requires !IsFolderKey(key)
    requires store.select(ScanObjectParams(bucket, key, exp)) == Rejected(e)
    ensures Match(store, bucket, key, exp, printKey) == ScanResult(Some(e), [])
  {
  }

  /** An accepted request prints the header (only when asked) and then each record payload
      in arrival order; a failure to close is reported after that output, which stays
      printed. */
  lemma MatchStreamed(store: Store, bucket: string, key: string, exp: string, printKey: bool,
                      events: seq<Event>, closeFailure: Option<Error>)
    requires !IsFolderKey(key)
    requires store.select(ScanObjectParams(bucket, key, exp)) == Streamed(events, closeFailure)
    ensures var r := Match(store, bucket, key, exp, printKey);
      && r.printed == (if printKey then [Header(key)] else []) + Payloads(events)
      && (r.err.None? <==> closeFailure.None?)
      && (r.err.Some? ==> !r.err.value.AwsError? && r.err == Some(CloseError(closeFailure.value)))
  {
  }

  /** A missing-key error comes only with empty output: a scan that printed anything never
      reports `NoSuchKey`. */
  lemma NoSuchKeyPrintsNothing(store: Store, bucket: string, key: string, exp: string, printKey: bool)
    requires var r := Match(store, bucket, key, exp, printKey); r.err.Some? && IsNoSuchKey(r.err.value)
    ensures Match(store, bucket, key, exp, printKey).printed == []
  {
  }

  /** `matchS3`, step by step: the folder test, the request, the header, then the event loop
      and the close. */
  method MatchS3(store: Store, bucket: string, key: string, exp: string, printKey: bool)
    returns (err: Option<Error>, printed: seq<string>)
    ensures ScanResult(err, printed) == Match(store, bucket, key, exp, printKey)
  {
    printed := [];
    if IsFolderKey(key) {
      return Some(FolderError), printed;
    }
    var params := ScanObjectParams(bucket, key, exp);
    var resp := store.select(params);
    if resp.Rejected? {
      return Some(resp.err), printed;
    }
    if printKey {
      printed := printed + [Header(key)];
    }
    var events := resp.events;
    for i := 0 to |events|
      invariant printed == (if printKey then [Header(key)] else []) + Payloads(events[..i])
    {
      PayloadsAppend(events[..i], [events[i]]);
      assert events[..i + 1] == events[..i] + [events[i]];
      match events[i] {
        case Records(payload) => printed := printed + [payload];
        case _ =>
      }
    }
    assert events[..|events|] == events;
    if resp.closeFailure.Some? {
      return Some(CloseError(resp.closeFailure.value)), printed;
    }
    return None, printed;
  }

  /** A key scans without error (the callback in `scanAndMatchS3` then returns true). */
  predicate ScanSucceeds(store: Store, bucket: string, exp: string, key: string) {
    Match(store, bucket, key, exp, true).err.None?
  }

  /** The callback's answer for each key, as the function `iterObjects` is given. */
  function Continue(store: Store, bucket: string, exp: string): string -> bool {
    key => ScanSucceeds(store, bucket, exp, key)
  }

  /** The lines printed by scanning each key in turn, with headers. */
  function PrintedBy(store: Store, bucket: string, exp: string, keys: seq<string>): seq<string>
  {
    if keys == [] then []
    else PrintedBy(store, bucket, exp, keys[..|keys| - 1]) + Match(store, bucket, keys[|keys| - 1], exp, true).printed
  }

  /** `internalError` after the callback ran on `keys`: each call overwrites it, so it holds
      the result of the last one. */
  function LastError(store: Store, bucket: string, exp: string, keys: seq<string>): Option<Error>
  {
    if keys == [] then None else Match(store, bucket, keys[|keys| - 1], exp, true).err
  }

  /** `scanAndMatchS3`: the walk decides which keys are scanned; the last scan's error, if
      any, wins over the walk's own error. */
  function ScanPrefix(store: Store, bucket: string, prefix: string, exp: string): ScanResult
  {
    var listing := store.list(bucket, prefix);
    var walk := Walk(listing.pages, listing.failure, Continue(store, bucket, exp));
    var internal := LastError(store, bucket, exp, walk.visited);
    ScanResult(if internal.Some? then internal else walk.err, PrintedBy(store, bucket, exp, walk.visited))
  }

  /** The keys a prefix scan may reach: the listing's non-folder keys in order. */
  function PrefixCandidates(store: Store, bucket: string, prefix: string): seq<string> {
    Candidates(store.list(bucket, prefix).pages)
  }

  lemma {:induction false} PrintedByAppend(store: Store, bucket: string, exp: string, a: seq<string>, b: seq<string>)
    ensures PrintedBy(store, bucket, exp, a + b) == PrintedBy(store, bucket, exp, a) + PrintedBy(store, bucket, exp, b)
  {
    if b == [] {
      assert a + b == a;
    } else {
      assert (a + b)[..|a + b| - 1] == a + b[..|b| - 1];
      assert (a + b)[|a + b| - 1] == b[|b| - 1];
      PrintedByAppend(store, bucket, exp, a, b[..|b| - 1]);
    }
  }

  /** What scanning `calls` and then `more` prints, and the error it leaves behind. */
  lemma ScannedAdvance(store: Store, bucket: string, exp: string, calls: seq<string>, more: seq<string>)
    ensures PrintedBy(store, bucket, exp, calls + more)
         == PrintedBy(store, bucket, exp, calls) + PrintedBy(store, bucket, exp, more)
    ensures LastError(store, bucket, exp, calls + more)
         == if more == [] then LastError(store, bucket, exp, calls) else LastError(store, bucket, exp, more)
  {
    PrintedByAppend(store, bucket, exp, calls, more);
    if more == [] {
      assert calls + more == calls;
    } else {
      assert (calls + more)[|calls + more| - 1] == more[|more| - 1];
    }
  }

  /** When the scan of the i-th non-folder key of the listing fails and every earlier one
      succeeds, the prefix scan stops there: it prints the output of keys 0..i only and
      returns that key's error, whatever the listing does afterwards. */
  lemma ScanPrefixFirstErrorWins(store: Store, bucket: string, prefix: string, exp: string, i: nat)
    requires i < |PrefixCandidates(store, bucket, prefix)|
    requires !ScanSucceeds(store, bucket, exp, PrefixCandidates(store, bucket, prefix)[i])
    requires forall j :: 0 <= j < i ==> ScanSucceeds(store, bucket, exp, PrefixCandidates(store, bucket, prefix)[j])
    ensures var cs := PrefixCandidates(store, bucket, prefix);
      ScanPrefix(store, bucket, prefix, exp)
        == ScanResult(Match(store, bucket, cs[i], exp, true).err, PrintedBy(store, bucket, exp, cs[..i + 1]))
  {
    var listing := store.list(bucket, prefix);
    var cs := Candidates(listing.pages);
    var ok := Continue(store, bucket, exp);
    assert !ok(cs[i]);
    assert forall j :: 0 <= j < i ==> ok(cs[j]);
    TakeThroughFirstFailure(cs, ok, i);
    assert !AllPass(cs, ok);
    WalkAgrees(listing.pages, listing.failure, ok);
  }

  /** When every non-folder key of the listing scans without error, all of them are scanned, in listing
      order, each after its header, and the result is the listing's own outcome. */
  lemma ScanPrefixAllSucceed(store: Store, bucket: string, prefix: string, exp: string)
    requires forall j :: 0 <= j < |PrefixCandidates(store, bucket, prefix)| ==>
      ScanSucceeds(store, bucket, exp, PrefixCandidates(store, bucket, prefix)[j])
    ensures ScanPrefix(store, bucket, prefix, exp)
         == ScanResult(store.list(bucket, prefix).failure,
                       PrintedBy(store, bucket, exp, PrefixCandidates(store, bucket, prefix)))
  {
    var listing := store.list(bucket, prefix);
    var cs := PrefixCandidates(store, bucket, prefix);
    var ok := Continue(store, bucket, exp);
    forall j | 0 <= j < |cs| ensures ok(cs[j]) {
      assert ScanSucceeds(store, bucket, exp, cs[j]);
    }
    TakeThroughAllPass(cs, ok);
    WalkAgrees(listing.pages, listing.failure, ok);
  }

  /** A prefix with no objects under it scans successfully and prints nothing. */
  lemma EmptyPrefixPrintsNothing(store: Store, bucket: string, prefix: string, exp: string)
    requires PrefixCandidates(store, bucket, prefix) == []
    requires store.list(bucket, prefix).failure.None?
    ensures ScanPrefix(store, bucket, prefix, exp) == ScanResult(None, [])
  {
    ScanPrefixAllSucceed(store, bucket, prefix, exp);
  }

  /** The callback `scanAndMatchS3` hands `iterObjects`: scans one key with its header,
      keeps the scan's error, and asks to go on only if there was none. */
  method ScanEntry(store: Store, bucket: string, exp: string, objKey: string)
    returns (keepGoing: bool, internalError: Option<Error>, printed: seq<string>)
    ensures ScanResult(internalError, printed) == Match(store, bucket, objKey, exp, true)
    ensures keepGoing == Continue(store, bucket, exp)(objKey)
    ensures keepGoing <==> internalError.None?
  {
    internalError, printed := MatchS3(store, bucket, objKey, exp, true);
    keepGoing := internalError.None?;
  }

  /** One scanned key of a page: what the page has still to do, what has been printed and
      which error is left behind, once the key at `j` has been scanned with result
      `ScanResult(err, out)`. */
  lemma ScanPageStep(store: Store, bucket: string, exp: string, objects: seq<string>, j: nat,
                     visited: seq<string>, err: Option<Error>, out: seq<string>)
    requires j < |objects| && !IsFolderKey(objects[j])
    requires ScanResult(err, out) == Match(store, bucket, objects[j], exp, true)
    requires VisitPage(objects, Continue(store, bucket, exp))
          == var rest := VisitPage(objects[j..], Continue(store, bucket, exp));
             PageResult(visited + rest.visited, rest.keepGoing)
    ensures err == LastError(store, bucket, exp, visited + [objects[j]])
    ensures PrintedBy(store, bucket, exp, visited) + out == PrintedBy(store, bucket, exp, visited + [objects[j]])
    ensures err.None? ==>
      VisitPage(objects, Continue(store, bucket, exp))
        == var rest := VisitPage(objects[j + 1..], Continue(store, bucket, exp));
           PageResult(visited + [objects[j]] + rest.visited, rest.keepGoing)
    ensures err.Some? ==>
      VisitPage(objects, Continue(store, bucket, exp)) == PageResult(visited + [objects[j]], false)
  {
    var ok := Continue(store, bucket, exp);
    assert ok(objects[j]) == err.None?;
    VisitPageAdvance(objects, ok, j, visited, err.None?);
    ScannedAdvance(store, bucket, exp, visited, [objects[j]]);
  }

  /** The page callback of `scanAndMatchS3`'s walk: scans each non-folder key of the page
      with its header until a scan fails. `visited` are the keys scanned; `internalError`
      is the last scan's error. */
  method ScanPage(store: Store, bucket: string, exp: string, objects: seq<string>)
    returns (keepGoing: bool, internalError: Option<Error>, printed: seq<string>, ghost visited: seq<string>)
    ensures PageResult(visited, keepGoing) == VisitPage(objects, Continue(store, bucket, exp))
    ensures internalError == LastError(store, bucket, exp, visited)
    ensures keepGoing <==> internalError.None?
    ensures printed == PrintedBy(store, bucket, exp, visited)
  {
    ghost var ok := Continue(store, bucket, exp);
    keepGoing, internalError, printed, visited := true, None, [], [];
    var j := 0;
    while j < |objects| && keepGoing
      invariant 0 <= j <= |objects|
      invariant keepGoing <==> internalError.None?
      invariant internalError == LastError(store, bucket, exp, visited)
      invariant printed == PrintedBy(store, bucket, exp, visited)
      invariant VisitPage(objects, ok)
             == if keepGoing
                then var rest := VisitPage(objects[j..], ok); PageResult(visited + rest.visited, rest.keepGoing)
                else PageResult(visited, false)
    {
      if !IsFolderKey(objects[j]) {
        var out;
        keepGoing, internalError, out := ScanEntry(store, bucket, exp, objects[j]);
        ScanPageStep(store, bucket, exp, objects, j, visited, internalError, out);
        printed := printed + out;
        visited := visited + [objects[j]];
      } else {
        VisitPageAdvance(objects, ok, j, visited, true);
      }
      j := j + 1;
    }
    assert keepGoing ==> objects[j..] == [];
  }

  /** `scanAndMatchS3`: `iterObjects` with its callback, which prints, written in place
      as `ScanPage`. A failed scan stops the walk, and its error wins over the listing's. */
  method ScanAndMatch(store: Store, bucket: string, prefix: string, exp: string)
    returns (err: Option<Error>, printed: seq<string>)
    ensures ScanResult(err, printed) == ScanPrefix(store, bucket, prefix, exp)
  {
    var listing := store.list(bucket, prefix);
    var pages := listing.pages;
    ghost var ok := Continue(store, bucket, exp);
    ghost var calls: seq<string> := [];
    var internalError: Option<Error> := None;
    var keepGoing := true;
    printed := [];
    var i := 0;
    while i < |pages| && keepGoing
      invariant 0 <= i <= |pages|
      invariant keepGoing <==> internalError.None?
      invariant internalError == LastError(store, bucket, exp, calls)
      invariant printed == PrintedBy(store, bucket, exp, calls)
      invariant Walk(pages, listing.failure, ok)
             == if keepGoing
                then var rest := Walk(pages[i..], listing.failure, ok);
                     WalkResult(calls + rest.visited, rest.err)
                else WalkResult(calls, None)
    {
      var pageErr, pageOut;
      ghost var pageCalls;
      keepGoing, pageErr, pageOut, pageCalls := ScanPage(store, bucket, exp, pages[i]);
      ScannedAdvance(store, bucket, exp, calls, pageCalls);
      WalkAdvance(pages, listing.failure, ok, i, calls, PageResult(pageCalls, keepGoing));
      internalError := pageErr;
      printed := printed + pageOut;
      calls := calls + pageCalls;
      i := i + 1;
    }
    assert keepGoing ==> pages[i..] == [];
    var walkErr := if keepGoing then listing.failure else None;
    assert Walk(pages, listing.failure, ok) == WalkResult(calls, walkErr);
    err := if internalError.Some? then internalError else walkErr;
  }
}
