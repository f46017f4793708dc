/** `iterObjects`: a walk over the paged listing of a prefix that skips "folder" keys and
    stops as soon as the callback asks it to. */
module Walker {
  import opened Types
  import opened Query
  import opened Remote

  /** What one page contributes: the keys handed to `process`, and whether the walk goes
      on to the next page. */
  datatype PageResult = PageResult(visited: seq<string>, keepGoing: bool)

  /** What the whole walk does: the keys handed to `process`, and the error returned. */
  datatype WalkResult = WalkResult(visited: seq<string>, err: Option<Error>)

  /** The inner loop of the page callback over `page.Contents`. */
  function VisitPage(entries: seq<string>, process: string -> bool): PageResult
  {
    if entries == [] then PageResult([], true)
    else if IsFolderKey(entries[0]) then VisitPage(entries[1..], process)
    else if !process(entries[0]) then PageResult([entries[0]], false)
    else
      var rest := VisitPage(entries[1..], process);
      PageResult([entries[0]] + rest.visited, rest.keepGoing)
  }

  /** The walk over the pages: a page on which `process` returned false ends it, and then
      no later page is fetched, so no listing error can arise. */
  function Walk(pages: seq<seq<string>>, failure: Option<Error>, process: string -> bool): WalkResult
  {
    if pages == [] then WalkResult([], failure)
    else
      var first := VisitPage(pages[0], process);
      if !first.keepGoing then WalkResult(first.visited, None)
      else
        var rest := Walk(pages[1..], failure, process);
        WalkResult(first.visited + rest.visited, rest.err)
  }

  /** Reference definition: the keys of the listing that are not folders, in listing order
      across pages. */
  function Candidates(pages: seq<seq<string>>): seq<string>
  {
    if pages == [] then [] else NonFolders(pages[0]) + Candidates(pages[1..])
  }

  function NonFolders(keys: seq<string>): seq<string>
  {
    if keys == [] then []
    else if IsFolderKey(keys[0]) then NonFolders(keys[1..])
    else [keys[0]] + NonFolders(keys[1..])
  }

  /** Every key passes `process`. */
  predicate AllPass(keys: seq<string>, process: string -> bool) {
    forall i :: 0 <= i < |keys| ==> process(keys[i])
  }

  /** Reference definition: the keys up to and including the first that fails `process`. */
  function TakeThrough(keys: seq<string>, process: string -> bool): seq<string>
  {
    if keys == [] then []
    else if !process(keys[0]) then [keys[0]]
    else [keys[0]] + TakeThrough(keys[1..], process)
  }

  /** `TakeThrough` stops right after the first key that fails, and takes everything when
      none fails. */
  lemma {:induction false} TakeThroughStopsAtFirstFailure(keys: seq<string>, process: string -> bool)
    ensures var t := TakeThrough(keys, process);
      && |t| <= |keys| && t == keys[..|t|]
      && (forall i :: 0 <= i < |t| - 1 ==> process(t[i]))
      && (AllPass(keys, process) ==> t == keys)
      && (!AllPass(keys, process) ==> |t| > 0 && !process(t[|t| - 1]))
  {
    if keys != [] && process(keys[0]) {
      TakeThroughStopsAtFirstFailure(keys[1..], process);
      var t := TakeThrough(keys, process);
      var rest := TakeThrough(keys[1..], process);
      assert t == [keys[0]] + rest;
      assert keys == [keys[0]] + keys[1..];
      if !AllPass(keys, process) {
        var j :| 0 <= j < |keys| && !process(keys[j]);
        assert !process(keys[1..][j - 1]);
      }
      if AllPass(keys, process) {
        assert forall i :: 0 <= i < |keys[1..]| ==> process(keys[1..][i]) by {
          forall i | 0 <= i < |keys[1..]| ensures process(keys[1..][i]) {
            assert keys[1..][i] == keys[i + 1];
          }
        }
      }
    }
  }

  /** When the i-th key is the first to fail, `TakeThrough` ends exactly there. */
  lemma {:induction false} TakeThroughFirstFailure(keys: seq<string>, process: string -> bool, i: nat)
    requires i < |keys| && !process(keys[i])
    requires forall j :: 0 <= j < i ==> process(keys[j])
    ensures TakeThrough(keys, process) == keys[..i + 1]
  {
    if i > 0 {
      assert process(keys[0]);
      TakeThroughFirstFailure(keys[1..], process, i - 1);
      assert keys[..i + 1] == [keys[0]] + keys[1..][..i];
    }
  }

  /** When every key passes, `TakeThrough` takes them all. */
  lemma {:induction false} TakeThroughAllPass(keys: seq<string>, process: string -> bool)
    requires AllPass(keys, process)
    ensures TakeThrough(keys, process) == keys
  {
    if keys != [] {
      assert process(keys[0]);
      assert AllPass(keys[1..], process) by {
        forall j | 0 <= j < |keys[1..]| ensures process(keys[1..][j]) {
          assert keys[1..][j] == keys[j + 1];
        }
      }
      TakeThroughAllPass(keys[1..], process);
      assert keys == [keys[0]] + keys[1..];
    }
  }

  lemma {:induction false} AllPassAppend(a: seq<string>, b: seq<string>, process: string -> bool)
    ensures AllPass(a + b, process) <==> AllPass(a, process) && AllPass(b, process)
  {
    if AllPass(a, process) && AllPass(b, process) {
      forall i | 0 <= i < |a + b| ensures process((a + b)[i]) {
        if i >= |a| { assert (a + b)[i] == b[i - |a|]; }
      }
    }
    if AllPass(a + b, process) {
      forall i | 0 <= i < |a| ensures process(a[i]) {
        assert (a + b)[i] == a[i];
      }
      forall i | 0 <= i < |b| ensures process(b[i]) {
        assert (a + b)[|a| + i] == b[i];
      }
    }
  }

  lemma {:induction false} TakeThroughAppend(a: seq<string>, b: seq<string>, process: string -> bool)
    ensures TakeThrough(a + b, process)
         == if AllPass(a, process) then a + TakeThrough(b, process) else TakeThrough(a, process)
  {
    if a != [] {
      assert (a + b)[1..] == a[1..] + b;
      assert (a + b)[0] == a[0];
      TakeThroughAppend(a[1..], b, process);
      AllPassAppend([a[0]], a[1..], process);
      assert [a[0]] + a[1..] == a;
    } else {
      assert a + b == b;
    }
  }

  /** One page visits exactly `TakeThrough` of its non-folder keys. */
  lemma {:induction false} VisitPageAgrees(entries: seq<string>, process: string -> bool)
    ensures VisitPage(entries, process)
         == PageResult(TakeThrough(NonFolders(entries), process), AllPass(NonFolders(entries), process))
  {
    if entries != [] {
      VisitPageAgrees(entries[1..], process);
      if !IsFolderKey(entries[0]) {
        AllPassAppend([entries[0]], NonFolders(entries[1..]), process);
      }
    }
  }

  /** The walk agrees with the reference: it hands `process` the non-folder keys in listing
      order up to and including the first that fails, and returns the listing error only
      when no key failed. */
  lemma {:induction false} WalkAgrees(pages: seq<seq<string>>, failure: Option<Error>, process: string -> bool)
    ensures Walk(pages, failure, process)
         == WalkResult(TakeThrough(Candidates(pages), process),
                       if AllPass(Candidates(pages), process) then failure else None)
  {
    if pages != [] {
      VisitPageAgrees(pages[0], process);
      TakeThroughStopsAtFirstFailure(NonFolders(pages[0]), process);
      WalkAgrees(pages[1..], failure, process);
      TakeThroughAppend(NonFolders(pages[0]), Candidates(pages[1..]), process);
      AllPassAppend(NonFolders(pages[0]), Candidates(pages[1..]), process);
    }
  }

  lemma {:induction false} NonFoldersHasNoFolder(keys: seq<string>)
    ensures forall k :: k in NonFolders(keys) ==> !IsFolderKey(k)
  {
    if keys != [] {
      NonFoldersHasNoFolder(keys[1..]);
    }
  }

  lemma {:induction false} CandidatesHaveNoFolder(pages: seq<seq<string>>)
    ensures forall k :: k in Candidates(pages) ==> !IsFolderKey(k)
  {
    if pages != [] {
      NonFoldersHasNoFolder(pages[0]);
      CandidatesHaveNoFolder(pages[1..]);
    }
  }

  /** No key ending in '/' is ever handed to `process`. */
  lemma WalkSkipsFolders(pages: seq<seq<string>>, failure: Option<Error>, process: string -> bool)
    ensures forall k :: k in Walk(pages, failure, process).visited ==> !IsFolderKey(k)
  {
    WalkAgrees(pages, failure, process);
    TakeThroughStopsAtFirstFailure(Candidates(pages), process);
    CandidatesHaveNoFolder(pages);
    var t := TakeThrough(Candidates(pages), process);
    forall k | k in t ensures k in Candidates(pages) {
      var i :| 0 <= i < |t| && t[i] == k;
      assert Candidates(pages)[..|t|][i] == k;
    }
  }

  /** What the walk has still to do once page `i` has been visited: nothing more if the
      page stopped it, otherwise the walk from page `i + 1`. */
  lemma WalkAdvance(pages: seq<seq<string>>, failure: Option<Error>, process: string -> bool,
                    i: nat, calls: seq<string>, page: PageResult)
    requires i < |pages| && page == VisitPage(pages[i], process)
    requires Walk(pages, failure, process)
          == var rest := Walk(pages[i..], failure, process); WalkResult(calls + rest.visited, rest.err)
    ensures Walk(pages, failure, process)
         == if page.keepGoing
            then var rest := Walk(pages[i + 1..], failure, process);
                 WalkResult(calls + page.visited + rest.visited, rest.err)
            else WalkResult(calls + page.visited, None)
  {
    assert pages[i..][0] == pages[i];
    assert pages[i..][1..] == pages[i + 1..];
    var rest := Walk(pages[i + 1..], failure, process);
    assert calls + page.visited + rest.visited == calls + (page.visited + rest.visited);
  }

  /** One step of the inner loop over a page's keys: what is left of the page once the key
      at `j` has been skipped (a folder) or handed to `process`, whose answer is `keep`. */
  lemma VisitPageAdvance(entries: seq<string>, process: string -> bool, j: nat, calls: seq<string>, keep: bool)
    requires j < |entries|
    requires !IsFolderKey(entries[j]) ==> keep == process(entries[j])
    requires VisitPage(entries, process)
          == var rest := VisitPage(entries[j..], process); PageResult(calls + rest.visited, rest.keepGoing)
    ensures IsFolderKey(entries[j]) ==>
      VisitPage(entries, process)
        == var rest := VisitPage(entries[j + 1..], process); PageResult(calls + rest.visited, rest.keepGoing)
    ensures !IsFolderKey(entries[j]) && keep ==>
      VisitPage(entries, process)
        == var rest := VisitPage(entries[j + 1..], process); PageResult(calls + [entries[j]] + rest.visited, rest.keepGoing)
    ensures !IsFolderKey(entries[j]) && !keep ==>
      VisitPage(entries, process) == PageResult(calls + [entries[j]], false)
  {
    assert entries[j..][0] == entries[j];
    assert entries[j..][1..] == entries[j + 1..];
    var rest := VisitPage(entries[j + 1..], process);
    assert calls + [entries[j]] + rest.visited == calls + ([entries[j]] + rest.visited);
  }

  /** The callback `iterObjects` gives `ListObjectsV2Pages`: hands each key of the page
      that is not a folder to `process`, and stops at the first false. `calls` are the keys
      handed over; `keepGoing` is what the callback returns. */
  method ProcessPage(objects: seq<string>, process: string -> bool)
    returns (keepGoing: bool, calls: seq<string>)
    ensures PageResult(calls, keepGoing) == VisitPage(objects, process)
  {
    keepGoing, calls := true, [];
    var j := 0;
    while j < |objects|
      invariant 0 <= j <= |objects|
      invariant keepGoing
      invariant VisitPage(objects, process)
             == var rest := VisitPage(objects[j..], process);
                PageResult(calls + rest.visited, rest.keepGoing)
    {
      if !IsFolderKey(objects[j]) {
        keepGoing := process(objects[j]);
        VisitPageAdvance(objects, process, j, calls, keepGoing);
        calls := calls + [objects[j]];
        if !keepGoing {
          break;
        }
      } else {
        VisitPageAdvance(objects, process, j, calls, true);
      }
      j := j + 1;
    }
  }

  /** `iterObjects`: walks the listing of `prefix` in `bucket`, calling `process` on each
      key that is not a folder until it returns false. `calls` are the keys `process` was
      called with, in order; `err` is what the function returns. */
  method IterObjects(store: Store, bucket: string, prefix: string, process: string -> bool)
    returns (calls: seq<string>, err: Option<Error>)
    ensures var listing := store.list(bucket, prefix);
      WalkResult(calls, err) == Walk(listing.pages, listing.failure, process)
  {
    var listing := store.list(bucket, prefix);
    var pages := listing.pages;
    calls := [];
    var keepGoing := true;
    var i := 0;
    while i < |pages| && keepGoing
      invariant 0 <= i <= |pages|
      invariant Walk(pages, listing.failure, process)
             == if keepGoing
                then var rest := Walk(pages[i..], listing.failure, process);
                     WalkResult(calls + rest.visited, rest.err)
                else WalkResult(calls, None)
    {
      var pageCalls;
      keepGoing, pageCalls := ProcessPage(pages[i], process);
      WalkAdvance(pages, listing.failure, process, i, calls, PageResult(pageCalls, keepGoing));
      calls := calls + pageCalls;
      i := i + 1;
    }
    assert keepGoing ==> pages[i..] == [];
    err := if keepGoing then listing.failure else None;
  }
}
