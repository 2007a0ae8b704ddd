/**
  twilioClient/page.go: the page cursor that follows the server's
  `next_page_uri`, the typed iterators that feed each page's cursor back
  into it, and two helpers over timestamps.

  A `Cursor` is the iterator's state as a value. `Route` says which request
  a call to `Next` sends (none once the iterator is exhausted), `Fetch` what
  it returns and `Advance` what state it leaves; the class `PageIterator`
  is proved against these three, and `Drive` runs the typed iterator over a
  sequence of server answers for the lemmas.
 */
module Paging {
  import opened Wrappers
  import opened Client

  /** `types.NullString`: a string together with a validity flag. */
  datatype NullString = NullString(valid: bool, str: string)

  const Null := NullString(false, "")

  /** `PageIterator`'s fields (the client pointer only carries credentials). */
  datatype Cursor = Cursor(nextPageURI: NullString, data: Option<Values>, count: nat, pathPart: string)

  /** `NewPageIterator(client, data, pathPart)`. */
  function NewCursor(data: Option<Values>, pathPart: string): (c: Cursor)
    ensures c.count == 0 && !c.nextPageURI.valid
    ensures c.data == data && c.pathPart == pathPart
  {
    Cursor(Null, data, 0, pathPart)
  }

  /** `NewNextPageIterator(client, nextPageURI)`; the source panics on "". */
  function ResumeCursor(nextPageURI: string): (c: Cursor)
    requires nextPageURI != ""
    ensures c.count == 0 && c.nextPageURI.valid && c.nextPageURI.str == nextPageURI
    ensures c.data == Some(map[]) && c.pathPart == ""
  {
    Cursor(NullString(true, nextPageURI), Some(map[]), 0, "")
  }

  /** The request `Next` sends from state `c`, or `None` when it returns
      `NoMoreResults` without touching the network. */
  function Route(c: Cursor): (r: Option<Request>)
    ensures c.nextPageURI.valid ==> r == Some(GetRequest(c.nextPageURI.str, Some(map[])))
    ensures !c.nextPageURI.valid && c.count == 0 ==> r == Some(GetRequest(c.pathPart, c.data))
    ensures r.None? <==> !c.nextPageURI.valid && c.count > 0
  {
    if c.nextPageURI.valid then Some(GetRequest(c.nextPageURI.str, Some(map[])))
    else if c.count == 0 then Some(GetRequest(c.pathPart, c.data))
    else None
  }

  /** What `Next` returns from state `c` when the server would answer `answer`. */
  function Fetch<P>(c: Cursor, answer: Exchange<P>): (r: Result<P, ClientError>)
    ensures Route(c).None? ==> r == Err(NoMoreResults)
    ensures Route(c).Some? ==> r == Classify(answer)
    ensures r.Ok? ==> Route(c).Some? && IsSuccessStatus(answer.status)
  {
    if Route(c).None? then Err(NoMoreResults) else Classify(answer)
  }

  /** The state `Next` leaves behind once it has returned `r`. */
  function Advance<P>(c: Cursor, r: Result<P, ClientError>): (c': Cursor)
    ensures c'.nextPageURI == c.nextPageURI && c'.data == c.data && c'.pathPart == c.pathPart
    ensures c'.count == if r.Ok? then c.count + 1 else c.count
  {
    if r.Ok? then c.(count := c.count + 1) else c
  }

  class PageIterator {
    var nextPageURI: NullString
    var data: Option<Values>
    var count: nat
    var pathPart: string

    function State(): Cursor
      reads this
    {
      Cursor(nextPageURI, data, count, pathPart)
    }

    /** `NewPageIterator`. */
    constructor (data: Option<Values>, pathPart: string)
      ensures State() == NewCursor(data, pathPart)
    {
      this.nextPageURI := Null;
      this.data := data;
      this.count := 0;
      this.pathPart := pathPart;
    }

    /** `NewNextPageIterator`; an empty URI is the caller's error (a panic). */
    constructor Resume(nextPageURI: string)
      requires nextPageURI != ""
      ensures State() == ResumeCursor(nextPageURI)
    {
      this.nextPageURI := NullString(true, nextPageURI);
      this.data := Some(map[]);
      this.count := 0;
      this.pathPart := "";
    }

    /** Stores the cursor verbatim, valid or not. */
    method SetNextPageURI(npuri: NullString)
      modifies this
      ensures State() == old(State()).(nextPageURI := npuri)
    {
      if !npuri.valid {
        nextPageURI := npuri;
        return;
      }
      nextPageURI := npuri;
    }

    /** `Next(ctx, v)`: `sent` is the request it makes, `answer` what the
        server would reply, `r` the error it returns (`Ok` when it decoded
        the page into `v`). */
    method Next<P>(answer: Exchange<P>) returns (sent: Option<Request>, r: Result<P, ClientError>)
      modifies this
      ensures sent == Route(old(State()))
      ensures r == Fetch(old(State()), answer)
      ensures State() == Advance(old(State()), r)
    {
      if nextPageURI.valid {
        sent := Some(GetRequest(nextPageURI.str, Some(map[])));
      } else if count == 0 {
        sent := Some(GetRequest(pathPart, data));
      } else {
        sent := None;
        r := Err(NoMoreResults);
        return;
      }
      r := Classify(answer);
      if r.Err? {
        return;
      }
      count := count + 1;
    }
  }

  // ---------------------------------------------------------------------
  // The typed iterators (AccountPageIterator, ChatRolePageIterator, …)

  type Record = map<string, string>

  /** A decoded list page: the `Page` envelope's cursor and the records. */
  datatype ListPage = ListPage(nextPageURI: NullString, items: seq<Record>)

  /** One call of a typed `Next`: the state after it, the request it sent
      and what it returned. */
  datatype Step = Step(cursor: Cursor, sent: Option<Request>, result: Result<ListPage, ClientError>)

  /** A typed `Next` from state `c`: the shared `Next`, then, on success
      only, the page's own cursor is stored. */
  function ListStep(c: Cursor, answer: Exchange<ListPage>): (s: Step)
    ensures s.sent == Route(c) && s.result == Fetch(c, answer)
    ensures s.result.Err? ==> s.cursor == c
    ensures s.result.Ok? ==>
              s.cursor == Cursor(s.result.value.nextPageURI, c.data, c.count + 1, c.pathPart)
  {
    var r := Fetch(c, answer);
    var c1 := Advance(c, r);
    Step(if r.Ok? then c1.(nextPageURI := r.value.nextPageURI) else c1, Route(c), r)
  }

  class ListIterator {
    const p: PageIterator

    function State(): Cursor
      reads p
    {
      p.State()
    }

    constructor (p: PageIterator)
      ensures this.p == p
    {
      this.p := p;
    }

    /** The typed `Next(ctx)`. */
    method Next(answer: Exchange<ListPage>) returns (sent: Option<Request>, r: Result<ListPage, ClientError>)
      modifies p
      ensures sent == ListStep(old(State()), answer).sent
      ensures r == ListStep(old(State()), answer).result
      ensures State() == ListStep(old(State()), answer).cursor
    {
      sent, r := p.Next(answer);
      if r.Err? {
        return;
      }
      p.SetNextPageURI(r.value.nextPageURI);
    }
  }

  /** Successive typed `Next` calls from `c`, call i seeing answer i. */
  function Drive(c: Cursor, answers: seq<Exchange<ListPage>>): (steps: seq<Step>)
    ensures |steps| == |answers|
    decreases |answers|
  {
    if answers == [] then []
    else
      var s := ListStep(c, answers[0]);
      [s] + Drive(s.cursor, answers[1..])
  }

  /** The iterator has nothing more to fetch. */
  predicate Exhausted(c: Cursor) {
    !c.nextPageURI.valid && c.count > 0
  }

  /** Once exhausted, every further call returns `NoMoreResults`, sends
      nothing and leaves the state as it is, whatever the server would say. */
  lemma {:induction false} ExhaustedForever(c: Cursor, answers: seq<Exchange<ListPage>>)
    requires Exhausted(c)
    ensures forall i :: 0 <= i < |answers| ==> Drive(c, answers)[i] == Step(c, None, Err(NoMoreResults))
    decreases |answers|
  {
    if answers != [] {
      ExhaustedForever(c, answers[1..]);
    }
  }

  /** The server's listing: pages 1..N, where only the last has no cursor. */
  predicate IsListing(pages: seq<ListPage>) {
    |pages| >= 1 &&
    (forall i :: 0 <= i < |pages| - 1 ==> pages[i].nextPageURI.valid) &&
    !pages[|pages| - 1].nextPageURI.valid
  }

  /** The request that fetches page `k` of a listing started from
      `pathPart` and `data`. */
  function PageRequest(pages: seq<ListPage>, k: nat, data: Option<Values>, pathPart: string): Request
    requires k <= |pages|
  {
    if k == 0 then GetRequest(pathPart, data) else GetRequest(pages[k - 1].nextPageURI.str, Some(map[]))
  }

  /** The state after the first `k` pages of a listing were returned. */
  predicate AfterPages(c: Cursor, pages: seq<ListPage>, k: nat, data: Option<Values>, pathPart: string)
    requires k <= |pages|
  {
    c == if k == 0 then NewCursor(data, pathPart)
         else Cursor(pages[k - 1].nextPageURI, data, k, pathPart)
  }

  lemma {:induction false} DriveListing(
    c: Cursor, pages: seq<ListPage>, k: nat, data: Option<Values>, pathPart: string,
    answers: seq<Exchange<ListPage>>)
    requires IsListing(pages) && k <= |pages| && AfterPages(c, pages, k, data, pathPart)
    requires forall i :: 0 <= i < |answers| && k + i < |pages| ==> Classify(answers[i]) == Ok(pages[k + i])
    ensures forall i :: 0 <= i < |answers| && k + i < |pages| ==>
              Drive(c, answers)[i].result == Ok(pages[k + i]) &&
              Drive(c, answers)[i].sent == Some(PageRequest(pages, k + i, data, pathPart))
    ensures forall i :: 0 <= i < |answers| && k + i >= |pages| ==>
              Drive(c, answers)[i].result == Err(NoMoreResults) && Drive(c, answers)[i].sent.None?
    ensures answers != [] && k + |answers| >= |pages| ==>
              Drive(c, answers)[|answers| - 1].cursor.count == |pages|
    decreases |answers|
  {
    if answers == [] {
      return;
    }
    var steps := Drive(c, answers);
    var s := ListStep(c, answers[0]);
    var rest := answers[1..];
    assert steps == [s] + Drive(s.cursor, rest);
    if k < |pages| {
      assert Classify(answers[0]) == Ok(pages[k]);
      assert s.cursor == Cursor(pages[k].nextPageURI, data, k + 1, pathPart);
      forall i | 0 <= i < |rest| && k + 1 + i < |pages|
        ensures Classify(rest[i]) == Ok(pages[k + 1 + i])
      {
        assert rest[i] == answers[i + 1];
      }
      DriveListing(s.cursor, pages, k + 1, data, pathPart, rest);
    } else {
      assert Exhausted(c);
      ExhaustedForever(c, answers);
    }
  }

  /** The server answers call i with page i, for every page of the listing. */
  predicate Serves(pages: seq<ListPage>, answers: seq<Exchange<ListPage>>) {
    |answers| >= |pages| &&
    forall i :: 0 <= i < |pages| ==> Classify(answers[i]) == Ok(pages[i])
  }

  /** The first N calls of a fresh iterator return the N pages, fetching the
      collection first and then each page's cursor. */
  lemma ListingFetchesEveryPage(
    pages: seq<ListPage>, data: Option<Values>, pathPart: string, answers: seq<Exchange<ListPage>>)
    requires IsListing(pages) && Serves(pages, answers)
    ensures forall i :: 0 <= i < |pages| ==>
              Drive(NewCursor(data, pathPart), answers)[i].result == Ok(pages[i]) &&
              Drive(NewCursor(data, pathPart), answers)[i].sent == Some(PageRequest(pages, i, data, pathPart))
  {
    DriveListing(NewCursor(data, pathPart), pages, 0, data, pathPart, answers);
  }

  /** Every call after the N pages returns `NoMoreResults` without a fetch. */
  lemma ListingThenNoMoreResults(
    pages: seq<ListPage>, data: Option<Values>, pathPart: string, answers: seq<Exchange<ListPage>>)
    requires IsListing(pages) && Serves(pages, answers)
    ensures forall i :: |pages| <= i < |answers| ==>
              Drive(NewCursor(data, pathPart), answers)[i].result == Err(NoMoreResults) &&
              Drive(NewCursor(data, pathPart), answers)[i].sent.None?
  {
    DriveListing(NewCursor(data, pathPart), pages, 0, data, pathPart, answers);
  }

  /** The iterator ends having counted exactly the N pages. */
  lemma ListingCountsPages(
    pages: seq<ListPage>, data: Option<Values>, pathPart: string, answers: seq<Exchange<ListPage>>)
    requires IsListing(pages) && Serves(pages, answers)
    ensures Drive(NewCursor(data, pathPart), answers)[|answers| - 1].cursor.count == |pages|
  {
    DriveListing(NewCursor(data, pathPart), pages, 0, data, pathPart, answers);
  }

  /**
    The server returns pages 1..N and only page N lacks a next-page URI:
    a fresh iterator makes exactly N successful calls, fetching the
    collection first and then each page's cursor, and every call after
    that returns `NoMoreResults` without a fetch.
   */
  lemma ListingThenExhaustion(
    pages: seq<ListPage>, data: Option<Values>, pathPart: string, answers: seq<Exchange<ListPage>>)
    requires IsListing(pages) && Serves(pages, answers)
    ensures forall i :: 0 <= i < |pages| ==>
              Drive(NewCursor(data, pathPart), answers)[i].result == Ok(pages[i]) &&
              Drive(NewCursor(data, pathPart), answers)[i].sent == Some(PageRequest(pages, i, data, pathPart))
    ensures forall i :: |pages| <= i < |answers| ==>
              Drive(NewCursor(data, pathPart), answers)[i].result == Err(NoMoreResults) &&
              Drive(NewCursor(data, pathPart), answers)[i].sent.None?
    ensures Drive(NewCursor(data, pathPart), answers)[|answers| - 1].cursor.count == |pages|
  {
    ListingFetchesEveryPage(pages, data, pathPart, answers);
    ListingThenNoMoreResults(pages, data, pathPart, answers);
    ListingCountsPages(pages, data, pathPart, answers);
  }

  /** A resumed iterator skips the collection and fetches its cursor first. */
  lemma ResumeFetchesCursorFirst(nextPageURI: string)
    requires nextPageURI != ""
    ensures Route(ResumeCursor(nextPageURI)) == Some(GetRequest(nextPageURI, Some(map[])))
  {
  }

  /** A failed fetch leaves the typed iterator exactly as it was, so the
      next call repeats the same request. */
  lemma FailureRetriesSameRequest(c: Cursor, failed: Exchange<ListPage>, next: Exchange<ListPage>)
    requires Classify(failed).Err?
    ensures ListStep(c, failed).cursor == c
    ensures ListStep(ListStep(c, failed).cursor, next).sent == Route(c)
  {
  }

  // ---------------------------------------------------------------------
  // Timestamp helpers; a `time.Time` is an int, ordered as the times are.

  ghost predicate HasResultInRange(start: int, end: int, results: seq<int>) {
    exists i :: 0 <= i < |results| && start <= results[i] < end
  }

  /** `containsResultsInRange`: is some result in [start, end)? */
  method ContainsResultsInRange(start: int, end: int, results: seq<int>) returns (found: bool)
    ensures found <==> HasResultInRange(start, end, results)
  {
    var i := 0;
    while i < |results|
      invariant 0 <= i <= |results|
      invariant forall j :: 0 <= j < i ==> !(start <= results[j] < end)
    {
      var result := results[i];
      if (result == start || result > start) && result < end {
        return true;
      }
      i := i + 1;
    }
    return false;
  }

  /** `shouldContinuePaging`; an empty result list is the caller's error. */
  function ShouldContinuePaging(start: int, results: seq<int>): (r: bool)
    requires |results| > 0
    ensures r <==> results[|results| - 1] > start
  {
    var last := results[|results| - 1];
    last > start
  }

  /** Results arrive newest first, so the last one is the earliest. */
  ghost predicate NewestFirst(results: seq<int>) {
    forall i, j :: 0 <= i < j < |results| ==> results[i] >= results[j]
  }

  /**
    When paging stops, no result on a later (older) page is after `start`:
    such results lie at or before the earliest one seen. One exactly at
    `start` would still be in range, and stopping does not look for it.
   */
  lemma StopPagingLeavesNothingAfterStart(start: int, end: int, page: seq<int>, older: seq<int>)
    requires |page| > 0 && !ShouldContinuePaging(start, page)
    requires forall i :: 0 <= i < |older| ==> older[i] <= page[|page| - 1]
    ensures forall i :: 0 <= i < |older| ==> older[i] <= start
    ensures HasResultInRange(start, end, older) ==> start < end && exists i :: 0 <= i < |older| && older[i] == start
  {
  }

  /** Continuing is warranted: the earliest result seen is after `start`,
      and when it is also before `end` the page holds a result in range. */
  lemma ContinuePagingSeesRange(start: int, end: int, page: seq<int>)
    requires |page| > 0 && NewestFirst(page) && ShouldContinuePaging(start, page)
    ensures forall i :: 0 <= i < |page| ==> page[i] > start
    ensures page[|page| - 1] < end ==> HasResultInRange(start, end, page)
  {
  }
}
