/**
 `ThreadHistoryReader`: budgeted walks over the pages of a native thread, against a server that may
 answer anything, and against an honest one whose pages are windows, some empty, of one list.
 */
module ThreadHistory {
  import opened Common

  type Cursor = nat
  type TurnId = nat

  datatype View = NotLoaded | Summary | Full
  datatype Turn = Turn(id: TurnId, body: nat, view: View)
  datatype Page = Page(data: seq<Turn>, next: Option<Cursor>)
  datatype Request = Request(cursor: Option<Cursor>, limit: nat, view: View)

  /** `Failure` stands for every thrown answer that is not "not materialized", malformed pages included. */
  datatype Answer = Answered(page: Page) | NotMaterialized | Failure

  datatype Problem = ServerFailed | RepeatedCursor | RepeatedTurn | NoProgress | BudgetExhausted | HistoryChanged | Absent
  datatype Result<T> = Ok(value: T) | Raise(problem: Problem)

  const EMPTY_WINDOW_WALK := 8
  const PAGE_LIMIT := 128

  // ---------------------------------------------------------------- an honest server

  function Ids(turns: seq<Turn>): set<TurnId>
  {
    set turn | turn in turns :: turn.id
  }

  ghost predicate DistinctIds(turns: seq<Turn>)
  {
    forall i, j :: 0 <= i < j < |turns| ==> turns[i].id != turns[j].id
  }

  function Shown(turns: seq<Turn>, view: View): seq<Turn>
  {
    seq(|turns|, i requires 0 <= i < |turns| => turns[i].(view := view))
  }

  /** Where a cursor stands in the thread's turns, newest first; a request without one stands at the newest. */
  function PositionOf(position: Cursor -> nat, cursor: Option<Cursor>): nat
  {
    if cursor.Some? then position(cursor.value) else 0
  }

  /** A true page: a window of the list from the cursor on, within the limit, whose next cursor is new
      and stands where the window ends. No next cursor means that the list ends there. */
  ghost predicate TruePage(page: Page, request: Request, history: seq<Turn>, position: Cursor -> nat)
  {
    var from := PositionOf(position, request.cursor);
    var to := from + |page.data|;
    to <= |history| && |page.data| <= request.limit
    && page.data == Shown(history[from..to], request.view)
    && (page.next.None? ==> to == |history|)
    && (page.next.Some? ==> position(page.next.value) == to && (request.cursor.Some? ==> page.next.value > request.cursor.value))
  }

  /** Every answer to a request for at least one turn is true, wherever the server ends its windows. */
  ghost predicate Honest(answer: (nat, Request) -> Answer, history: seq<Turn>, position: Cursor -> nat)
  {
    DistinctIds(history)
    && forall n, request: Request :: request.limit > 0 ==>
         var a := answer(n, request);
         (a.NotMaterialized? && history == [])
         || (a.Answered? && (PositionOf(position, request.cursor) <= |history| ==> TruePage(a.page, request, history, position)))
  }

  /** An honest server whose windows do not move: `window` says how many turns it shows from a cursor on,
      and a smaller limit cuts a window short without changing where it ends. Windows may be empty. */
  ghost predicate Steady(answer: (nat, Request) -> Answer, history: seq<Turn>, position: Cursor -> nat, window: Option<Cursor> -> nat)
  {
    Honest(answer, history, position)
    && forall n, request: Request :: request.limit > 0 && PositionOf(position, request.cursor) <= |history| ==>
         var a := answer(n, request);
         a.Answered? ==> InWindow(a.page, request, window)
  }

  ghost predicate InWindow(page: Page, request: Request, window: Option<Cursor> -> nat)
  {
    |page.data| == Min(request.limit, window(request.cursor))
    && (|page.data| < window(request.cursor) ==> page.next.Some? && window(page.next) == window(request.cursor) - |page.data|)
  }

  /** The server that fills every page and whose cursors are offsets. */
  function FullPage(history: seq<Turn>, request: Request): Page
  {
    var from := Min(PositionOf(c => c, request.cursor), |history|);
    var to := Min(from + request.limit, |history|);
    Page(Shown(history[from..to], request.view), if to == |history| then None else Some(to))
  }

  lemma FullPagesAreHonest(history: seq<Turn>)
    requires DistinctIds(history)
    ensures Honest((n, request) => Answered(FullPage(history, request)), history, c => c)
    ensures Steady((n, request) => Answered(FullPage(history, request)), history, c => c,
                   c => Max(0, |history| - PositionOf(d => d, c)))
  {
  }

  // ---------------------------------------------------------------- the plain list

  /** The first index of a turn, or the length of the list. */
  function IndexOf(turns: seq<Turn>, id: Option<TurnId>): (i: nat)
    ensures i <= |turns|
    ensures i < |turns| ==> id == Some(turns[i].id)
    ensures forall j :: 0 <= j < i ==> id != Some(turns[j].id)
  {
    if turns == [] then 0 else if id == Some(turns[0].id) then 0 else 1 + IndexOf(turns[1..], id)
  }

  /** The turns up to and including the sought one, or all of them. */
  function UpTo(turns: seq<Turn>, id: Option<TurnId>): seq<Turn>
  {
    var i := IndexOf(turns, id);
    if i < |turns| then turns[..i + 1] else turns
  }

  lemma IndexIsFirst(turns: seq<Turn>, id: TurnId, i: nat)
    requires DistinctIds(turns) && i < |turns| && turns[i].id == id
    ensures IndexOf(turns, Some(id)) == i
  {
  }

  // ---------------------------------------------------------------- the budget and the server

  datatype Limits = Limits(maxPages: nat, maxTurns: nat, maxItems: nat, maxBytes: nat)

  class HistoryScanBudget {
    var pages: nat
    var turns: nat
    var items: nat
    var bytes: nat
    const limits: Limits

    constructor (limits: Limits)
      ensures this.limits == limits && pages == turns == items == bytes == 0
    {
      this.limits := limits;
      pages, turns, items, bytes := 0, 0, 0, 0;
    }

    /** Counts first and then compares, so the page over the limit has already been read. */
    method ConsumeTurns(count: nat, size: nat, late: bool) returns (ok: bool)
      modifies this`pages, this`turns, this`bytes
      ensures pages == old(pages) + 1 && turns == old(turns) + count && bytes == old(bytes) + size
      ensures ok <==> !late && pages <= limits.maxPages && turns <= limits.maxTurns && items <= limits.maxItems && bytes <= limits.maxBytes
    {
      pages, turns, bytes := pages + 1, turns + count, bytes + size;
      ok := !late && pages <= limits.maxPages && turns <= limits.maxTurns && items <= limits.maxItems && bytes <= limits.maxBytes;
    }
  }

  /** The connection: the n-th request gets the n-th answer. `late` is the deadline, `size` the JSON size. */
  class Server {
    const answer: (nat, Request) -> Answer
    const late: nat -> bool
    const size: seq<Turn> -> nat
    var requests: nat

    constructor (answer: (nat, Request) -> Answer, late: nat -> bool, size: seq<Turn> -> nat)
      ensures this.answer == answer && this.late == late && this.size == size && requests == 0
    {
      this.answer, this.late, this.size, requests := answer, late, size, 0;
    }

    method Ask(request: Request) returns (a: Answer)
      modifies this`requests
      ensures a == answer(old(requests), request) && requests == old(requests) + 1
    {
      a := answer(requests, request);
      requests := requests + 1;
    }
  }

  /** What has been read is over a limit, or the deadline has passed. */
  predicate Spent(budget: HistoryScanBudget, server: Server)
    reads budget, server
  {
    server.late(server.requests) || budget.pages > budget.limits.maxPages || budget.turns > budget.limits.maxTurns
    || budget.items > budget.limits.maxItems || budget.bytes > budget.limits.maxBytes
  }

  /** The `n`-th answer, to a scan's request with this cursor, says that the list ends here. */
  predicate SaysEnd(server: Server, n: nat, cursor: Option<Cursor>)
  {
    var a := server.answer(n, Request(cursor, PAGE_LIMIT, NotLoaded));
    a.NotMaterialized? || (a.Answered? && a.page.next.None?)
  }

  /** The last page that a finished scan has read reaches from this cursor to the end of the list. */
  ghost predicate ReachesEnd(server: Server, n: nat, cursor: Option<Cursor>, history: seq<Turn>, position: Cursor -> nat)
  {
    var a := server.answer(n, Request(cursor, PAGE_LIMIT, NotLoaded));
    PositionOf(position, cursor) + (if a.Answered? then |a.page.data| else 0) == |history|
  }

  /** The turn at index `i` of the list is on the page that the `n`-th answer gives. */
  ghost predicate IsOnPage(server: Server, n: nat, cursor: Option<Cursor>, position: Cursor -> nat, i: nat)
  {
    var a := server.answer(n, Request(cursor, PAGE_LIMIT, NotLoaded));
    a.Answered? && PositionOf(position, cursor) <= i < PositionOf(position, cursor) + |a.page.data|
  }

  predicate Repeats(turns: seq<Turn>)
  {
    exists i, j :: 0 <= i < j < |turns| && turns[i].id == turns[j].id
  }

  lemma TruePageIsDistinct(page: Page, request: Request, history: seq<Turn>, position: Cursor -> nat)
    requires DistinctIds(history) && TruePage(page, request, history, position)
    ensures !Repeats(page.data)
  {
    var from := PositionOf(position, request.cursor);
    assert forall i :: 0 <= i < |page.data| ==> page.data[i].id == history[from + i].id;
  }

  lemma ShownConcat(history: seq<Turn>, view: View, from: nat, to: nat)
    requires from <= to <= |history|
    ensures Shown(history[..from], view) + Shown(history[from..to], view) == Shown(history[..to], view)
  {
  }

  lemma ShownIsDistinct(history: seq<Turn>, view: View, n: nat)
    requires DistinctIds(history) && n <= |history|
    ensures DistinctIds(Shown(history[..n], view))
  {
  }

  /** What the turns of a finished walk say about the list. */
  lemma WalkedList(history: seq<Turn>, sought: Option<TurnId>, visited: seq<Turn>, stopped: bool)
    requires visited == Shown(UpTo(history, sought), NotLoaded)
    requires stopped <==> visited != [] && sought == Some(visited[|visited| - 1].id)
    ensures var i := IndexOf(history, sought);
      (stopped <==> i < |history|)
      && visited == Shown(if stopped then history[..i + 1] else history, NotLoaded)
      && (if stopped then visited[..|visited| - 1] else visited) == Shown(history[..i], NotLoaded)
  {
    var i := IndexOf(history, sought);
    if i < |history| {
      assert UpTo(history, sought) == history[..i + 1];
      assert visited[|visited| - 1].id == history[i].id;
    } else {
      assert history[..|history|] == history;
      if visited != [] { assert visited[|visited| - 1].id == history[|history| - 1].id; }
    }
  }

  /** What a walk over an honest thread has visited when it stops at its k-th turn, or ends. */
  lemma StoppedWalk(history: seq<Turn>, sought: Option<TurnId>, n: nat)
    requires DistinctIds(history) && 0 < n <= |history| && sought == Some(history[n - 1].id)
    ensures UpTo(history, sought) == history[..n]
  {
    IndexIsFirst(history, sought.value, n - 1);
  }

  lemma EndedWalk(history: seq<Turn>, sought: Option<TurnId>)
    requires forall i :: 0 <= i < |history| ==> sought != Some(history[i].id)
    ensures UpTo(history, sought) == history
  {
  }

  // ---------------------------------------------------------------- the reader

  /** `history` and `position` name a thread that the server may or may not be honest about. */
  class ThreadHistoryReader {
    const server: Server

    constructor (server: Server)
      ensures this.server == server
    {
      this.server := server;
    }

    method TurnsPage(request: Request, ghost history: seq<Turn>, ghost position: Cursor -> nat) returns (r: Result<Page>)
      modifies server`requests
      ensures server.requests == old(server.requests) + 1
      ensures r.Ok? ==> DistinctIds(r.value.data) && (r.value.next.Some? ==> request.cursor != r.value.next)
      ensures r.Raise? ==> r.problem != Absent && r.problem != BudgetExhausted
      ensures r.Ok? && server.answer(old(server.requests), request).Answered? ==> r.value == server.answer(old(server.requests), request).page
      ensures server.answer(old(server.requests), request).NotMaterialized? ==> r == Ok(Page([], None))
      ensures server.answer(old(server.requests), request).Failure? ==> r.Raise?
      ensures Honest(server.answer, history, position) && request.limit > 0 && PositionOf(position, request.cursor) <= |history| ==>
        r.Ok? && TruePage(r.value, request, history, position)
    {
      var a := server.Ask(request);
      match a {
        case Failure => return Raise(ServerFailed);
        case NotMaterialized => return Ok(Page([], None));
        case Answered(page) =>
          if request.cursor.Some? && page.next == request.cursor { return Raise(NoProgress); }
          if Honest(server.answer, history, position) && request.limit > 0 && PositionOf(position, request.cursor) <= |history| {
            TruePageIsDistinct(page, request, history, position);
          }
          if Repeats(page.data) { return Raise(RepeatedTurn); }
          return Ok(page);
      }
    }

    /** The newest turn, stepping over a bounded number of empty windows. */
    method LatestTurn(ghost history: seq<Turn>, ghost position: Cursor -> nat) returns (r: Result<Option<Turn>>)
      modifies server`requests
      ensures server.requests <= old(server.requests) + EMPTY_WINDOW_WALK
      ensures Honest(server.answer, history, position) ==>
        match r
        case Ok(None) => history == []
        case Ok(Some(turn)) => history != [] && turn == history[0].(view := NotLoaded)
        case Raise(problem) => problem == BudgetExhausted && server.requests == old(server.requests) + EMPTY_WINDOW_WALK
    {
      var cursor: Option<Cursor> := None;
      for walked := 0 to EMPTY_WINDOW_WALK
        invariant server.requests == old(server.requests) + walked
        invariant Honest(server.answer, history, position) ==> PositionOf(position, cursor) == 0
      {
        var page := TurnsPage(Request(cursor, 1, NotLoaded), history, position);
        if page.Raise? { return Raise(page.problem); }
        if |page.value.data| > 0 { return Ok(Some(page.value.data[0])); }
        if page.value.next.None? { return Ok(None); }
        cursor := page.value.next;
      }
      return Raise(BudgetExhausted);
    }

    /** One budgeted page of a scan. */
    method ReadPage(cursor: Option<Cursor>, budget: HistoryScanBudget, ghost history: seq<Turn>, ghost position: Cursor -> nat)
      returns (r: Result<Page>)
      modifies server`requests, budget
      ensures server.requests == old(server.requests) + 1
      ensures r.Ok? ==> budget.pages == old(budget.pages) + 1 <= budget.limits.maxPages && DistinctIds(r.value.data)
      ensures var request := Request(cursor, PAGE_LIMIT, NotLoaded);
        r.Ok? && server.answer(old(server.requests), request).Answered? ==> r.value == server.answer(old(server.requests), request).page
      ensures r.Ok? ==> (r.value.next.None? <==> SaysEnd(server, old(server.requests), cursor))
      ensures r.Ok? && server.answer(old(server.requests), Request(cursor, PAGE_LIMIT, NotLoaded)).NotMaterialized? ==> r.value.data == []
      ensures r.Ok? ==> !server.answer(old(server.requests), Request(cursor, PAGE_LIMIT, NotLoaded)).Failure?
      ensures r.Raise? ==> r.problem != Absent && (r.problem == BudgetExhausted ==> Spent(budget, server))
      ensures Honest(server.answer, history, position) && PositionOf(position, cursor) <= |history| ==>
        if r.Ok? then TruePage(r.value, Request(cursor, PAGE_LIMIT, NotLoaded), history, position) else r.problem == BudgetExhausted
    {
      r := TurnsPage(Request(cursor, PAGE_LIMIT, NotLoaded), history, position);
      if r.Raise? { return r; }
      var data := r.value.data;
      var within := budget.ConsumeTurns(|data|, server.size(data), server.late(server.requests));
      if !within { return Raise(BudgetExhausted); }
    }

    /** The turns of one page, until the sought one. */
    method TakePage(data: seq<Turn>, sought: Option<TurnId>, before: seq<Turn>, seenBefore: set<TurnId>)
      returns (repeated: bool, stopped: bool, visited: seq<Turn>, seen: set<TurnId>)
      requires DistinctIds(before) && seenBefore == Ids(before) && forall turn :: turn in before ==> sought != Some(turn.id)
      ensures before <= visited <= before + data && DistinctIds(visited) && seen == Ids(visited)
      ensures repeated ==> !stopped && !DistinctIds(before + data)
      ensures !repeated && !stopped ==> visited == before + data
      ensures stopped <==> visited != [] && sought == Some(visited[|visited| - 1].id)
      ensures forall i :: 0 <= i < |visited| - (if stopped then 1 else 0) ==> sought != Some(visited[i].id)
    {
      visited, seen := before, seenBefore;
      for i := 0 to |data|
        invariant visited == before + data[..i] && DistinctIds(visited) && seen == Ids(visited)
        invariant forall turn :: turn in visited ==> sought != Some(turn.id)
      {
        if data[i].id in seen {
          var k :| 0 <= k < |visited| && visited[k].id == data[i].id;
          assert (before + data)[|visited|] == data[i] && (before + data)[k] == visited[k];
          return true, false, visited, seen;
        }
        seen := seen + {data[i].id};
        visited := visited + [data[i]];
        assert data[..i + 1] == data[..i] + [data[i]];
        if sought == Some(data[i].id) { return false, true, visited, seen; }
      }
      return false, false, visited, seen;
    }

    /** The walk behind every search: pages until the sought turn or the end. `last` is the cursor of the
        last page read, and the result says whether that page is the last one. */
    method WalkTurns(sought: Option<TurnId>, budget: HistoryScanBudget, ghost history: seq<Turn>, ghost position: Cursor -> nat)
      returns (r: Result<bool>, visited: seq<Turn>, stopped: bool, ghost last: Option<Cursor>)
      modifies server`requests, budget
      // Any server: no turn twice, the walk stops at the sought turn and nowhere else, and the budget holds.
      ensures DistinctIds(visited)
      ensures stopped ==> r.Ok? && visited != [] && sought == Some(visited[|visited| - 1].id)
      ensures forall i :: 0 <= i < |visited| - (if stopped then 1 else 0) ==> sought != Some(visited[i].id)
      ensures r.Ok? && !stopped ==> r.value
      ensures r.Ok? ==> server.requests > old(server.requests) && (r.value <==> SaysEnd(server, server.requests - 1, last))
      ensures r == Raise(BudgetExhausted) ==> Spent(budget, server)
      ensures server.requests <= old(server.requests) + Max(0, budget.limits.maxPages - old(budget.pages)) + 1
      // An honest one: the plain list up to the sought turn, unless the budget runs out.
      ensures Honest(server.answer, history, position) ==>
        if r.Ok? then
          visited == Shown(UpTo(history, sought), NotLoaded) && (r.value ==> ReachesEnd(server, server.requests - 1, last, history, position))
          && (stopped ==> IsOnPage(server, server.requests - 1, last, position, |visited| - 1))
        else r.problem == BudgetExhausted
    {
      ghost var honest := Honest(server.answer, history, position);
      visited, stopped, last := [], false, None;
      ghost var covered: nat := 0;
      var seen: set<TurnId> := {};
      var seenCursors: set<Cursor> := {};
      var cursor: Option<Cursor> := None;
      while true
        invariant DistinctIds(visited) && seen == Ids(visited) && !stopped
        invariant forall turn :: turn in visited ==> sought != Some(turn.id)
        invariant server.requests - old(server.requests) == budget.pages - old(budget.pages)
        invariant budget.pages == old(budget.pages) || old(budget.pages) <= budget.pages <= budget.limits.maxPages
        invariant honest ==> covered == PositionOf(position, cursor) <= |history| && visited == Shown(history[..covered], NotLoaded)
        invariant honest ==> forall c :: c in seenCursors ==> cursor.Some? && c < cursor.value
        decreases if budget.pages <= budget.limits.maxPages then budget.limits.maxPages - budget.pages + 1 else 0
      {
        if cursor.Some? && cursor.value in seenCursors { return Raise(RepeatedCursor), visited, false, last; }
        if cursor.Some? { seenCursors := seenCursors + {cursor.value}; }
        last := cursor;
        var page := ReadPage(cursor, budget, history, position);
        if page.Raise? { return Raise(page.problem), visited, false, last; }
        var repeated;
        repeated, stopped, visited, seen := VisitPage(page.value.data, sought, visited, seen, honest, history, covered);
        covered := covered + |page.value.data|;
        if repeated { return Raise(RepeatedTurn), visited, false, last; }
        if stopped || page.value.next.None? { return Ok(page.value.next.None?), visited, stopped, last; }
        cursor := page.value.next;
      }
    }

    /** One page of a walk, with what it means for the list when the server is honest. */
    method VisitPage(data: seq<Turn>, sought: Option<TurnId>, before: seq<Turn>, seenBefore: set<TurnId>,
                     ghost honest: bool, ghost history: seq<Turn>, ghost from: nat)
      returns (repeated: bool, stopped: bool, visited: seq<Turn>, seen: set<TurnId>)
      requires DistinctIds(before) && seenBefore == Ids(before) && forall turn :: turn in before ==> sought != Some(turn.id)
      requires honest ==> DistinctIds(history) && from + |data| <= |history| && before == Shown(history[..from], NotLoaded)
      requires honest ==> data == Shown(history[from..from + |data|], NotLoaded)
      ensures DistinctIds(visited) && seen == Ids(visited)
      ensures stopped ==> !repeated && |visited| > |before| && sought == Some(visited[|visited| - 1].id)
      ensures forall i :: 0 <= i < |visited| - (if stopped then 1 else 0) ==> sought != Some(visited[i].id)
      ensures honest ==> !repeated && |visited| <= from + |data|
      ensures honest && stopped ==> visited == Shown(UpTo(history, sought), NotLoaded)
      ensures honest && !stopped ==> visited == Shown(history[..from + |data|], NotLoaded)
      ensures honest && !stopped && from + |data| == |history| ==> visited == Shown(UpTo(history, sought), NotLoaded)
    {
      repeated, stopped, visited, seen := TakePage(data, sought, before, seenBefore);
      if honest {
        PageIsTaken(history, from, data, before, visited, sought, repeated, stopped);
        if !stopped { ShownConcat(history, NotLoaded, from, from + |data|); }
      }
    }

    /** `undefined` for a turn that is not in the list. */
    method FindTurn(id: TurnId, budget: HistoryScanBudget, ghost history: seq<Turn>, ghost position: Cursor -> nat)
      returns (r: Result<Option<Turn>>)
      modifies server`requests, budget
      ensures server.requests <= old(server.requests) + Max(0, budget.limits.maxPages - old(budget.pages)) + 1
      ensures r == Raise(BudgetExhausted) ==> Spent(budget, server)
      ensures r.Ok? && r.value.Some? ==> r.value.value.id == id
      ensures Honest(server.answer, history, position) ==>
        if r.Raise? then r.problem == BudgetExhausted
        else
          var i := IndexOf(history, Some(id));
          r.value == if i < |history| then Some(history[i].(view := NotLoaded)) else None
    {
      var scan, visited, stopped;
      ghost var last;
      scan, visited, stopped, last := WalkTurns(Some(id), budget, history, position);
      if scan.Raise? { return Raise(scan.problem); }
      if Honest(server.answer, history, position) { WalkedList(history, Some(id), visited, stopped); }
      return Ok(if stopped then Some(visited[|visited| - 1]) else None);
    }

    /** The turns newer than the anchor; without an anchor, all of them. The last component says whether the
        list was read to its end: always when the anchor was not found, and otherwise exactly if the page
        that holds the anchor, the one read from `last` on, was the last one. */
    method DescendingSuffix(anchor: Option<TurnId>, budget: HistoryScanBudget, ghost history: seq<Turn>, ghost position: Cursor -> nat)
      returns (r: Result<(seq<Turn>, bool, bool)>, ghost last: Option<Cursor>)
      modifies server`requests, budget
      ensures server.requests <= old(server.requests) + Max(0, budget.limits.maxPages - old(budget.pages)) + 1
      ensures r == Raise(BudgetExhausted) ==> Spent(budget, server)
      ensures r.Ok? ==> DistinctIds(r.value.0) && forall turn :: turn in r.value.0 ==> Some(turn.id) != anchor
      ensures r.Ok? ==> server.requests > 0 && (r.value.2 <==> SaysEnd(server, server.requests - 1, last))
      ensures r.Ok? && (!r.value.1 || anchor.None?) ==> r.value.2
      ensures Honest(server.answer, history, position) ==>
        if r.Raise? then r.problem == BudgetExhausted
        else
          var i := IndexOf(history, anchor);
          var found := anchor.None? || i < |history|;
          r.value.1 == found && r.value.0 == (if found then Shown(history[..i], NotLoaded) else [])
          && (r.value.2 ==> ReachesEnd(server, server.requests - 1, last, history, position))
          && (i < |history| ==> IsOnPage(server, server.requests - 1, last, position, i))
    {
      var scan, visited, stopped;
      scan, visited, stopped, last := WalkTurns(anchor, budget, history, position);
      if scan.Raise? { return Raise(scan.problem), last; }
      if Honest(server.answer, history, position) { WalkedList(history, anchor, visited, stopped); }
      var buffered := if stopped then visited[..|visited| - 1] else visited;
      var found := anchor.None? || stopped;
      return Ok((if found then buffered else [], found, scan.value)), last;
    }

    /** The turns from the newest down to and including the given one. */
    method DescendingFrom(first: TurnId, budget: HistoryScanBudget, ghost history: seq<Turn>, ghost position: Cursor -> nat)
      returns (r: Result<(seq<Turn>, bool, bool)>, ghost last: Option<Cursor>)
      modifies server`requests, budget
      ensures server.requests <= old(server.requests) + Max(0, budget.limits.maxPages - old(budget.pages)) + 1
      ensures r == Raise(BudgetExhausted) ==> Spent(budget, server)
      ensures r.Ok? ==> DistinctIds(r.value.0)
      ensures r.Ok? && r.value.1 ==> r.value.0 != [] && r.value.0[|r.value.0| - 1].id == first
      ensures r.Ok? ==> server.requests > 0 && (r.value.2 <==> SaysEnd(server, server.requests - 1, last))
      ensures r.Ok? && !r.value.1 ==> r.value.2
      ensures Honest(server.answer, history, position) ==>
        if r.Raise? then r.problem == BudgetExhausted
        else
          var i := IndexOf(history, Some(first));
          r.value.1 == (i < |history|) && r.value.0 == (if i < |history| then Shown(history[..i + 1], NotLoaded) else [])
          && (r.value.2 ==> ReachesEnd(server, server.requests - 1, last, history, position))
          && (i < |history| ==> IsOnPage(server, server.requests - 1, last, position, i))
    {
      var scan, visited, stopped;
      scan, visited, stopped, last := WalkTurns(Some(first), budget, history, position);
      if scan.Raise? { return Raise(scan.problem), last; }
      if Honest(server.answer, history, position) { WalkedList(history, Some(first), visited, stopped); }
      return Ok((if stopped then visited else [], stopped, scan.value)), last;
    }

    /** The page of the turns in front of the sought one. */
    method SkipPrefix(cursor: Option<Cursor>, data: seq<Turn>, index: nat, budget: HistoryScanBudget,
                      ghost history: seq<Turn>, ghost position: Cursor -> nat, ghost window: Option<Cursor> -> nat)
      returns (r: Result<Option<Cursor>>)
      requires 0 < index < |data|
      modifies server`requests, budget
      ensures server.requests == old(server.requests) + 1
      ensures r.Ok? ==> budget.pages == old(budget.pages) + 1 <= budget.limits.maxPages
      ensures r.Raise? ==> r.problem != Absent && (r.problem == BudgetExhausted ==> Spent(budget, server))
      ensures OnPage(server, cursor, data, history, position) && r.Ok? ==> PositionOf(position, r.value) == PositionOf(position, cursor) + index
      ensures SteadyPage(server, cursor, data, history, position, window) ==>
        if r.Ok? then window(r.value) == window(cursor) - index else r.problem == BudgetExhausted
    {
      var prefix := TurnsPage(Request(cursor, index, NotLoaded), history, position);
      if prefix.Raise? { return Raise(prefix.problem); }
      var within := budget.ConsumeTurns(|prefix.value.data|, server.size(prefix.value.data), server.late(server.requests));
      if !within { return Raise(BudgetExhausted); }
      if SteadyPage(server, cursor, data, history, position, window) {
        SteadyPrefix(server, old(server.requests), cursor, data, index, history, position, window, prefix.value);
      }
      if |prefix.value.data| != index || prefix.value.next.None?
         || exists i :: 0 <= i < index && prefix.value.data[i].id != data[i].id { return Raise(HistoryChanged); }
      return Ok(prefix.value.next);
    }

    /** The last request: the sought turn alone, in full. */
    method LoadTurn(id: TurnId, target: Option<Cursor>, budget: HistoryScanBudget, ghost at: nat,
                    ghost history: seq<Turn>, ghost position: Cursor -> nat, ghost window: Option<Cursor> -> nat)
      returns (r: Result<Turn>)
      modifies server`requests, budget
      ensures server.requests == old(server.requests) + 1
      ensures budget.pages <= old(budget.pages) + 1
      ensures r.Ok? ==> r.value.id == id && r.value.view == Full
      ensures r.Raise? ==> r.problem != Absent && (r.problem == BudgetExhausted ==> Spent(budget, server))
      ensures Honest(server.answer, history, position) && at == PositionOf(position, target) < |history| && r.Ok? ==>
        r.value == history[at].(view := Full)
      ensures Steady(server.answer, history, position, window) && window(target) > 0
              && at == PositionOf(position, target) < |history| && history[at].id == id && r.Raise? ==>
        r.problem == BudgetExhausted
    {
      var full := TurnsPage(Request(target, 1, Full), history, position);
      if full.Raise? { return Raise(full.problem); }
      var within := budget.ConsumeTurns(|full.value.data|, server.size(full.value.data), server.late(server.requests));
      if !within { return Raise(BudgetExhausted); }
      if |full.value.data| != 1 || full.value.data[0].id != id || full.value.data[0].view != Full { return Raise(HistoryChanged); }
      return Ok(full.value.data[0]);
    }

    /** The requests that locate one turn on a page and load it in full. */
    method LoadExact(id: TurnId, cursor: Option<Cursor>, data: seq<Turn>, index: nat, budget: HistoryScanBudget,
                     ghost history: seq<Turn>, ghost position: Cursor -> nat, ghost window: Option<Cursor> -> nat)
      returns (r: Result<Turn>)
      requires index < |data| && data[index].id == id
      modifies server`requests, budget
      ensures server.requests <= old(server.requests) + Max(0, budget.limits.maxPages - old(budget.pages)) + 1
      ensures r.Ok? ==> r.value.id == id && r.value.view == Full
      ensures r.Raise? ==> r.problem != Absent && (r.problem == BudgetExhausted ==> Spent(budget, server))
      ensures OnPage(server, cursor, data, history, position) ==>
        history[PositionOf(position, cursor) + index].id == id
        && (r.Ok? ==> r.value == history[PositionOf(position, cursor) + index].(view := Full))
      ensures SteadyPage(server, cursor, data, history, position, window) && r.Raise? ==> r.problem == BudgetExhausted
    {
      ghost var at := PositionOf(position, cursor) + index;
      if OnPage(server, cursor, data, history, position) { OnPageIs(server, cursor, data, history, position, index); }
      var target := cursor;
      if index > 0 {
        var skipped := SkipPrefix(cursor, data, index, budget, history, position, window);
        if skipped.Raise? { return Raise(skipped.problem); }
        target := skipped.value;
      }
      r := LoadTurn(id, target, budget, at, history, position, window);
    }

    /** The turn was found on the page that the `asked`-th request got. */
    method LoadFound(id: TurnId, cursor: Option<Cursor>, page: Page, index: nat, ghost asked: nat, budget: HistoryScanBudget,
                     ghost history: seq<Turn>, ghost position: Cursor -> nat, ghost window: Option<Cursor> -> nat)
      returns (r: Result<Turn>)
      requires index < |page.data| && page.data[index].id == id
      requires var request := Request(cursor, PAGE_LIMIT, NotLoaded);
        server.answer(asked, request).Answered? ==> page == server.answer(asked, request).page
      requires Honest(server.answer, history, position) ==>
        PositionOf(position, cursor) <= |history| && TruePage(page, Request(cursor, PAGE_LIMIT, NotLoaded), history, position)
      modifies server`requests, budget
      ensures server.requests <= old(server.requests) + Max(0, budget.limits.maxPages - old(budget.pages)) + 1
      ensures r.Ok? ==> r.value.id == id && r.value.view == Full
      ensures r.Raise? ==> r.problem != Absent && (r.problem == BudgetExhausted ==> Spent(budget, server))
      ensures Honest(server.answer, history, position) ==>
        var i := IndexOf(history, Some(id)); i < |history| && (r.Ok? ==> r.value == history[i].(view := Full))
      ensures Steady(server.answer, history, position, window) && r.Raise? ==> r.problem == BudgetExhausted
    {
      if Steady(server.answer, history, position, window) { SteadyWindow(server, asked, cursor, page, history, position, window); }
      if Honest(server.answer, history, position) {
        OnPageIs(server, cursor, page.data, history, position, index);
        IndexIsFirst(history, id, PositionOf(position, cursor) + index);
      }
      r := LoadExact(id, cursor, page.data, index, budget, history, position, window);
    }

    /** The requested turn with its items, or an error: never another turn, and against an honest server
        "absent" only when the list does not have it. Against one whose windows do not move it is the turn
        exactly if the list has it, unless the budget is really spent. */
    method ExactFullTurn(id: TurnId, budget: HistoryScanBudget,
                         ghost history: seq<Turn>, ghost position: Cursor -> nat, ghost window: Option<Cursor> -> nat)
      returns (r: Result<Turn>)
      modifies server`requests, budget
      ensures server.requests <= old(server.requests) + Max(0, budget.limits.maxPages - old(budget.pages)) + 1
      ensures r.Ok? ==> r.value.id == id && r.value.view == Full
      ensures r == Raise(BudgetExhausted) ==> Spent(budget, server)
      ensures Honest(server.answer, history, position) && r.Ok? ==>
        var i := IndexOf(history, Some(id)); i < |history| && r.value == history[i].(view := Full)
      ensures Honest(server.answer, history, position) && r == Raise(Absent) ==> IndexOf(history, Some(id)) == |history|
      ensures Steady(server.answer, history, position, window) && !Spent(budget, server) ==>
        var i := IndexOf(history, Some(id));
        r == if i < |history| then Ok(history[i].(view := Full)) else Raise(Absent)
    {
      var seenCursors: set<Cursor> := {};
      var cursor: Option<Cursor> := None;
      ghost var honest := Honest(server.answer, history, position);
      ghost var covered: nat := 0;
      while true
        invariant server.requests - old(server.requests) == budget.pages - old(budget.pages)
        invariant budget.pages == old(budget.pages) || old(budget.pages) <= budget.pages <= budget.limits.maxPages
        invariant honest ==>
          covered == PositionOf(position, cursor) <= |history| && (forall k :: 0 <= k < covered ==> history[k].id != id)
          && forall c :: c in seenCursors ==> cursor.Some? && c < cursor.value
        decreases if budget.pages <= budget.limits.maxPages then budget.limits.maxPages - budget.pages + 1 else 0
      {
        if cursor.Some? && cursor.value in seenCursors { return Raise(RepeatedCursor); }
        if cursor.Some? { seenCursors := seenCursors + {cursor.value}; }
        ghost var asked := server.requests;
        var page := ReadPage(cursor, budget, history, position);
        if page.Raise? { return Raise(page.problem); }
        var data := page.value.data;
        var index := IndexOf(data, Some(id));
        if index < |data| {
          r := LoadFound(id, cursor, page.value, index, asked, budget, history, position, window);
          return;
        }
        if honest { SkippedPage(history, covered, data, id); }
        covered := covered + |data|;
        if page.value.next.None? { return Raise(Absent); }
        cursor := page.value.next;
      }
    }
  }

  /** `data` is a true page of the thread at `cursor`. */
  ghost predicate OnPage(server: Server, cursor: Option<Cursor>, data: seq<Turn>, history: seq<Turn>, position: Cursor -> nat)
  {
    var from := PositionOf(position, cursor);
    Honest(server.answer, history, position) && from + |data| <= |history| && data == Shown(history[from..from + |data|], NotLoaded)
  }

  ghost predicate SteadyPage(server: Server, cursor: Option<Cursor>, data: seq<Turn>, history: seq<Turn>, position: Cursor -> nat,
                             window: Option<Cursor> -> nat)
  {
    OnPage(server, cursor, data, history, position) && Steady(server.answer, history, position, window) && |data| <= window(cursor)
  }

  lemma OnPageIs(server: Server, cursor: Option<Cursor>, data: seq<Turn>, history: seq<Turn>, position: Cursor -> nat, index: nat)
    requires OnPage(server, cursor, data, history, position) && index < |data|
    ensures PositionOf(position, cursor) + index < |history|
    ensures data[index].id == history[PositionOf(position, cursor) + index].id
  {
    var from := PositionOf(position, cursor);
    assert history[from..from + |data|][index] == history[from + index];
  }

  /** A page that shows a turn was answered, and lies in its window. */
  lemma SteadyWindow(server: Server, n: nat, cursor: Option<Cursor>, page: Page, history: seq<Turn>, position: Cursor -> nat,
                     window: Option<Cursor> -> nat)
    requires Steady(server.answer, history, position, window) && PositionOf(position, cursor) <= |history|
    requires server.answer(n, Request(cursor, PAGE_LIMIT, NotLoaded)).Answered?
    requires page == server.answer(n, Request(cursor, PAGE_LIMIT, NotLoaded)).page
    ensures |page.data| <= window(cursor)
  {
  }

  /** A steady server answers the shorter request with just the turns asked for, and more to come. */
  lemma SteadyPrefix(server: Server, n: nat, cursor: Option<Cursor>, data: seq<Turn>, index: nat, history: seq<Turn>,
                     position: Cursor -> nat, window: Option<Cursor> -> nat, prefix: Page)
    requires SteadyPage(server, cursor, data, history, position, window) && 0 < index < |data|
    requires server.answer(n, Request(cursor, index, NotLoaded)).Answered?
    requires prefix == server.answer(n, Request(cursor, index, NotLoaded)).page
    ensures |prefix.data| == index && prefix.next.Some? && window(prefix.next) == window(cursor) - index
    ensures forall i :: 0 <= i < index ==> prefix.data[i].id == data[i].id
  {
    var from := PositionOf(position, cursor);
    assert TruePage(prefix, Request(cursor, index, NotLoaded), history, position);
    forall i | 0 <= i < index
      ensures prefix.data[i].id == data[i].id
    {
      assert history[from..from + index][i] == history[from..from + |data|][i];
    }
  }

  /** A page without the sought turn is passed over. */
  lemma SkippedPage(history: seq<Turn>, covered: nat, data: seq<Turn>, id: TurnId)
    requires covered + |data| <= |history| && data == Shown(history[covered..covered + |data|], NotLoaded)
    requires IndexOf(data, Some(id)) == |data| && forall k :: 0 <= k < covered ==> history[k].id != id
    ensures forall k :: 0 <= k < covered + |data| ==> history[k].id != id
  {
    var window := history[covered..covered + |data|];
    forall j | 0 <= j < |window|
      ensures window[j].id != id
    {
      NotOnPage(window, data, id, j);
    }
    assert forall k :: covered <= k < covered + |data| ==> history[k] == window[k - covered];
  }

  lemma NotOnPage(window: seq<Turn>, data: seq<Turn>, id: TurnId, j: nat)
    requires data == Shown(window, NotLoaded) && IndexOf(data, Some(id)) == |data| && j < |window|
    ensures window[j].id != id
  {
    assert data[j].id == window[j].id;
  }

  /** A page of an honest thread taken after the turns before it. */
  lemma PageIsTaken(history: seq<Turn>, from: nat, data: seq<Turn>, before: seq<Turn>, visited: seq<Turn>, sought: Option<TurnId>,
                    repeated: bool, stopped: bool)
    requires DistinctIds(history) && from + |data| <= |history|
    requires before == Shown(history[..from], NotLoaded) && data == Shown(history[from..from + |data|], NotLoaded)
    requires before <= visited <= before + data
    requires repeated ==> !DistinctIds(before + data)
    requires !repeated && !stopped ==> visited == before + data
    requires stopped <==> visited != [] && sought == Some(visited[|visited| - 1].id)
    requires forall i :: 0 <= i < |visited| - (if stopped then 1 else 0) ==> sought != Some(visited[i].id)
    ensures !repeated && visited == Shown(history[..|visited|], NotLoaded) && |visited| <= from + |data|
    ensures stopped ==> UpTo(history, sought) == history[..|visited|]
    ensures !stopped && from + |data| == |history| ==> UpTo(history, sought) == history && visited == Shown(history, NotLoaded)
  {
    ShownConcat(history, NotLoaded, from, from + |data|);
    ShownIsDistinct(history, NotLoaded, from + |data|);
    var all := Shown(history[..from + |data|], NotLoaded);
    assert before + data == all && !repeated;
    VisitedPrefix(history, from + |data|, visited);
    if stopped {
      StoppedWalk(history, sought, |visited|);
    } else if from + |data| == |history| {
      assert history[..|history|] == history;
      NothingSought(history, sought, visited);
    }
  }

  lemma VisitedPrefix(history: seq<Turn>, n: nat, visited: seq<Turn>)
    requires n <= |history| && visited <= Shown(history[..n], NotLoaded)
    ensures |visited| <= n && visited == Shown(history[..|visited|], NotLoaded)
    ensures forall i :: 0 <= i < |visited| ==> visited[i].id == history[i].id
  {
    assert visited == Shown(history[..n], NotLoaded)[..|visited|];
  }

  lemma NothingSought(history: seq<Turn>, sought: Option<TurnId>, visited: seq<Turn>)
    requires visited == Shown(history, NotLoaded) && forall i :: 0 <= i < |visited| ==> sought != Some(visited[i].id)
    ensures UpTo(history, sought) == history
  {
    assert forall i :: 0 <= i < |history| ==> history[i].id == visited[i].id;
    EndedWalk(history, sought);
  }
}
