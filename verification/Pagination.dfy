/** Keyset pagination of the document list (internal/library/service.go, cursor.go, listDocuments),
    while other requests insert, update, delete and hard-delete documents between the pages. */
module Pagination {
  import opened Schema

  /** What the query looks at. */
  datatype Row = Row(owner: Uuid, createdAt: int, deleted: bool)
  type Rows = map<Uuid, Row>

  const DEFAULT_LIMIT := 20

  function BoundedLimit(limit: int): (r: nat)
    ensures 1 <= r <= 20 && (1 <= limit <= 20 ==> r == limit) && (!(1 <= limit <= 20) ==> r == 20)
  {
    if limit <= 0 || limit > DEFAULT_LIMIT then DEFAULT_LIMIT else limit
  }

  // ----- cursor.go; base64 and JSON are abstracted to the token they carry -----

  datatype PageToken = PageToken(version: int, afterId: Uuid)

  /** No cursor when the page is empty. */
  function EncodeNextCursor(page: seq<Uuid>): Option<PageToken> {
    if page == [] then None else Some(PageToken(1, page[|page| - 1]))
  }

  function DecodeCursor(token: PageToken): Option<Uuid> {
    if token.version != 1 || token.afterId == NIL then None else Some(token.afterId)
  }

  /** A page with documents gives the cursor of its last document, and only that. */
  lemma CursorRoundTrip(page: seq<Uuid>, token: PageToken)
    requires NIL !in page
    ensures EncodeNextCursor(page).None? <==> page == []
    ensures page != [] ==> DecodeCursor(EncodeNextCursor(page).value) == Some(page[|page| - 1])
    ensures page != [] ==> EncodeNextCursor(page) == Some(PageToken(1, page[|page| - 1]))
    ensures DecodeCursor(token).Some? <==> token.afterId != NIL && EncodeNextCursor([token.afterId]) == Some(token)
  {
  }

  // ----- the query -----

  /** (a.created_at, a.id) > (b.created_at, b.id) */
  predicate Newer(createdA: int, a: Uuid, createdB: int, b: Uuid) {
    createdA > createdB || (createdA == createdB && a > b)
  }

  predicate Precedes(rows: Rows, a: Uuid, b: Uuid) {
    a in rows && b in rows && Newer(rows[a].createdAt, a, rows[b].createdAt, b)
  }

  predicate Listed(rows: Rows, owner: Uuid, d: Uuid) {
    d in rows && rows[d].owner == owner && !rows[d].deleted
  }

  predicate OwnedRow(rows: Rows, owner: Uuid, d: Uuid) { d in rows && rows[d].owner == owner }

  /** The row comparison is with the cursor's row, deleted or not; without that row it is NULL. */
  predicate Candidate(rows: Rows, owner: Uuid, cursor: Option<Uuid>, d: Uuid) {
    && Listed(rows, owner, d)
    && (cursor.Some? ==> OwnedRow(rows, owner, cursor.value) && Precedes(rows, cursor.value, d))
  }

  function Candidates(rows: Rows, owner: Uuid, cursor: Option<Uuid>): set<Uuid> {
    set d | d in rows && Candidate(rows, owner, cursor, d)
  }

  /** ORDER BY created_at DESC, id DESC LIMIT limit */
  ghost predicate IsPage(rows: Rows, owner: Uuid, limit: nat, cursor: Option<Uuid>, page: seq<Uuid>) {
    && |page| == (var n := |Candidates(rows, owner, cursor)|; if n < limit then n else limit)
    && (forall d :: d in page ==> Candidate(rows, owner, cursor, d))
    && (forall i, j :: 0 <= i < j < |page| ==> Precedes(rows, page[i], page[j]))
    && (forall d, i :: Candidate(rows, owner, cursor, d) && d !in page && 0 <= i < |page| ==> Precedes(rows, page[i], d))
  }

  /** Which documents a page shows: live ones of the owner that come after the cursor's row, newest first, those
      of the same time by falling identifier, and none is left out before one that is shown. */
  lemma PageShows(rows: Rows, owner: Uuid, limit: nat, cursor: Option<Uuid>, page: seq<Uuid>)
    requires IsPage(rows, owner, limit, cursor, page)
    ensures |page| <= limit && forall d :: d in page ==> d in rows && rows[d].owner == owner && !rows[d].deleted
    ensures forall d :: d in page && cursor.Some? ==>
              var c := cursor.value;
              && c in rows && rows[c].owner == owner
              && (rows[c].createdAt > rows[d].createdAt || (rows[c].createdAt == rows[d].createdAt && c > d))
    ensures forall i, j :: 0 <= i < j < |page| ==>
              var a, b := page[i], page[j];
              rows[a].createdAt > rows[b].createdAt || (rows[a].createdAt == rows[b].createdAt && a > b)
    ensures |page| < limit && cursor.None? ==> forall d | d in rows && rows[d].owner == owner && !rows[d].deleted :: d in page
    ensures |page| < limit && cursor.Some? && cursor.value in rows && rows[cursor.value].owner == owner ==>
              forall d | d in rows && rows[d].owner == owner && !rows[d].deleted ::
                var c := cursor.value;
                rows[c].createdAt > rows[d].createdAt || (rows[c].createdAt == rows[d].createdAt && c > d) ==> d in page
  {
    forall i | 0 <= i < |page| ensures Candidate(rows, owner, cursor, page[i]) {
      assert page[i] in page;
    }
    if |page| < limit {
      AllShown(rows, owner, limit, cursor, page);
    }
  }

  /** A page that is not full has all of them. */
  lemma AllShown(rows: Rows, owner: Uuid, limit: nat, cursor: Option<Uuid>, page: seq<Uuid>)
    requires IsPage(rows, owner, limit, cursor, page) && |page| < limit
    ensures forall d :: Candidate(rows, owner, cursor, d) ==> d in page
  {
    forall i, j | 0 <= i < j < |page| ensures page[i] != page[j] {
      assert Precedes(rows, page[i], page[j]);
    }
    DistinctSize(page);
    assert Elements(page) <= Candidates(rows, owner, cursor);
    var rest := Candidates(rows, owner, cursor) - Elements(page);
    assert |rest| == |Candidates(rows, owner, cursor)| - |Elements(page)|;
    forall d | Candidate(rows, owner, cursor, d) ensures d in page {
      assert d in Candidates(rows, owner, cursor) && d !in rest;
    }
  }

  // ----- following the cursor -----

  // What one page says about its documents, the cursor and those it leaves out.

  function Last(page: seq<Uuid>): Uuid
    requires page != []
  {
    page[|page| - 1]
  }

  lemma LastOnPage(rows: Rows, owner: Uuid, limit: nat, cursor: Option<Uuid>, page: seq<Uuid>, d: Uuid)
    requires IsPage(rows, owner, limit, cursor, page) && d in page
    ensures Listed(rows, owner, Last(page)) && Listed(rows, owner, d) && (d == Last(page) || Precedes(rows, d, Last(page)))
  {
    var k :| 0 <= k < |page| && page[k] == d;
    assert Last(page) in page;
  }

  lemma BelowCursor(rows: Rows, owner: Uuid, limit: nat, c: Uuid, page: seq<Uuid>, d: Uuid)
    requires IsPage(rows, owner, limit, Some(c), page) && d in page
    ensures OwnedRow(rows, owner, c) && Precedes(rows, c, d)
  {
  }

  lemma LeftOut(rows: Rows, owner: Uuid, limit: nat, cursor: Option<Uuid>, page: seq<Uuid>, d: Uuid)
    requires IsPage(rows, owner, limit, cursor, page) && Candidate(rows, owner, cursor, d) && d !in page && limit > 0
    ensures page != [] && Precedes(rows, Last(page), d)
  {
    assert d in Candidates(rows, owner, cursor);
  }

  /** A document keeps its owner and creation time; identifiers are not used again. */
  ghost predicate SameRow(states: seq<Rows>, i: nat, j: nat, d: Uuid) {
    i < j < |states| && d in states[i] && d in states[j] ==>
      states[i][d].owner == states[j][d].owner && states[i][d].createdAt == states[j][d].createdAt
  }

  /** The cursor of a page is the last document of the page before. */
  function CursorOf(pages: seq<seq<Uuid>>, i: nat): Option<Uuid>
    requires i <= |pages|
  {
    if i == 0 || pages[i - 1] == [] then None else Some(Last(pages[i - 1]))
  }

  ghost predicate PageAt(states: seq<Rows>, owner: Uuid, limits: seq<int>, pages: seq<seq<Uuid>>, i: nat)
    requires |states| == |limits| == |pages|
  {
    i < |pages| ==>
      && IsPage(states[i], owner, BoundedLimit(limits[i]), CursorOf(pages, i), pages[i])
      && (i + 1 < |pages| ==> pages[i] != [])
  }

  /** One request a page, each in its own state and with its own limit, each but the first with the
      cursor of the page before. */
  ghost predicate Traversal(states: seq<Rows>, owner: Uuid, limits: seq<int>, pages: seq<seq<Uuid>>) {
    && |states| == |limits| == |pages|
    && (forall i, j, d :: SameRow(states, i, j, d))
    && (forall i :: PageAt(states, owner, limits, pages, i))
  }

  /** Documents come in strictly falling order across all pages. */
  lemma {:induction false} Falling(states: seq<Rows>, owner: Uuid, limits: seq<int>, pages: seq<seq<Uuid>>,
                                   i: nat, j: nat, a: Uuid, b: Uuid)
    requires Traversal(states, owner, limits, pages) && i < j < |pages| && a in pages[i] && b in pages[j]
    ensures a in states[i] && b in states[j]
    ensures var createdA, createdB := states[i][a].createdAt, states[j][b].createdAt;
            createdA > createdB || (createdA == createdB && a > b)
    decreases j
  {
    assert PageAt(states, owner, limits, pages, j) && PageAt(states, owner, limits, pages, j - 1);
    var last := Last(pages[j - 1]);
    assert last in pages[j - 1];
    LastOnPage(states[j - 1], owner, BoundedLimit(limits[j - 1]), CursorOf(pages, j - 1), pages[j - 1], last);
    BelowCursor(states[j], owner, BoundedLimit(limits[j]), last, pages[j], b);
    assert SameRow(states, j - 1, j, last);
    if i == j - 1 {
      LastOnPage(states[j - 1], owner, BoundedLimit(limits[j - 1]), CursorOf(pages, j - 1), pages[j - 1], a);
    } else {
      Falling(states, owner, limits, pages, i, j - 1, a, last);
    }
  }

  /** No document is returned twice, whatever happens between the pages. */
  lemma NeverTwice(states: seq<Rows>, owner: Uuid, limits: seq<int>, pages: seq<seq<Uuid>>, i: nat, j: nat, m: nat, n: nat)
    requires Traversal(states, owner, limits, pages)
    requires i <= j < |pages| && m < |pages[i]| && n < |pages[j]| && (i == j ==> m < n)
    ensures pages[i][m] != pages[j][n]
  {
    if i < j {
      Falling(states, owner, limits, pages, i, j, pages[i][m], pages[j][n]);
      assert SameRow(states, i, j, pages[i][m]);
    } else {
      assert PageAt(states, owner, limits, pages, i);
    }
  }

  ghost predicate ListedThroughout(states: seq<Rows>, owner: Uuid, d: Uuid) {
    forall i :: 0 <= i < |states| ==> Listed(states[i], owner, d)
  }

  ghost predicate Returned(pages: seq<seq<Uuid>>, d: Uuid) {
    exists i :: 0 <= i < |pages| && d in pages[i]
  }

  ghost predicate CursorThere(rows: Rows, cursor: Option<Uuid>) {
    cursor.Some? ==> cursor.value in rows
  }

  /** A document that no earlier page returned comes after the cursor. */
  lemma {:induction false} StillAhead(states: seq<Rows>, owner: Uuid, limits: seq<int>, pages: seq<seq<Uuid>>, i: nat, d: Uuid)
    requires Traversal(states, owner, limits, pages) && 0 < i < |pages|
    requires ListedThroughout(states, owner, d) && forall j :: 0 <= j < i ==> d !in pages[j]
    ensures pages[i - 1] != [] && Precedes(states[i - 1], Last(pages[i - 1]), d)
    ensures OwnedRow(states[i - 1], owner, Last(pages[i - 1]))
    decreases i
  {
    var n := i - 1;
    assert PageAt(states, owner, limits, pages, n) && Listed(states[n], owner, d);
    LastOnPage(states[n], owner, BoundedLimit(limits[n]), CursorOf(pages, n), pages[n], Last(pages[n]));
    if n > 0 {
      StillAhead(states, owner, limits, pages, n, d);
      AheadNext(states, owner, limits, pages, n, d);
    }
    LeftOut(states[n], owner, BoundedLimit(limits[n]), CursorOf(pages, n), pages[n], d);
  }

  /** It is then a candidate for the next page, as long as the cursor's row is there. */
  lemma AheadNext(states: seq<Rows>, owner: Uuid, limits: seq<int>, pages: seq<seq<Uuid>>, i: nat, d: Uuid)
    requires Traversal(states, owner, limits, pages) && 0 < i < |pages|
    requires pages[i - 1] != [] && Precedes(states[i - 1], Last(pages[i - 1]), d)
    requires OwnedRow(states[i - 1], owner, Last(pages[i - 1])) && Listed(states[i], owner, d)
    requires pages[i] != [] || Last(pages[i - 1]) in states[i]
    ensures Candidate(states[i], owner, CursorOf(pages, i), d)
  {
    var c := Last(pages[i - 1]);
    assert PageAt(states, owner, limits, pages, i);
    if pages[i] != [] {
      assert Last(pages[i]) in pages[i];
      BelowCursor(states[i], owner, BoundedLimit(limits[i]), c, pages[i], Last(pages[i]));
    }
    assert SameRow(states, i - 1, i, c) && SameRow(states, i - 1, i, d);
  }

  /** Followed to the empty page, the cursor has returned every document listed throughout, provided
      the last cursor's row is still there. */
  lemma NothingMissed(states: seq<Rows>, owner: Uuid, limits: seq<int>, pages: seq<seq<Uuid>>, d: Uuid)
    requires Traversal(states, owner, limits, pages) && |pages| > 0 && pages[|pages| - 1] == []
    requires ListedThroughout(states, owner, d)
    requires CursorThere(states[|pages| - 1], CursorOf(pages, |pages| - 1))
    ensures Returned(pages, d)
  {
    var n := |pages| - 1;
    assert PageAt(states, owner, limits, pages, n) && Listed(states[n], owner, d);
    if !Returned(pages, d) {
      if n > 0 {
        StillAhead(states, owner, limits, pages, n, d);
        AheadNext(states, owner, limits, pages, n, d);
      }
      LeftOut(states[n], owner, BoundedLimit(limits[n]), CursorOf(pages, n), pages[n], d);
    }
  }

  lemma BehindNotReturned(states: seq<Rows>, owner: Uuid, limits: seq<int>, pages: seq<seq<Uuid>>, d: Uuid, i: nat)
    requires Traversal(states, owner, limits, pages) && |pages| > 1 && pages[|pages| - 1] == [] && i < |pages|
    requires ListedThroughout(states, owner, d) && pages[|pages| - 2] != []
    requires Precedes(states[|pages| - 2], Last(pages[|pages| - 2]), d)
    ensures d !in pages[i]
  {
    var n := |pages| - 2;
    assert Listed(states[i], owner, d) && Listed(states[n], owner, d);
    assert PageAt(states, owner, limits, pages, n) && SameRow(states, i, n, d);
    var c := Last(pages[n]);
    assert c in pages[n];
    if d in pages[i] && i <= n {
      if i < n {
        Falling(states, owner, limits, pages, i, n, d, c);
      } else {
        LastOnPage(states[n], owner, BoundedLimit(limits[n]), CursorOf(pages, n), pages[n], d);
      }
    }
  }

  /** Exactly then: when the last cursor's row has been hard-deleted in between, what is missed are
      the documents that come after it. */
  lemma CompleteExactly(states: seq<Rows>, owner: Uuid, limits: seq<int>, pages: seq<seq<Uuid>>)
    requires Traversal(states, owner, limits, pages) && |pages| > 1 && pages[|pages| - 1] == []
    ensures var n := |pages| - 2;
            && pages[n] != []
            && ((forall d :: ListedThroughout(states, owner, d) ==> Returned(pages, d)) <==>
                Last(pages[n]) in states[n + 1]
                || forall d :: ListedThroughout(states, owner, d) ==> !Precedes(states[n], Last(pages[n]), d))
  {
    var n := |pages| - 2;
    assert PageAt(states, owner, limits, pages, n);
    forall d | ListedThroughout(states, owner, d) && !Precedes(states[n], Last(pages[n]), d) ensures Returned(pages, d) {
      if !Returned(pages, d) {
        StillAhead(states, owner, limits, pages, n + 1, d);
      }
    }
    forall d | ListedThroughout(states, owner, d) && Last(pages[n]) in states[n + 1] ensures Returned(pages, d) {
      NothingMissed(states, owner, limits, pages, d);
    }
    forall d | ListedThroughout(states, owner, d) && Precedes(states[n], Last(pages[n]), d) ensures !Returned(pages, d) {
      forall i | 0 <= i < |pages| ensures d !in pages[i] {
        BehindNotReturned(states, owner, limits, pages, d, i);
      }
    }
  }

  /** And it happens: the first page ends with a document whose row is hard-deleted before the second page
      is asked for; that page is empty, and an older document, listed all the time, is never returned. */
  lemma EndsEarly() returns (states: seq<Rows>, owner: Uuid, limits: seq<int>, pages: seq<seq<Uuid>>, missed: Uuid)
    ensures Traversal(states, owner, limits, pages) && |pages| > 1 && pages[|pages| - 1] == []
    ensures ListedThroughout(states, owner, missed) && !Returned(pages, missed)
  {
    owner, missed := 9, 2;
    var rows: Rows := map[1 := Row(9, 20, false), 2 := Row(9, 10, false)];
    var later: Rows := map[2 := Row(9, 10, false)];
    states, limits, pages := [rows, later], [1, 1], [[1], []];
    assert Candidates(rows, 9, None) == {1, 2};
    assert Candidates(later, 9, Some(1)) == {};
    assert Candidate(rows, 9, None, 1);
    assert PageAt(states, owner, limits, pages, 0) && PageAt(states, owner, limits, pages, 1);
    forall i: nat ensures PageAt(states, owner, limits, pages, i) {
      assert i < 2 ==> i == 0 || i == 1;
    }
  }

  /** While nothing changes, the pages are together the sorted list of the owner's live documents:
      with Falling, each once and in order. */
  lemma StaticPages(rows: Rows, states: seq<Rows>, owner: Uuid, limits: seq<int>, pages: seq<seq<Uuid>>, d: Uuid)
    requires Traversal(states, owner, limits, pages) && |pages| > 0 && pages[|pages| - 1] == []
    requires forall i :: 0 <= i < |states| ==> states[i] == rows
    ensures Returned(pages, d) <==> Listed(rows, owner, d)
  {
    var n := |pages| - 1;
    if Returned(pages, d) {
      var i :| 0 <= i < |pages| && d in pages[i];
      assert PageAt(states, owner, limits, pages, i);
      assert Candidate(states[i], owner, CursorOf(pages, i), d);
    }
    if Listed(rows, owner, d) {
      if n > 0 {
        assert PageAt(states, owner, limits, pages, n - 1);
        LastOnPage(states[n - 1], owner, BoundedLimit(limits[n - 1]), CursorOf(pages, n - 1), pages[n - 1], Last(pages[n - 1]));
        assert states[n - 1] == states[n];
      }
      NothingMissed(states, owner, limits, pages, d);
    }
  }

  // ----- there is such a page -----

  /** The first of a set of rows in the order of the list. */
  ghost predicate First(rows: Rows, ids: set<Uuid>, d: Uuid)
    requires ids <= rows.Keys
  {
    d in ids && forall x :: x in ids && x != d ==> Precedes(rows, d, x)
  }

  lemma {:induction false} FirstExists(rows: Rows, ids: set<Uuid>) returns (d: Uuid)
    requires ids <= rows.Keys && ids != {}
    ensures First(rows, ids, d)
    decreases |ids|
  {
    var a :| a in ids;
    var rest := ids - {a};
    if rest == {} {
      d := a;
      assert ids == {a};
    } else {
      var e := FirstExists(rows, rest);
      d := if Precedes(rows, e, a) then e else a;
      forall x | x in ids && x != d ensures Precedes(rows, d, x) {
        if x in rest && x != e {
          assert Precedes(rows, e, x);
          OneFirst(rows, a, e, x);
        } else {
          OneFirst(rows, a, e, e);
        }
      }
    }
  }

  /** The order is total and transitive. */
  lemma OneFirst(rows: Rows, a: Uuid, e: Uuid, x: Uuid)
    requires a in rows && e in rows && x in rows && a != e && (x == e || Precedes(rows, e, x))
    ensures Precedes(rows, e, a) || Precedes(rows, a, e)
    ensures !Precedes(rows, e, a) ==> Precedes(rows, a, x)
  {
  }

  lemma {:induction false} TopExists(rows: Rows, ids: set<Uuid>, limit: nat) returns (page: seq<Uuid>)
    requires ids <= rows.Keys
    ensures |page| == if |ids| < limit then |ids| else limit
    ensures forall d :: d in page ==> d in ids
    ensures forall i, j :: 0 <= i < j < |page| ==> page[i] in ids && page[j] in ids && Precedes(rows, page[i], page[j])
    ensures forall d, i :: d in ids && d !in page && 0 <= i < |page| ==> page[i] in ids && Precedes(rows, page[i], d)
    decreases limit
  {
    if limit == 0 || ids == {} {
      page := [];
    } else {
      var d := FirstExists(rows, ids);
      var rest := TopExists(rows, ids - {d}, limit - 1);
      page := [d] + rest;
      forall i, j | 0 <= i < j < |page| ensures page[i] in ids && page[j] in ids && Precedes(rows, page[i], page[j]) {
        assert page[j] == rest[j - 1] && rest[j - 1] in rest;
      }
      forall x, i | x in ids && x !in page && 0 <= i < |page| ensures page[i] in ids && Precedes(rows, page[i], x) {
        assert x !in rest && x != d by {
          assert d in page;
          assert forall k :: 0 <= k < |rest| ==> rest[k] == page[k + 1];
        }
      }
    }
  }

  /** Every request has an answer. */
  lemma PageExists(rows: Rows, owner: Uuid, limit: nat, cursor: Option<Uuid>) returns (page: seq<Uuid>)
    ensures IsPage(rows, owner, limit, cursor, page)
  {
    var ids := Candidates(rows, owner, cursor);
    page := TopExists(rows, ids, limit);
    forall d, i | Candidate(rows, owner, cursor, d) && d !in page && 0 <= i < |page| ensures Precedes(rows, page[i], d) {
      assert d in ids;
    }
  }
}
