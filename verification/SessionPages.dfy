/** The operator's session list, paged by key (server/app/models.py `list_sessions`, server/app/main.py). */
module SessionPages {
  import opened Common

  /** The sort key of a session row. Ids stand for their place in the order of the id column. */
  datatype SessionKey = SessionKey(createdAt: int, id: int)

  /** `created_at desc, id desc` */
  predicate Newer(a: SessionKey, b: SessionKey) {
    a.createdAt > b.createdAt || (a.createdAt == b.createdAt && a.id > b.id)
  }

  lemma NewestExists(s: set<SessionKey>)
    requires s != {}
    ensures exists m :: m in s && forall k :: k in s && k != m ==> Newer(m, k)
  {
    var x :| x in s;
    var rest := s - {x};
    if rest == {} {
      assert s == {x};
      assert forall k :: k in s && k != x ==> Newer(x, k);
    } else {
      NewestExists(rest);
      var m :| m in rest && forall k :: k in rest && k != m ==> Newer(m, k);
      assert forall k :: k in s ==> k == x || k in rest;
      var newest := if Newer(m, x) then m else x;
      assert newest in s && forall k :: k in s && k != newest ==> Newer(newest, k);
    }
  }

  /** The rows in query order. */
  function Listing(s: set<SessionKey>): (r: seq<SessionKey>)
    ensures |r| == |s|
    decreases |s|
  {
    if s == {} then []
    else
      NewestExists(s);
      var m :| m in s && forall k :: k in s && k != m ==> Newer(m, k);
      [m] + Listing(s - {m})
  }

  predicate Descending(s: seq<SessionKey>) {
    forall i, j :: 0 <= i < j < |s| ==> Newer(s[i], s[j])
  }

  lemma {:induction false} ListingIsOrdered(s: set<SessionKey>)
    ensures Descending(Listing(s)) && forall k :: k in Listing(s) <==> k in s
    decreases |s|
  {
    if s != {} {
      var list := Listing(s);
      ListingIsOrdered(s - {list[0]});
      assert list[1..] == Listing(s - {list[0]});
      assert list == [list[0]] + list[1..];
      forall j | 0 < j < |list| ensures Newer(list[0], list[j]) {
        assert list[j] == list[1..][j - 1];
        assert list[1..][j - 1] in list[1..];
      }
      forall i, j | 0 < i < j < |list| ensures Newer(list[i], list[j]) {
        assert list[i] == list[1..][i - 1] && list[j] == list[1..][j - 1];
      }
    }
  }

  /** The rows strictly after the cursor. */
  function After(table: set<SessionKey>, before: Option<SessionKey>): set<SessionKey> {
    set k | k in table && (before.None? || Newer(before.value, k))
  }

  /** `models.list_sessions` */
  function Query(table: set<SessionKey>, limit: nat, before: Option<SessionKey>): seq<SessionKey> {
    var list := Listing(After(table, before));
    if |list| <= limit then list else list[..limit]
  }

  datatype Page = Page(rows: seq<SessionKey>, next: Option<SessionKey>)

  /** `GET /sessions`: one row more than the page is asked for, to know whether there is a next page. */
  function ListSessions(table: set<SessionKey>, limit: nat, before: Option<SessionKey>): Page
    requires limit >= 1
  {
    var sessions := Query(table, limit + 1, before);
    if |sessions| > limit then Page(sessions[..limit], Some(sessions[limit - 1])) else Page(sessions, None)
  }

  /** What a page shows: the rows after the cursor, newest first, down to the next cursor. */
  lemma PageIsExact(table: set<SessionKey>, limit: nat, before: Option<SessionKey>)
    requires limit >= 1
    ensures var page := ListSessions(table, limit, before);
      && Descending(page.rows) && |page.rows| <= limit
      && (page.next.Some? ==> |page.rows| == limit && page.next == Some(page.rows[limit - 1]))
      && forall k :: k in page.rows <==>
           k in After(table, before) && (page.next.None? || k == page.next.value || Newer(k, page.next.value))
  {
    var list := Listing(After(table, before));
    ListingIsOrdered(After(table, before));
    var page := ListSessions(table, limit, before);
    if |list| > limit {
      assert list[..limit + 1][..limit] == list[..limit] == page.rows;
      forall k | k in list ensures k in page.rows <==> k == list[limit - 1] || Newer(k, list[limit - 1]) {
        var i :| 0 <= i < |list| && list[i] == k;
        if i < limit {
          assert page.rows[i] == k;
        }
      }
    }
  }

  // ------------------------------------------------------------ following the cursor

  datatype Walk = Walk(rows: seq<SessionKey>, finished: bool)

  /** One request per table: the sessions stored when that page is fetched. */
  function Follow(tables: seq<set<SessionKey>>, limit: nat, before: Option<SessionKey>): Walk
    requires limit >= 1
    decreases |tables|
  {
    if tables == [] then Walk([], false)
    else
      var page := ListSessions(tables[0], limit, before);
      if page.next.None? then Walk(page.rows, true)
      else
        var rest := Follow(tables[1..], limit, page.next);
        Walk(page.rows + rest.rows, rest.finished)
  }

  /** Sessions are only added between requests. */
  predicate Growing(tables: seq<set<SessionKey>>) {
    forall i, j :: 0 <= i < j < |tables| ==> tables[i] <= tables[j]
  }

  /** All pages together are strictly descending: no session is shown twice, whatever is added meanwhile. */
  lemma {:induction false} NothingRepeats(tables: seq<set<SessionKey>>, limit: nat, before: Option<SessionKey>)
    requires limit >= 1
    ensures var rows := Follow(tables, limit, before).rows;
      Descending(rows) && forall k :: k in rows && before.Some? ==> Newer(before.value, k)
    decreases |tables|
  {
    if tables != [] {
      var page := ListSessions(tables[0], limit, before);
      PageIsExact(tables[0], limit, before);
      if page.next.Some? {
        NothingRepeats(tables[1..], limit, page.next);
        var rest := Follow(tables[1..], limit, page.next).rows;
        forall i, j | 0 <= i < |page.rows| && 0 <= j < |rest| ensures Newer(page.rows[i], rest[j]) {
          assert page.rows[i] in page.rows && rest[j] in rest;
        }
      }
    }
  }

  /** Following the cursor to null shows every session that was there at the first request. */
  lemma {:induction false} NothingIsMissed(tables: seq<set<SessionKey>>, limit: nat, before: Option<SessionKey>,
                                           k: SessionKey)
    requires limit >= 1 && Growing(tables) && Follow(tables, limit, before).finished
    requires tables != [] && k in After(tables[0], before)
    ensures k in Follow(tables, limit, before).rows
    decreases |tables|
  {
    var page := ListSessions(tables[0], limit, before);
    PageIsExact(tables[0], limit, before);
    if page.next.Some? && k !in page.rows {
      var rest := tables[1..];
      assert rest != [];
      assert tables[0] <= tables[1] == rest[0];
      assert k in After(rest[0], page.next);
      assert forall i :: 0 <= i < |rest| ==> rest[i] == tables[i + 1];
      NothingIsMissed(rest, limit, page.next, k);
    }
  }

  /** Sessions added later are newer than those of the first request. */
  predicate OnlyNewer(first: set<SessionKey>, tables: seq<set<SessionKey>>) {
    forall i, k, earlier :: 0 <= i < |tables| && k in tables[i] && k !in first && earlier in first ==> Newer(k, earlier)
  }

  /** Then the walk from a cursor ends: every page but the last moves the cursor past a session that was there. */
  lemma {:induction false} TheWalkEnds(first: set<SessionKey>, tables: seq<set<SessionKey>>, limit: nat,
                                       before: SessionKey)
    requires limit >= 1 && OnlyNewer(first, tables) && before in first
    requires |tables| > |After(first, Some(before))|
    ensures Follow(tables, limit, Some(before)).finished
    decreases |tables|
  {
    var page := ListSessions(tables[0], limit, Some(before));
    PageIsExact(tables[0], limit, Some(before));
    if page.next.Some? {
      var cursor := page.next.value;
      assert cursor in page.rows;
      assert cursor in tables[0] && Newer(before, cursor);
      assert cursor in first;
      assert cursor in After(first, Some(before)) && cursor !in After(first, Some(cursor));
      assert After(first, Some(cursor)) <= After(first, Some(before)) - {cursor};
      SubsetSize(After(first, Some(cursor)), After(first, Some(before)) - {cursor});
      assert OnlyNewer(first, tables[1..]) by {
        assert forall i :: 0 <= i < |tables[1..]| ==> tables[1..][i] == tables[i + 1];
      }
      TheWalkEnds(first, tables[1..], limit, cursor);
    }
  }

  /** From the first request on: at most one request more than there were sessions. */
  lemma PagingTerminates(tables: seq<set<SessionKey>>, limit: nat)
    requires limit >= 1 && tables != [] && OnlyNewer(tables[0], tables) && |tables| > |tables[0]|
    ensures Follow(tables, limit, None).finished
  {
    var first := tables[0];
    var page := ListSessions(first, limit, None);
    PageIsExact(first, limit, None);
    if page.next.Some? {
      var cursor := page.next.value;
      assert cursor in page.rows;
      assert After(first, Some(cursor)) <= first - {cursor};
      SubsetSize(After(first, Some(cursor)), first - {cursor});
      assert OnlyNewer(first, tables[1..]) by {
        assert forall i :: 0 <= i < |tables[1..]| ==> tables[1..][i] == tables[i + 1];
      }
      TheWalkEnds(first, tables[1..], limit, cursor);
    }
  }
}
