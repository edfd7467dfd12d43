/** Message history with a cursor (backend/src/system-manager/chatRoutes.js). The stored
    messages are fixed and strictly ordered by creation time, oldest first. */
module Paging {
  import opened Common

  const MAX_PAGE_SIZE: int := 100
  const DEFAULT_PAGE_SIZE: int := 50

  datatype Status = Visible | AwaitingTeacher | AnsweredByTeacher | HiddenByModeration | HiddenByTeacher

  datatype Message = Message(id: string, createdAt: int, status: Status)

  /** `nextCursor` names the oldest message of the page when there are older ones. */
  datatype Page = Page(messages: seq<Message>, nextCursor: Option<string>)

  /** The query's `limit`, parsed (`None` for NaN); 0 counts as missing. */
  function ClampLimit(parsed: Option<int>): (limit: nat)
    ensures 1 <= limit <= MAX_PAGE_SIZE
    ensures parsed.Some? && 1 <= parsed.value <= MAX_PAGE_SIZE ==> limit == parsed.value
  {
    var asked := if parsed.None? || parsed.value == 0 then DEFAULT_PAGE_SIZE else parsed.value;
    var capped := if MAX_PAGE_SIZE < asked then MAX_PAGE_SIZE else asked;
    if capped < 1 then 1 else capped
  }

  predicate Matches(m: Message, teacher: bool) {
    if teacher then m.status != HiddenByTeacher
    else m.status in {Visible, AwaitingTeacher, AnsweredByTeacher}
  }

  /** The matching messages, oldest first. */
  function Matching(table: seq<Message>, teacher: bool): seq<Message> {
    if table == [] then []
    else if Matches(table[0], teacher) then [table[0]] + Matching(table[1..], teacher)
    else Matching(table[1..], teacher)
  }

  function Reverse(s: seq<Message>): (r: seq<Message>)
    ensures |r| == |s|
  {
    if s == [] then [] else Reverse(s[1..]) + [s[0]]
  }

  /** Where a row with this id stands, or the number of rows. */
  function Find(rows: seq<Message>, id: string): (i: nat)
    ensures i <= |rows|
    ensures i < |rows| ==> rows[i].id == id
  {
    if rows == [] then 0 else if rows[0].id == id then 0 else 1 + Find(rows[1..], id)
  }

  /** `findMany`: newest first, from just after the cursor row, at most `take` rows; an
      unknown cursor finds nothing. */
  function Query(table: seq<Message>, teacher: bool, cursor: Option<string>, take: nat): seq<Message> {
    var rows := Reverse(Matching(table, teacher));
    var start := if cursor.None? then 0 else Find(rows, cursor.value) + 1;
    if start >= |rows| then [] else if |rows| - start <= take then rows[start..] else rows[start..start + take]
  }

  /** One row more than the page was asked for; it tells whether there are older messages. */
  function PageOf(messages: seq<Message>, limit: nat): Page
    requires 0 < limit
  {
    var hasMore := |messages| > limit;
    var page := if hasMore then messages[..limit] else messages;
    Page(Reverse(page), if hasMore then Some(page[|page| - 1].id) else None)
  }

  /** One request. */
  function GetPage(table: seq<Message>, teacher: bool, cursor: Option<string>, parsed: Option<int>): Page {
    var limit := ClampLimit(parsed);
    PageOf(Query(table, teacher, cursor, limit + 1), limit)
  }

  // ----- Order and reversal -----

  ghost predicate DistinctIds(rows: seq<Message>) {
    forall i, j | 0 <= i < j < |rows| :: rows[i].id != rows[j].id
  }

  ghost predicate Ascending(rows: seq<Message>) {
    forall i, j | 0 <= i < j < |rows| :: rows[i].createdAt < rows[j].createdAt
  }

  lemma {:induction false} ReverseAt(s: seq<Message>, k: nat, m: nat)
    requires k + m + 1 == |s|
    ensures Reverse(s)[k] == s[m]
  {
    if m > 0 {
      ReverseAt(s[1..], k, m - 1);
    }
  }

  lemma {:induction false} ReverseAppend(s: seq<Message>, t: seq<Message>)
    ensures Reverse(s + t) == Reverse(t) + Reverse(s)
  {
    if s == [] {
      assert s + t == t;
    } else {
      assert (s + t)[1..] == s[1..] + t;
      ReverseAppend(s[1..], t);
    }
  }

  lemma {:induction false} ReverseTwice(s: seq<Message>)
    ensures Reverse(Reverse(s)) == s
  {
    if s == [] {
    } else {
      ReverseAppend(Reverse(s[1..]), [s[0]]);
      ReverseTwice(s[1..]);
      assert Reverse([s[0]]) == [s[0]];
      assert s == [s[0]] + s[1..];
    }
  }

  lemma Middle(front: seq<Message>, mid: seq<Message>, back: seq<Message>, i: nat, j: nat)
    requires i == |front| && j == i + |mid|
    ensures ((front + mid) + back)[i..j] == mid
  {
  }

  /** Reversing a stretch of a reversed list gives a stretch of the list. */
  lemma ReverseSlice(s: seq<Message>, i: nat, j: nat, a: nat, b: nat)
    requires i <= j && j + a == |s| && i + b == |s|
    ensures Reverse(Reverse(s)[i..j]) == s[a..b]
  {
    hide Reverse;
    var mid := s[a..b];
    assert s == s[..a] + (mid + s[b..]);
    ReverseAppend(s[..a], mid + s[b..]);
    ReverseAppend(mid, s[b..]);
    Middle(Reverse(s[b..]), Reverse(mid), Reverse(s[..a]), i, j);
    ReverseTwice(mid);
  }

  /** A teacher gets every message no teacher has hidden; a student gets those that are
      visible or part of a question, and nothing a teacher or moderation has hidden. */
  lemma {:induction false} MatchingMembers(table: seq<Message>, teacher: bool)
    ensures forall m :: m in Matching(table, teacher) <==>
      m in table && m.status != HiddenByTeacher && (teacher || m.status != HiddenByModeration)
  {
    if table == [] {
    } else {
      MatchingMembers(table[1..], teacher);
      assert table == [table[0]] + table[1..];
    }
  }

  lemma FirstIsOldest(table: seq<Message>, m: Message)
    requires DistinctIds(table) && Ascending(table) && table != [] && m in table[1..]
    ensures table[0].id != m.id && table[0].createdAt < m.createdAt
  {
    var j :| 0 <= j < |table[1..]| && table[1..][j] == m;
    assert table[j + 1] == m;
  }

  /** The filter keeps the order and the ids distinct. */
  lemma {:induction false} MatchingOrdered(table: seq<Message>, teacher: bool)
    requires DistinctIds(table) && Ascending(table)
    ensures DistinctIds(Matching(table, teacher)) && Ascending(Matching(table, teacher))
  {
    if table == [] {
    } else {
      MatchingOrdered(table[1..], teacher);
      MatchingMembers(table[1..], teacher);
      var rest := Matching(table[1..], teacher);
      forall j | 0 <= j < |rest| ensures table[0].id != rest[j].id && table[0].createdAt < rest[j].createdAt {
        FirstIsOldest(table, rest[j]);
      }
    }
  }

  lemma {:induction false} FindIs(rows: seq<Message>, i: nat)
    requires i < |rows| && DistinctIds(rows)
    ensures Find(rows, rows[i].id) == i
  {
    if i > 0 {
      assert rows[0].id != rows[i].id;
      FindIs(rows[1..], i - 1);
    }
  }

  lemma ReverseDistinct(vis: seq<Message>)
    requires DistinctIds(vis)
    ensures DistinctIds(Reverse(vis))
  {
    forall i, j | 0 <= i < j < |vis| ensures Reverse(vis)[i].id != Reverse(vis)[j].id {
      ReverseAt(vis, i, |vis| - 1 - i);
      ReverseAt(vis, j, |vis| - 1 - j);
    }
  }

  /** `i` is how many matching messages are older than the cursor. */
  ghost predicate Before(vis: seq<Message>, cursor: Option<string>, i: nat) {
    if cursor.None? then i == |vis| else i < |vis| && cursor.value == vis[i].id
  }

  /** A page is the `limit` newest messages older than the cursor, oldest first, and its
      next cursor stands exactly before the rest. */
  lemma PageIs(table: seq<Message>, teacher: bool, cursor: Option<string>, parsed: Option<int>, i: nat)
    requires DistinctIds(table) && Ascending(table)
    requires Before(Matching(table, teacher), cursor, i)
    ensures var vis, limit, page := Matching(table, teacher), ClampLimit(parsed), GetPage(table, teacher, cursor, parsed);
      if i <= limit then page == Page(vis[..i], None)
      else page.messages == vis[i - limit..i] && page.nextCursor.Some? && Before(vis, page.nextCursor, i - limit)
  {
    hide Matching, Reverse, Query, GetPage;
    if i <= ClampLimit(parsed) {
      LastPage(table, teacher, cursor, parsed, i);
    } else {
      OlderPage(table, teacher, cursor, parsed, i);
    }
  }

  lemma LastPage(table: seq<Message>, teacher: bool, cursor: Option<string>, parsed: Option<int>, i: nat)
    requires DistinctIds(table) && Ascending(table)
    requires Before(Matching(table, teacher), cursor, i) && i <= ClampLimit(parsed)
    ensures GetPage(table, teacher, cursor, parsed) == Page(Matching(table, teacher)[..i], None)
  {
    hide Matching, Reverse, Query;
    MatchingOrdered(table, teacher);
    var vis := Matching(table, teacher);
    QueryRows(table, teacher, cursor, ClampLimit(parsed) + 1, i, |vis| - i);
    ReverseSlice(vis, |vis| - i, |vis|, 0, i);
  }

  lemma OlderPage(table: seq<Message>, teacher: bool, cursor: Option<string>, parsed: Option<int>, i: nat)
    requires DistinctIds(table) && Ascending(table)
    requires Before(Matching(table, teacher), cursor, i) && i > ClampLimit(parsed)
    ensures var vis, rest := Matching(table, teacher), i - ClampLimit(parsed);
      GetPage(table, teacher, cursor, parsed) == Page(vis[rest..i], Some(vis[rest].id))
  {
    hide Matching, Reverse, Query, PageOf;
    MatchingOrdered(table, teacher);
    var vis, limit := Matching(table, teacher), ClampLimit(parsed);
    QueryRows(table, teacher, cursor, limit + 1, i, |vis| - i);
    var older, mid, newer := vis[..i - limit], vis[i - limit..i], vis[i..];
    assert vis == older + (mid + newer);
    FullPage(older, mid, newer);
  }

  lemma FullPage(older: seq<Message>, mid: seq<Message>, newer: seq<Message>)
    requires 0 < |mid| && 0 < |older|
    ensures PageOf(Reverse(older + (mid + newer))[|newer|..|newer| + |mid| + 1], |mid|) == Page(mid, Some(mid[0].id))
  {
    hide Reverse;
    FullPageBody(older, mid, newer);
    FullPageCursor(older, mid, newer);
  }

  lemma FullPageBody(older: seq<Message>, mid: seq<Message>, newer: seq<Message>)
    requires 0 < |mid| && 0 < |older|
    ensures Reverse(Reverse(older + (mid + newer))[|newer|..|newer| + |mid| + 1][..|mid|]) == mid
  {
    hide Reverse;
    ReverseAppend(older, mid + newer);
    ReverseAppend(mid, newer);
    PageAndOne(Reverse(newer), Reverse(mid), Reverse(older));
    ReverseTwice(mid);
  }

  lemma FullPageCursor(older: seq<Message>, mid: seq<Message>, newer: seq<Message>)
    requires 0 < |mid| && 0 < |older|
    ensures Reverse(older + (mid + newer))[|newer|..|newer| + |mid| + 1][|mid| - 1] == mid[0]
  {
    hide Reverse;
    ReverseAppend(older, mid + newer);
    ReverseAppend(mid, newer);
    PageAndOne(Reverse(newer), Reverse(mid), Reverse(older));
    ReverseAt(mid, |mid| - 1, 0);
  }

  lemma PageAndOne(front: seq<Message>, mid: seq<Message>, back: seq<Message>)
    requires 0 < |mid| && 0 < |back|
    ensures var got := ((front + mid) + back)[|front|..|front| + |mid| + 1];
      got[..|mid|] == mid && got[|mid| - 1] == mid[|mid| - 1]
  {
    var got := ((front + mid) + back)[|front|..|front| + |mid| + 1];
    assert got == mid + [back[0]];
  }

  lemma QueryRows(table: seq<Message>, teacher: bool, cursor: Option<string>, take: nat, i: nat, start: nat)
    requires DistinctIds(Matching(table, teacher)) && Before(Matching(table, teacher), cursor, i)
    requires start + i == |Matching(table, teacher)|
    ensures var rows := Reverse(Matching(table, teacher));
      Query(table, teacher, cursor, take) == if i <= take then rows[start..|rows|] else rows[start..start + take]
  {
    hide Matching, Reverse;
    QueryStart(Matching(table, teacher), cursor, i, start);
  }

  /** A cursor's rows start right after it. */
  lemma QueryStart(vis: seq<Message>, cursor: Option<string>, i: nat, start: nat)
    requires DistinctIds(vis) && Before(vis, cursor, i) && start + i == |vis|
    ensures cursor.Some? ==> Find(Reverse(vis), cursor.value) + 1 == start
  {
    hide Reverse;
    ReverseDistinct(vis);
    if cursor.Some? {
      ReverseAt(vis, start - 1, i);
      FindIs(Reverse(vis), start - 1);
    }
  }

  /** A limit that is missing, zero or no number asks for 50; others are cut to 1 and 100. */
  lemma LimitIs(parsed: Option<int>)
    ensures parsed in {None, Some(0)} ==> ClampLimit(parsed) == 50
    ensures parsed.Some? && parsed.value < 0 ==> ClampLimit(parsed) == 1
    ensures parsed.Some? && 1 <= parsed.value <= 100 ==> ClampLimit(parsed) == parsed.value
    ensures parsed.Some? && parsed.value > 100 ==> ClampLimit(parsed) == 100
  {
  }

  lemma {:induction false} FindMissing(rows: seq<Message>, id: string)
    requires forall i | 0 <= i < |rows| :: rows[i].id != id
    ensures Find(rows, id) == |rows|
  {
    if rows == [] {
    } else {
      FindMissing(rows[1..], id);
    }
  }

  lemma {:induction false} ReverseMembers(s: seq<Message>)
    ensures forall m :: m in Reverse(s) <==> m in s
  {
    if s == [] {
    } else {
      ReverseMembers(s[1..]);
      assert s == [s[0]] + s[1..];
    }
  }

  /** A cursor that names none of the messages shown gives an empty page and no next cursor. */
  lemma UnknownCursor(table: seq<Message>, teacher: bool, cursor: string, parsed: Option<int>)
    requires forall m | m in Matching(table, teacher) :: m.id != cursor
    ensures GetPage(table, teacher, Some(cursor), parsed) == Page([], None)
  {
    var rows := Reverse(Matching(table, teacher));
    ReverseMembers(Matching(table, teacher));
    forall i | 0 <= i < |rows| ensures rows[i].id != cursor {
      assert rows[i] in rows;
    }
    FindMissing(rows, cursor);
  }

  /** Following `nextCursor` from the start, each page put before the ones already loaded,
      whatever limit each request asks for. */
  method LoadHistory(table: seq<Message>, teacher: bool, limits: nat -> Option<int>) returns (loaded: seq<Message>, requests: nat)
    requires DistinctIds(table) && Ascending(table)
    ensures loaded == Matching(table, teacher)
    ensures 1 <= requests <= |loaded| + 1
  {
    hide Matching, Reverse, GetPage, DistinctIds, Ascending;
    ghost var vis := Matching(table, teacher);
    ghost var i: nat := |vis|;
    PageIs(table, teacher, None, limits(0), i);
    var page := GetPage(table, teacher, None, limits(0));
    loaded, requests := page.messages, 1;
    i := if i <= ClampLimit(limits(0)) then 0 else i - ClampLimit(limits(0));
    assert loaded == vis[i..];
    while page.nextCursor.Some?
      invariant i <= |vis| && loaded == vis[i..]
      invariant 1 <= requests <= |vis| - i + 1
      invariant if page.nextCursor.Some? then Before(vis, page.nextCursor, i) && 0 < i else i == 0
      decreases i, page.nextCursor.Some?
    {
      var limit := ClampLimit(limits(requests));
      PageIs(table, teacher, page.nextCursor, limits(requests), i);
      page := GetPage(table, teacher, page.nextCursor, limits(requests));
      ghost var j: nat := if i <= limit then 0 else i - limit;
      assert page.messages + vis[i..] == vis[j..];
      loaded := page.messages + loaded;
      requests := requests + 1;
      i := j;
    }
    assert vis[0..] == vis;
  }
}
