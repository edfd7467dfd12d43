/** The chat panel's message list (frontend/src/hooks/useChat.js): `upsertMessage`. */
module ChatList {
  datatype Message = Message(id: string, sessionId: string, createdAt: int, body: string)

  /** The stable `sort` by creation time. */
  function Insert(m: Message, sorted: seq<Message>): seq<Message> {
    if sorted == [] then [m]
    else if sorted[|sorted| - 1].createdAt <= m.createdAt then sorted + [m]
    else Insert(m, sorted[..|sorted| - 1]) + [sorted[|sorted| - 1]]
  }

  function Sort(ms: seq<Message>): seq<Message> {
    if ms == [] then [] else Insert(ms[|ms| - 1], Sort(ms[..|ms| - 1]))
  }

  /** `findIndex` by id, or the length. */
  function IndexOf(ms: seq<Message>, id: string): (i: nat)
    ensures i <= |ms|
    ensures i < |ms| ==> ms[i].id == id
    ensures forall j | 0 <= j < i :: ms[j].id != id
  {
    if ms == [] then 0 else if ms[0].id == id then 0 else 1 + IndexOf(ms[1..], id)
  }

  /** A message of another session is ignored (an empty session id is not checked); a known id
      is overwritten in place; a new one is appended and the list sorted. */
  function Upsert(ms: seq<Message>, m: Message, session: string): seq<Message> {
    if |m.sessionId| > 0 && m.sessionId != session then ms
    else
      var i := IndexOf(ms, m.id);
      if i == |ms| then Sort(ms + [m]) else ms[i := m]
  }

  function Delivered(deliveries: seq<Message>, session: string): seq<Message> {
    if deliveries == [] then []
    else Upsert(Delivered(deliveries[..|deliveries| - 1], session), deliveries[|deliveries| - 1], session)
  }

  predicate Ours(m: Message, session: string) { |m.sessionId| == 0 || m.sessionId == session }

  /** Each id always comes with the same message, and no two messages share a creation time. */
  ghost predicate Consistent(ms: seq<Message>) {
    && (forall a, b | a in ms && b in ms && a.id == b.id :: a == b)
    && (forall a, b | a in ms && b in ms && a.createdAt == b.createdAt :: a == b)
  }

  ghost predicate InOrder(ms: seq<Message>) {
    forall i, j | 0 <= i < j < |ms| :: ms[i].createdAt < ms[j].createdAt
  }

  lemma {:induction false} InsertFacts(m: Message, sorted: seq<Message>)
    requires InOrder(sorted) && forall a | a in sorted :: a.createdAt != m.createdAt
    ensures InOrder(Insert(m, sorted))
    ensures forall a :: a in Insert(m, sorted) <==> a in sorted || a == m
  {
    if sorted == [] {
    } else {
      var front, last := sorted[..|sorted| - 1], sorted[|sorted| - 1];
      assert sorted == front + [last];
      if last.createdAt > m.createdAt {
        InsertFacts(m, front);
        var rest := Insert(m, front);
        forall i | 0 <= i < |rest| ensures rest[i].createdAt < last.createdAt {
          assert rest[i] in rest;
        }
      } else {
        assert last in sorted;
      }
    }
  }

  lemma {:induction false} SortOfOrdered(ms: seq<Message>)
    requires InOrder(ms)
    ensures Sort(ms) == ms
  {
    if ms == [] {
    } else {
      var n := |ms| - 1;
      SortOfOrdered(ms[..n]);
      assert ms == ms[..n] + [ms[n]];
      assert n > 0 ==> ms[..n][n - 1].createdAt < ms[n].createdAt;
    }
  }

  /** After any deliveries the list holds exactly this session's messages, each once, by time. */
  lemma {:induction false} ListIs(deliveries: seq<Message>, session: string)
    requires Consistent(deliveries)
    ensures InOrder(Delivered(deliveries, session))
    ensures forall m :: m in Delivered(deliveries, session) <==> m in deliveries && Ours(m, session)
  {
    if deliveries == [] {
    } else {
      var n := |deliveries| - 1;
      var front, m := deliveries[..n], deliveries[n];
      assert deliveries == front + [m];
      ListIs(front, session);
      var before := Delivered(front, session);
      if Ours(m, session) {
        if IndexOf(before, m.id) == |before| {
          NewMessage(before, m);
        } else {
          var i := IndexOf(before, m.id);
          assert before[i] in front && before[i] == m;
          assert before[i := m] == before;
        }
      }
    }
  }

  lemma NewMessage(before: seq<Message>, m: Message)
    requires InOrder(before) && forall a | a in before :: a.createdAt != m.createdAt
    ensures Sort(before + [m]) == Insert(m, before)
    ensures InOrder(Insert(m, before))
    ensures forall a :: a in Insert(m, before) <==> a in before || a == m
  {
    SortOfOrdered(before);
    assert (before + [m])[..|before|] == before;
    InsertFacts(m, before);
  }

  /** Two lists by time with the same messages are the same list. */
  lemma {:induction false} OrderedUnique(a: seq<Message>, b: seq<Message>)
    requires InOrder(a) && InOrder(b) && forall m :: m in a <==> m in b
    ensures a == b
  {
    if a == [] {
      if b != [] {
        FirstIsFirst(b, a);
      }
    } else {
      FirstIsFirst(a, b);
      FirstIsFirst(b, a);
      TailMembers(a);
      TailMembers(b);
      OrderedUnique(a[1..], b[1..]);
      assert a == [a[0]] + a[1..] && b == [b[0]] + b[1..];
    }
  }

  lemma FirstIsFirst(a: seq<Message>, b: seq<Message>)
    requires InOrder(a) && InOrder(b) && a != [] && forall m :: m in a <==> m in b
    ensures b != [] && b[0].createdAt <= a[0].createdAt && (b[0].createdAt == a[0].createdAt ==> a[0] == b[0])
  {
    assert a[0] in b;
    var i :| 0 <= i < |b| && b[i] == a[0];
  }

  lemma TailMembers(a: seq<Message>)
    requires InOrder(a) && a != []
    ensures forall m :: m in a[1..] <==> m in a && m != a[0]
  {
    assert a == [a[0]] + a[1..];
  }

  /** Neither the order of delivery nor duplicates change the list. */
  lemma DeliveryOrderIrrelevant(a: seq<Message>, b: seq<Message>, session: string)
    requires Consistent(a) && Consistent(b) && forall m :: m in a <==> m in b
    ensures Delivered(a, session) == Delivered(b, session)
  {
    ListIs(a, session);
    ListIs(b, session);
    OrderedUnique(Delivered(a, session), Delivered(b, session));
  }

  // ----- Edited messages -----

  ghost predicate DistinctIds(ms: seq<Message>) {
    forall i, j | 0 <= i < j < |ms| :: ms[i].id != ms[j].id
  }

  /** The last delivery of each of this session's messages. */
  function Latest(deliveries: seq<Message>, session: string): map<string, Message> {
    if deliveries == [] then map[]
    else
      var n := |deliveries| - 1;
      var before := Latest(deliveries[..n], session);
      if Ours(deliveries[n], session) then before[deliveries[n].id := deliveries[n]] else before
  }

  /** The list holds exactly the values of the map, one entry for each id. */
  ghost predicate Shows(ms: seq<Message>, latest: map<string, Message>) {
    && DistinctIds(ms)
    && (forall m | m in ms :: m.id in latest && latest[m.id] == m)
    && (forall id | id in latest :: latest[id] in ms && latest[id].id == id)
  }

  lemma {:induction false} InsertKeeps(m: Message, sorted: seq<Message>)
    requires DistinctIds(sorted) && forall a | a in sorted :: a.id != m.id
    ensures DistinctIds(Insert(m, sorted))
    ensures forall a :: a in Insert(m, sorted) <==> a in sorted || a == m
  {
    var n := |sorted| - 1;
    if sorted == [] || sorted[n].createdAt <= m.createdAt {
    } else {
      InsertKeeps(m, sorted[..n]);
      assert sorted == sorted[..n] + [sorted[n]];
      var front := Insert(m, sorted[..n]);
      forall i | 0 <= i < |front| ensures front[i].id != sorted[n].id {
        assert front[i] in front;
      }
    }
  }

  /** Sorting keeps every entry, and adds none. */
  lemma {:induction false} SortKeeps(ms: seq<Message>)
    requires DistinctIds(ms)
    ensures DistinctIds(Sort(ms)) && forall a :: a in Sort(ms) <==> a in ms
  {
    if ms == [] {
    } else {
      var n := |ms| - 1;
      SortKeeps(ms[..n]);
      InsertKeeps(ms[n], Sort(ms[..n]));
      assert ms == ms[..n] + [ms[n]];
    }
  }

  /** Any deliveries whatever: every message of this session is in the list once, in the version
      delivered last. */
  lemma {:induction false} LatestWins(deliveries: seq<Message>, session: string)
    ensures Shows(Delivered(deliveries, session), Latest(deliveries, session))
  {
    if deliveries == [] {
    } else {
      var n := |deliveries| - 1;
      LatestWins(deliveries[..n], session);
      if Ours(deliveries[n], session) {
        UpsertShows(Delivered(deliveries[..n], session), Latest(deliveries[..n], session), deliveries[n], session);
      }
    }
  }

  lemma AppendShows(ms: seq<Message>, latest: map<string, Message>, m: Message)
    requires Shows(ms, latest) && forall i | 0 <= i < |ms| :: ms[i].id != m.id
    ensures Shows(ms + [m], latest[m.id := m])
  {
    forall id | id in latest && id != m.id ensures latest[id] in ms + [m] {
      assert latest[id] in ms;
    }
    assert (ms + [m])[|ms|] == m;
  }

  lemma OverwriteShows(ms: seq<Message>, latest: map<string, Message>, m: Message, i: nat)
    requires Shows(ms, latest) && i < |ms| && ms[i].id == m.id
    ensures Shows(ms[i := m], latest[m.id := m])
  {
    var ms' := ms[i := m];
    forall id | id in latest && id != m.id ensures latest[id] in ms' {
      var j :| 0 <= j < |ms| && ms[j] == latest[id];
      assert ms'[j] == latest[id];
    }
    assert ms'[i] == m;
  }

  lemma UpsertShows(ms: seq<Message>, latest: map<string, Message>, m: Message, session: string)
    requires Shows(ms, latest) && Ours(m, session)
    ensures Shows(Upsert(ms, m, session), latest[m.id := m])
  {
    hide Shows, DistinctIds, Sort;
    var i := IndexOf(ms, m.id);
    if i == |ms| {
      AppendShows(ms, latest, m);
      SortShows(ms + [m], latest[m.id := m]);
    } else {
      OverwriteShows(ms, latest, m, i);
    }
  }

  lemma SortShows(ms: seq<Message>, latest: map<string, Message>)
    requires Shows(ms, latest)
    ensures Shows(Sort(ms), latest)
  {
    SortKeeps(ms);
  }
}
