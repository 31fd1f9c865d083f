/** The decay sweep of `cleanChatData`: old message times fall out of every
    record, points wear off, and records that had no times are dropped. */
module Decay {
  import opened Records

  /** How long a message time is kept, in milliseconds. */
  const Horizon: int := 5000

  /** The times less than `Horizon` before `now`, in their order. */
  function Recent(times: seq<int>, now: int): (r: seq<int>)
    ensures |r| <= |times|
  {
    if times == [] then []
    else
      var last := times[|times| - 1];
      Recent(times[..|times| - 1], now) + (if now - last < Horizon then [last] else [])
  }

  /** The recent times are exactly the old ones within the horizon, each
      as often as before. */
  lemma {:induction false} RecentCounts(times: seq<int>, now: int)
    ensures forall t :: multiset(Recent(times, now))[t] == (if now - t < Horizon then multiset(times)[t] else 0)
  {
    if times != [] {
      var init := times[..|times| - 1];
      var last := times[|times| - 1];
      RecentCounts(init, now);
      assert times == init + [last];
    }
  }

  /** The filtering loop of the sweep. */
  method FilterRecent(times: seq<int>, now: int) returns (newTimes: seq<int>)
    ensures newTimes == Recent(times, now)
  {
    newTimes := [];
    var i := 0;
    while i < |times|
      invariant 0 <= i <= |times|
      invariant newTimes == Recent(times[..i], now)
    {
      assert times[..i + 1][..i] == times[..i];
      if now - times[i] < Horizon {
        newTimes := newTimes + [times[i]];
      }
      i := i + 1;
    }
    assert times[..|times|] == times;
  }

  predicate Sorted(s: seq<int>) {
    forall i, j :: 0 <= i < j < |s| ==> s[i] <= s[j]
  }

  /** `x` put in its place in sorted `s`. */
  function Insert(x: int, s: seq<int>): (r: seq<int>)
    ensures |r| == |s| + 1
  {
    if s == [] then [x]
    else if x <= s[0] then [x] + s
    else [s[0]] + Insert(x, s[1..])
  }

  lemma {:induction false} InsertCount(x: int, s: seq<int>)
    ensures multiset(Insert(x, s)) == multiset(s) + multiset{x}
  {
    if s != [] {
      assert s == [s[0]] + s[1..];
      if x > s[0] {
        InsertCount(x, s[1..]);
      }
    }
  }

  lemma {:induction false} InsertMembers(x: int, s: seq<int>)
    ensures forall y :: y in Insert(x, s) <==> y == x || y in s
  {
    if s != [] && x > s[0] {
      InsertMembers(x, s[1..]);
      assert s == [s[0]] + s[1..];
    }
  }

  lemma {:induction false} InsertSorted(x: int, s: seq<int>)
    requires Sorted(s)
    ensures Sorted(Insert(x, s))
  {
    if s != [] && x > s[0] {
      var rest := Insert(x, s[1..]);
      InsertSorted(x, s[1..]);
      InsertMembers(x, s[1..]);
      assert forall y :: y in s[1..] ==> s[0] <= y;
      var r := [s[0]] + rest;
      forall i, j | 0 <= i < j < |r|
        ensures r[i] <= r[j]
      {
        if i == 0 {
          assert r[j] == rest[j - 1];
          assert rest[j - 1] in rest;
        } else {
          assert r[i] == rest[i - 1] && r[j] == rest[j - 1];
        }
      }
    }
  }

  lemma InsertSpec(x: int, s: seq<int>)
    requires Sorted(s)
    ensures Sorted(Insert(x, s)) && multiset(Insert(x, s)) == multiset(s) + multiset{x}
  {
    InsertCount(x, s);
    InsertSorted(x, s);
  }

  /** `sort((a, b) => a - b)`: the same times in ascending order. */
  function SortAscending(s: seq<int>): (r: seq<int>)
    ensures |r| == |s|
  {
    if s == [] then [] else Insert(s[0], SortAscending(s[1..]))
  }

  lemma {:induction false} SortAscendingSpec(s: seq<int>)
    ensures Sorted(SortAscending(s)) && multiset(SortAscending(s)) == multiset(s)
  {
    if s != [] {
      SortAscendingSpec(s[1..]);
      InsertSpec(s[0], SortAscending(s[1..]));
      assert s == [s[0]] + s[1..];
    }
  }

  /** One record after the sweep: recent times sorted, and points in 1..3
      reduced by one. */
  function CleanRecord(rd: RoomData, now: int): (r: RoomData)
    ensures r.points <= rd.points && r.lastAction == rd.lastAction
    ensures |r.times| <= |rd.times|
  {
    var points := if rd.points > 0 && rd.points < 4 then rd.points - 1 else rd.points;
    RoomData(SortAscending(Recent(rd.times, now)), points, rd.lastAction)
  }

  /** What the sweep promises of a record it keeps. */
  lemma CleanRecordSpec(rd: RoomData, now: int)
    ensures var r := CleanRecord(rd, now);
      && Sorted(r.times)
      && (forall t :: multiset(r.times)[t] == if now - t < Horizon then multiset(rd.times)[t] else 0)
      && (1 <= rd.points <= 3 ==> r.points == rd.points - 1)
      && (rd.points == 0 || rd.points >= 4 ==> r.points == rd.points)
      && r.lastAction == rd.lastAction
  {
    RecentCounts(rd.times, now);
    SortAscendingSpec(Recent(rd.times, now));
  }

  /** The cleaning of one kept record, as the sweep's loop body does it. */
  method CleanOne(rd: RoomData, now: int) returns (r: RoomData)
    ensures r == CleanRecord(rd, now)
  {
    var newTimes := FilterRecent(rd.times, now);
    newTimes := SortAscending(newTimes);
    var points := rd.points;
    if points > 0 && points < 4 {
      points := points - 1;
    }
    r := RoomData(newTimes, points, rd.lastAction);
  }

  /** A user's room records after the sweep: the ones without times are
      gone, the others cleaned. */
  function CleanRooms(rooms: map<string, RoomData>, now: int): (r: map<string, RoomData>)
    ensures forall room :: room in r <==> room in rooms && rooms[room].times != []
    ensures forall room :: room in r ==> r[room] == CleanRecord(rooms[room], now)
  {
    map room | room in rooms && rooms[room].times != [] :: CleanRecord(rooms[room], now)
  }

  /** The sweep over one user's room records, deleting and rewriting them
      one at a time. */
  method SweepRooms(rooms: map<string, RoomData>, now: int) returns (out: map<string, RoomData>)
    ensures out == CleanRooms(rooms, now)
  {
    out := rooms;
    var todo := rooms.Keys;
    while todo != {}
      invariant todo <= rooms.Keys && out.Keys <= rooms.Keys
      invariant forall room :: room in todo ==> room in out && out[room] == rooms[room]
      invariant forall room :: room in rooms && room !in todo ==>
        (room in out <==> rooms[room].times != [])
      invariant forall room :: room in out && room !in todo ==> out[room] == CleanRecord(rooms[room], now)
      decreases todo
    {
      var room :| room in todo;
      var rd := out[room];
      if rd.times == [] {
        out := out - {room};
      } else {
        var cleaned := CleanOne(rd, now);
        out := out[room := cleaned];
      }
      todo := todo - {room};
    }
    assert out.Keys == CleanRooms(rooms, now).Keys;
  }
}
