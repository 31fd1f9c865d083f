/** The per-room blacklists and their compiled matchers
    (`blacklistUser`, `unblacklistUser`, `updateBlacklistRegex`,
    `isBlacklisted`). */
module Blacklist {
  import opened Text

  /** One alternative of a room's matcher: `^entry$` for a plain entry, the
      body of an entry written `/body/i`. */
  datatype Alt = Literal(entry: string) | Pattern(body: string)

  /** An entry written `/body/i`. */
  predicate IsPatternEntry(entry: string) {
    StartsWith(entry, "/") && EndsWith(entry, "/i")
  }

  /** `entry.slice(1, -2)`: what lies between the slashes of an entry
      written `/body/i`, and empty when the entry is shorter than 3 (the
      entry "/i", whose two slashes are one). */
  function PatternBody(entry: string): (r: string)
    ensures IsPatternEntry(entry) && |entry| >= 3 ==> "/" + r + "/i" == entry
    ensures |entry| < 3 ==> r == ""
  {
    if |entry| >= 3 then entry[1..|entry| - 2] else ""
  }

  function AltOf(entry: string): (r: Alt)
    ensures r.Pattern? <==> IsPatternEntry(entry)
    ensures r.Literal? ==> r.entry == entry
  {
    if IsPatternEntry(entry) then Pattern(PatternBody(entry)) else Literal(entry)
  }

  /** A pattern entry contributes its body. */
  lemma PatternEntryBody(body: string)
    ensures AltOf("/" + body + "/i") == Pattern(body)
  {
    var e := "/" + body + "/i";
    assert e[..1] == "/";
    assert e[|e| - 2..] == "/i";
    assert e[1..|e| - 2] == body;
  }

  predicate IsMeta(c: char) {
    c in {'\\', '^', '$', '.', '|', '?', '*', '+', '(', ')', '[', ']', '{', '}'}
  }

  /** Text with no regular-expression metacharacter: as `^text$` it
      matches only itself. */
  predicate MetaFree(s: string) {
    forall i :: 0 <= i < |s| ==> !IsMeta(s[i])
  }

  /** Case-insensitive equality. */
  predicate SameId(a: string, b: string) {
    Lower(a) == Lower(b)
  }

  /** An alternative matches `id`. Pattern text is left to `re`, which
      stands for the regular-expression engine with the `i` flag. */
  predicate AltMatches(a: Alt, id: string, re: (string, string) -> bool) {
    match a
    case Literal(e) => if MetaFree(e) then SameId(e, id) else re("^" + e + "$", id)
    case Pattern(b) => re(b, id)
  }

  /** The matcher built from the alternatives; with none it is the empty
      expression, which matches everything. */
  predicate Accepts(alts: set<Alt>, id: string, re: (string, string) -> bool) {
    alts == {} || exists a :: a in alts && AltMatches(a, id, re)
  }

  /** `new RegExp(buffer.join('|'), 'i')` for a room's entries. */
  function Compile(entries: set<string>): (r: set<Alt>)
    ensures forall e :: e in entries ==> AltOf(e) in r
    ensures forall a :: a in r ==> exists e :: e in entries && AltOf(e) == a
  {
    set e | e in entries :: AltOf(e)
  }

  /** Compiling one more entry adds its alternative. */
  lemma CompileAdd(entries: set<string>, e: string)
    ensures Compile(entries + {e}) == Compile(entries) + {AltOf(e)}
  {
  }

  /** A compiled matcher accepts an id exactly when the list is empty or
      one of its entries matches the id. */
  lemma AcceptsCompiled(entries: set<string>, id: string, re: (string, string) -> bool)
    ensures Accepts(Compile(entries), id, re) <==>
      entries == {} || exists e :: e in entries && AltMatches(AltOf(e), id, re)
  {
    var c := Compile(entries);
    if entries == {} {
      assert c == {};
    } else {
      var e0 :| e0 in entries;
      assert AltOf(e0) in c;
      if exists a :: a in c && AltMatches(a, id, re) {
        var a :| a in c && AltMatches(a, id, re);
        var e :| e in entries && AltOf(e) == a;
      }
      if exists e :: e in entries && AltMatches(AltOf(e), id, re) {
        var e :| e in entries && AltMatches(AltOf(e), id, re);
        assert AltOf(e) in c;
      }
    }
  }

  /** A plain, metacharacter-free entry matches exactly the ids equal to it
      up to case. */
  lemma LiteralEntryMatches(e: string, id: string, re: (string, string) -> bool)
    requires MetaFree(e) && !IsPatternEntry(e)
    ensures Accepts(Compile({e}), id, re) <==> SameId(e, id)
  {
    assert Compile({e}) == {Literal(e)};
  }

  /** A room's matcher accepts every id a plain metacharacter-free entry of
      the room names, whatever the other entries are. */
  lemma CompiledAccepts(entries: set<string>, e: string, id: string, re: (string, string) -> bool)
    requires e in entries && MetaFree(e) && !IsPatternEntry(e) && SameId(e, id)
    ensures Accepts(Compile(entries), id, re)
  {
    assert AltMatches(AltOf(e), id, re);
  }

  /** A room whose list is empty gets a matcher that accepts every id. */
  lemma EmptyListMatchesAll(id: string, re: (string, string) -> bool)
    ensures Accepts(Compile({}), id, re)
  {
  }

  class BlacklistIndex {
    /** `settings.blacklist`: the entries of each room. */
    var lists: map<string, set<string>>
    /** `blacklistRegexes`: each room's compiled matcher. */
    var matchers: map<string, set<Alt>>

    /** Every matcher belongs to a room with a list and is compiled from
        that list's current entries. */
    predicate Valid()
      reads this
    {
      matchers.Keys <= lists.Keys && forall r :: r in matchers ==> matchers[r] == Compile(lists[r])
    }

    /** The lists as loaded from the settings, before any matcher is built. */
    constructor (loaded: map<string, set<string>>)
      ensures lists == loaded && matchers == map[]
      ensures Valid()
    {
      lists := loaded;
      matchers := map[];
    }

    /** `isBlacklisted`: false for a room with no matcher; otherwise true
        when the room's list is empty or one of its entries matches. */
    function IsBlacklisted(userid: string, roomid: string, re: (string, string) -> bool): (r: bool)
      requires Valid()
      reads this
      ensures r <==> (roomid in matchers &&
                      (lists[roomid] == {} || exists e :: e in lists[roomid] && AltMatches(AltOf(e), userid, re)))
    {
      if roomid in matchers then
        AcceptsCompiled(lists[roomid], userid, re);
        Accepts(matchers[roomid], userid, re)
      else false
    }

    /** `updateBlacklistRegex`: rebuild one room's matcher from its list. */
    method UpdateBlacklistRegex(roomid: string)
      requires roomid in lists
      modifies this
      ensures lists == old(lists)
      ensures matchers == old(matchers)[roomid := Compile(lists[roomid])]
    {
      var entries := lists[roomid];
      var buffer: set<Alt> := {};
      var todo := entries;
      while todo != {}
        invariant lists == old(lists) && matchers == old(matchers)
        invariant todo <= entries
        invariant buffer == Compile(entries - todo)
        decreases todo
      {
        var entry :| entry in todo;
        ghost var done := entries - todo;
        if IsPatternEntry(entry) {
          buffer := buffer + {Pattern(PatternBody(entry))};
        } else {
          buffer := buffer + {Literal(entry)};
        }
        assert buffer == Compile(done) + {AltOf(entry)};
        todo := todo - {entry};
        CompileAdd(done, entry);
        assert entries - todo == done + {entry};
      }
      assert entries - todo == entries;
      matchers := matchers[roomid := buffer];
    }

    /** The rebuild of every room's matcher after logging in. */
    method RebuildAll()
      modifies this
      ensures lists == old(lists)
      ensures matchers.Keys == lists.Keys + old(matchers).Keys
      ensures forall r :: r in lists ==> matchers[r] == Compile(lists[r])
      ensures old(Valid()) ==> Valid() && matchers.Keys == lists.Keys
    {
      var todo := lists.Keys;
      while todo != {}
        invariant lists == old(lists) && todo <= lists.Keys
        invariant matchers.Keys == (lists.Keys - todo) + old(matchers).Keys
        invariant forall r :: r in lists && r !in todo ==> matchers[r] == Compile(lists[r])
        invariant forall r :: r in matchers && r in todo ==> matchers[r] == old(matchers)[r]
        decreases todo
      {
        var r :| r in todo;
        UpdateBlacklistRegex(r);
        todo := todo - {r};
      }
    }

    /** `blacklistUser`: false, and nothing changed, when the entry exists;
        otherwise the entry is added (the room's list created if need be)
        and the room's matcher rebuilt. */
    method BlacklistUser(userid: string, roomid: string) returns (added: bool)
      requires Valid()
      modifies this
      ensures Valid()
      ensures added <==> !(roomid in old(lists) && userid in old(lists)[roomid])
      ensures !added ==> lists == old(lists) && matchers == old(matchers)
      ensures added ==>
        lists == old(lists)[roomid := (if roomid in old(lists) then old(lists)[roomid] else {}) + {userid}]
      ensures added ==> matchers == old(matchers)[roomid := Compile(lists[roomid])]
      ensures added ==> roomid in matchers && AltOf(userid) in matchers[roomid]
    {
      if roomid in lists {
        if userid in lists[roomid] {
          return false;
        }
      } else {
        lists := lists[roomid := {}];
      }
      lists := lists[roomid := lists[roomid] + {userid}];
      UpdateBlacklistRegex(roomid);
      return true;
    }

    /** `unblacklistUser`: false when the entry is absent; otherwise it is
        removed, and a room left with no entry loses its list and its
        matcher, while any other room gets its matcher rebuilt. */
    method UnblacklistUser(userid: string, roomid: string) returns (removed: bool)
      requires Valid()
      modifies this
      ensures Valid()
      ensures removed <==> roomid in old(lists) && userid in old(lists)[roomid]
      ensures !removed ==> lists == old(lists) && matchers == old(matchers)
      ensures removed && old(lists)[roomid] == {userid} ==>
        lists == old(lists) - {roomid} && matchers == old(matchers) - {roomid}
      ensures removed && old(lists)[roomid] != {userid} ==>
        lists == old(lists)[roomid := old(lists)[roomid] - {userid}]
        && matchers == old(matchers)[roomid := Compile(lists[roomid])]
    {
      if !(roomid in lists && userid in lists[roomid]) {
        return false;
      }
      lists := lists[roomid := lists[roomid] - {userid}];
      if lists[roomid] == {} {
        lists := lists - {roomid};
        matchers := matchers - {roomid};
      } else {
        UpdateBlacklistRegex(roomid);
      }
      return true;
    }
  }
}
