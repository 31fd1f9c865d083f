/** The message router of parser.js: a transport string is cut into lines
    that carry their room, each line is cut into `|`-separated fields whose
    offsets depend on the type tag in field 1, and the chat-like tags are
    turned into the side effects the bot performs. The room and user
    directories (`Rooms`, `Users`) are answered by the caller: their
    answers come in as parameters. */
module Router {
  import opened Options
  import opened Text

  /** One protocol line with the room it belongs to (`null` in the source
      becomes `None`). */
  datatype Routed = Routed(line: string, room: Option<string>)

  /** What `splitMessage` does with one string of a frame. */
  datatype Bundle =
    | Empty                                              // the empty string: nothing at all
    | Tournament                                         // a tournament update: discarded
    | Init(roomId: string, roster: string, addFlag: bool) // room initialisation: roster handed to the directory
    | InitFault(roomId: string)                          // an init bundle too short: `spl[2]` is undefined
    | Lines(lines: seq<Routed>)                          // lines dispatched one by one

  function Texts(rs: seq<Routed>): (ts: seq<string>)
    ensures |ts| == |rs| && forall i :: 0 <= i < |rs| ==> ts[i] == rs[i].line
  {
    seq(|rs|, i requires 0 <= i < |rs| => rs[i].line)
  }

  function InRoom(lines: seq<string>, room: Option<string>): (rs: seq<Routed>)
    ensures |rs| == |lines|
    ensures forall i :: 0 <= i < |rs| ==> rs[i] == Routed(lines[i], room)
  {
    seq(|lines|, i requires 0 <= i < |lines| => Routed(lines[i], room))
  }

  /** `splitMessage`. `known` is the set of rooms `Rooms.get` finds and
      `configRooms` is `Config.rooms`. */
  function SplitMessage(message: string, known: set<string>, configRooms: seq<string>): (r: Bundle)
    ensures r.Empty? <==> message == ""
    ensures r.Lines? ==> r.lines != []
  {
    if message == "" then Empty
    else if !Contains(message, "\n") then Lines([Routed(message, None)])
    else
      var spl := SplitOn(message, "\n");
      if FirstIs(spl[0], '>') then
        if Substr(spl[1], 1, 10) == "tournament" then Tournament
        else
          var roomId := From(spl[0], 1);
          var rest := spl[1..];
          if Substr(rest[0], 1, 4) == "init" then
            if |rest| > 2 then Init(roomId, From(rest[2], 7), IndexIn(configRooms, roomId) == Some(1))
            else InitFault(roomId)
          else Lines(InRoom(rest, if roomId in known then Some(roomId) else None))
      else Lines(InRoom(spl, None))
  }

  /** A string without a line break is one line with no room. */
  lemma SplitSingleLine(message: string, known: set<string>, configRooms: seq<string>)
    requires message != "" && '\n' !in message
    ensures SplitMessage(message, known, configRooms) == Lines([Routed(message, None)])
  {
    ContainsChar(message, '\n');
  }

  /** Without a room header every line is dispatched with no room, and the
      lines put back together are the whole string. */
  lemma SplitHeaderless(message: string, known: set<string>, configRooms: seq<string>)
    requires '\n' in message
    requires !FirstIs(SplitOn(message, "\n")[0], '>')
    ensures SplitMessage(message, known, configRooms).Lines?
    ensures var rs := SplitMessage(message, known, configRooms).lines;
      Join(Texts(rs), "\n") == message && forall i :: 0 <= i < |rs| ==> rs[i].room == None
  {
    ContainsChar(message, '\n');
    var rs := SplitMessage(message, known, configRooms).lines;
    assert Texts(rs) == SplitOn(message, "\n");
    JoinSplit(message, "\n");
  }

  /** A `>room` header gives its room to every following line; the header
      itself is not dispatched, and the dispatched lines put back together
      are the rest of the string. */
  lemma SplitWithHeader(header: string, body: string, known: set<string>, configRooms: seq<string>)
    requires FirstIs(header, '>') && '\n' !in header
    requires Substr(SplitOn(body, "\n")[0], 1, 10) != "tournament"
    requires Substr(SplitOn(body, "\n")[0], 1, 4) != "init"
    ensures SplitMessage(header + "\n" + body, known, configRooms).Lines?
    ensures var rs := SplitMessage(header + "\n" + body, known, configRooms).lines;
      var roomId := header[1..];
      Join(Texts(rs), "\n") == body
      && forall i :: 0 <= i < |rs| ==> rs[i].room == (if roomId in known then Some(roomId) else None)
  {
    var message := header + "\n" + body;
    ContainsChar(message, '\n');
    assert message[|header|] == '\n';
    SplitOnCons(header, body, "\n");
    var spl := SplitOn(message, "\n");
    assert spl[1..] == SplitOn(body, "\n");
    var rs := SplitMessage(message, known, configRooms).lines;
    assert Texts(rs) == SplitOn(body, "\n");
    JoinSplit(body, "\n");
  }

  /** A header whose next line is a tournament update dispatches nothing. */
  lemma SplitTournament(header: string, body: string, known: set<string>, configRooms: seq<string>)
    requires FirstIs(header, '>') && '\n' !in header
    requires Substr(SplitOn(body, "\n")[0], 1, 10) == "tournament"
    ensures SplitMessage(header + "\n" + body, known, configRooms) == Tournament
  {
    var message := header + "\n" + body;
    ContainsChar(message, '\n');
    assert message[|header|] == '\n';
    SplitOnCons(header, body, "\n");
  }

  /** A protocol line after the tag switch of `message`: the fields each
      tag reads, at the offsets the source reads them. A missing field is
      `None` (`undefined` in the source). */
  datatype Event =
    | Challstr(keyId: Option<string>, challenge: Option<string>)
    | UpdateUser(name: Option<string>, named: Option<string>)
    | Chat(stamp: Option<string>, username: Option<string>, text: string)
    | Pm(username: Option<string>, text: string)
    | Rename(username: Option<string>, oldId: Option<string>)
    | Arrive(tag: string, username: Option<string>)
    | Depart(tag: string, username: Option<string>)
    | Popup(title: Option<string>, body: string)
    | Other(fields: seq<string>)

  /** `spl[i]` */
  function Field(fs: seq<string>, i: nat): (r: Option<string>)
    ensures r.Some? <==> i < |fs|
  {
    if i < |fs| then Some(fs[i]) else None
  }

  /** `spl.slice(i).join('|')` */
  function Rest(fs: seq<string>, i: nat): string {
    Join(if i <= |fs| then fs[i..] else [], "|")
  }

  function ParseLine(line: string): (r: Event)
    ensures r.Other? ==> Join(r.fields, "|") == line
  {
    JoinSplit(line, "|");
    ParseFields(SplitOn(line, "|"))
  }

  function ParseFields(fs: seq<string>): Event {
    var tag := Field(fs, 1);
    if tag == Some("challstr") then Challstr(Field(fs, 2), Field(fs, 3))
    else if tag == Some("updateuser") then UpdateUser(Field(fs, 2), Field(fs, 3))
    else if tag == Some("c") then Chat(None, Field(fs, 2), Rest(fs, 3))
    else if tag == Some("c:") then Chat(Field(fs, 2), Field(fs, 3), Rest(fs, 4))
    else if tag == Some("pm") then Pm(Field(fs, 2), Rest(fs, 4))
    else if tag == Some("N") then Rename(Field(fs, 2), Field(fs, 3))
    else if tag == Some("J") || tag == Some("j") then Arrive(tag.value, Field(fs, 2))
    else if tag == Some("l") || tag == Some("L") then Depart(tag.value, Field(fs, 2))
    else if tag == Some("popup") then Popup(Field(fs, 2), Rest(fs, 3))
    else Other(fs)
  }

  /** The lines of each tag, bracketed the way `SplitOnCons` takes them
      apart. */
  lemma ChatLineShape(user: string, text: string)
    ensures "|c|" + user + "|" + text == "" + "|" + ("c" + "|" + (user + "|" + text))
  {
  }

  lemma StampedLineShape(stamp: string, user: string, text: string)
    ensures "|c:|" + stamp + "|" + user + "|" + text
         == "" + "|" + ("c:" + "|" + (stamp + "|" + (user + "|" + text)))
  {
  }

  lemma PmLineShape(from: string, to: string, text: string)
    ensures "|pm|" + from + "|" + to + "|" + text
         == "" + "|" + ("pm" + "|" + (from + "|" + (to + "|" + text)))
  {
  }

  /** The fields of a plain chat line. */
  lemma ChatLineSplit(user: string, text: string)
    requires '|' !in user
    ensures SplitOn("|c|" + user + "|" + text, "|") == [""] + (["c"] + ([user] + SplitOn(text, "|")))
  {
    ChatLineShape(user, text);
    var t1 := user + "|" + text;
    var t2 := "c" + "|" + t1;
    SplitOnCons(user, text, "|");
    SplitOnCons("c", t1, "|");
    SplitOnCons("", t2, "|");
  }

  /** A plain chat line: the name is field 2 and the text is everything
      after it, `|` characters included. */
  lemma ChatLineFields(user: string, text: string)
    requires '|' !in user
    ensures ParseLine("|c|" + user + "|" + text) == Chat(None, Some(user), text)
  {
    ChatLineSplit(user, text);
    var fs := [""] + (["c"] + ([user] + SplitOn(text, "|")));
    assert fs[1] == "c" && fs[2] == user;
    assert fs[3..] == SplitOn(text, "|");
    JoinSplit(text, "|");
  }

  /** The fields of a chat line with a time stamp. */
  lemma StampedChatLineSplit(stamp: string, user: string, text: string)
    requires '|' !in stamp && '|' !in user
    ensures SplitOn("|c:|" + stamp + "|" + user + "|" + text, "|") == [""] + (["c:"] + ([stamp] + ([user] + SplitOn(text, "|"))))
  {
    StampedLineShape(stamp, user, text);
    var t1 := user + "|" + text;
    var t2 := stamp + "|" + t1;
    var t3 := "c:" + "|" + t2;
    SplitOnCons(user, text, "|");
    SplitOnCons(stamp, t1, "|");
    SplitOnCons("c:", t2, "|");
    SplitOnCons("", t3, "|");
  }

  /** A chat line with a time stamp: every offset moves up by one. */
  lemma StampedChatLineFields(stamp: string, user: string, text: string)
    requires '|' !in stamp && '|' !in user
    ensures ParseLine("|c:|" + stamp + "|" + user + "|" + text) == Chat(Some(stamp), Some(user), text)
  {
    StampedChatLineSplit(stamp, user, text);
    var fs := [""] + (["c:"] + ([stamp] + ([user] + SplitOn(text, "|"))));
    assert fs[1] == "c:" && fs[2] == stamp && fs[3] == user;
    assert fs[4..] == SplitOn(text, "|");
    JoinSplit(text, "|");
  }

  /** The fields of a private message. */
  lemma PmLineSplit(from: string, to: string, text: string)
    requires '|' !in from && '|' !in to
    ensures SplitOn("|pm|" + from + "|" + to + "|" + text, "|") == [""] + (["pm"] + ([from] + ([to] + SplitOn(text, "|"))))
  {
    PmLineShape(from, to, text);
    var t1 := to + "|" + text;
    var t2 := from + "|" + t1;
    var t3 := "pm" + "|" + t2;
    SplitOnCons(to, text, "|");
    SplitOnCons(from, t1, "|");
    SplitOnCons("pm", t2, "|");
    SplitOnCons("", t3, "|");
  }

  /** A private message: sender in field 2, recipient in field 3, text
      from field 4 on, `|` characters included. */
  lemma PmLineFields(from: string, to: string, text: string)
    requires '|' !in from && '|' !in to
    ensures ParseLine("|pm|" + from + "|" + to + "|" + text) == Pm(Some(from), text)
  {
    PmLineSplit(from, to, text);
    var fs := [""] + (["pm"] + ([from] + ([to] + SplitOn(text, "|"))));
    assert fs[1] == "pm" && fs[2] == from;
    assert fs[4..] == SplitOn(text, "|");
    JoinSplit(text, "|");
  }

  /** What a handler asks the rest of the bot to do. */
  datatype Effect =
    | Say(room: string, text: string)                      // `this.say(room, text)`
    | Send(text: string)                                   // `send(text)`
    | Score(userId: string, roomId: string, text: string)  // `processChatData`
    | Handle(text: string, userId: string, context: string) // `chatMessage`
    | Seen(userId: string, kind: string, detail: string)   // `updateSeen`
    | DeliverMail(userId: string, roomId: string)          // pending mail on join

  /** A handler either stops early (`return false`), fails on an undefined
      value (`room.id` with no room, a method of `undefined`), or acts. */
  datatype Handled = Ignored | Fault | Effects(effects: seq<Effect>)

  function Roomban(roomId: string, userId: string): Effect {
    Say(roomId, "/roomban " + userId + ", Blacklisted user")
  }

  /** The `c` and `c:` cases. `user` is what `Users.get` resolved the name
      to, `isSelf` says it is the bot, `blacklisted` is the blacklist's
      answer and `isStaff` is `user.hasRank(room.id, '%')`. */
  function ChatEffects(text: string, room: Option<string>, user: Option<string>,
                       isSelf: bool, blacklisted: bool, isStaff: bool): (r: Handled)
    ensures r.Ignored? <==> user.None? || isSelf
    ensures r.Fault? <==> user.Some? && !isSelf && room.None?
    ensures r.Effects? ==>
              |r.effects| >= 1 && r.effects[|r.effects| - 1] == Handle(text, user.value, room.value)
    ensures r.Effects? ==> (Score(user.value, room.value, text) in r.effects <==> !isStaff)
    ensures r.Effects? ==> (Roomban(room.value, user.value) in r.effects <==> blacklisted)
    ensures r.Effects? && blacklisted ==> r.effects[0] == Roomban(room.value, user.value)
    ensures r.Effects? ==> |r.effects| == 1 + (if blacklisted then 1 else 0) + (if isStaff then 0 else 1)
  {
    if user.None? || isSelf then Ignored
    else if room.None? then Fault
    else
      Effects((if blacklisted then [Roomban(room.value, user.value)] else [])
        + (if !isStaff then [Score(user.value, room.value, text)] else [])
        + [Handle(text, user.value, room.value)])
  }

  /** The `pm` case. `userId` is the id of the sender as found or added by
      the user directory, `senderRanked` is `user.hasRank(group, '%')` and
      `serverId` is `Config.serverid`. */
  function PmEffects(username: Option<string>, text: string, userId: string, isSelf: bool,
                     senderRanked: bool, serverId: string): (r: Handled)
    ensures r.Fault? <==> username.None?
    ensures r.Ignored? <==> username.Some? && isSelf
    ensures r.Effects? ==> |r.effects| == 1
    ensures r.Effects? && r.effects[0].Send? ==>
      senderRanked && StartsWith(text, "/invite ") && r.effects[0].text == "|/join " + text[8..]
      && (serverId == "showdown" ==> ToId(text[8..]) != "lobby")
    ensures r.Effects? && !r.effects[0].Send? ==> r.effects[0] == Handle(text, userId, userId)
    ensures r.Effects? ==> (r.effects[0].Send? <==>
      senderRanked && StartsWith(text, "/invite ") && !(serverId == "showdown" && ToId(text[8..]) == "lobby"))
  {
    if username.None? then Fault
    else if isSelf then Ignored
    else if StartsWith(text, "/invite ") && senderRanked
            && !(ToId(From(text, 8)) == "lobby" && serverId == "showdown") then
      Effects([Send("|/join " + From(text, 8))])
    else Effects([Handle(text, userId, userId)])
  }

  /** The `N` case. `newId` is the id the room directory gives the renamed
      user; a missing old id reaches `updateSeen` as the key "undefined". */
  function RenameEffects(room: Option<string>, oldId: Option<string>, newId: string,
                         blacklisted: bool): (r: Handled)
    ensures r.Fault? <==> room.None?
    ensures !r.Ignored?
    ensures r.Effects? ==> |r.effects| == (if blacklisted then 2 else 1)
    ensures r.Effects? ==>
              |r.effects| >= 1 && r.effects[|r.effects| - 1] == Seen(if oldId.Some? then oldId.value else "undefined", "N", newId)
    ensures r.Effects? ==> (blacklisted <==> |r.effects| == 2 && r.effects[0] == Roomban(room.value, newId))
  {
    if room.None? then Fault
    else
      var key := if oldId.Some? then oldId.value else "undefined";
      Effects((if blacklisted then [Roomban(room.value, newId)] else []) + [Seen(key, "N", newId)])
  }

  /** The `J`/`j` case. `userId` is the id `room.onJoin` returns and
      `hasMail` says that mail is waiting for it. */
  function JoinEffects(tag: string, room: Option<string>, username: Option<string>, userId: string,
                       isSelf: bool, blacklisted: bool, hasMail: bool): (r: Handled)
    ensures r.Fault? <==> room.None? || username.None?
    ensures r.Ignored? <==> room.Some? && username.Some? && isSelf
    ensures r.Effects? ==> Seen(userId, tag, room.value) in r.effects
    ensures r.Effects? ==> (Roomban(room.value, userId) in r.effects <==> blacklisted)
    ensures r.Effects? ==> (DeliverMail(userId, room.value) in r.effects <==> hasMail)
    ensures r.Effects? ==>
      var k := if blacklisted then 1 else 0;
      && |r.effects| == k + 1 + (if hasMail then 1 else 0)
      && (blacklisted ==> r.effects[0] == Roomban(room.value, userId))
      && r.effects[k] == Seen(userId, tag, room.value)
      && (hasMail ==> r.effects[k + 1] == DeliverMail(userId, room.value))
  {
    if room.None? || username.None? then Fault
    else if isSelf then Ignored
    else
      Effects((if blacklisted then [Roomban(room.value, userId)] else [])
        + [Seen(userId, tag, room.value)]
        + (if hasMail then [DeliverMail(userId, room.value)] else []))
  }

  /** The `L`/`l` case. `leaver` is what `room.onLeave` returns: the user's
      id and whether it is the bot, or nothing for an unknown user, whose
      id is then derived from the raw name. */
  function LeaveEffects(tag: string, room: Option<string>, username: Option<string>,
                        leaver: Option<(string, bool)>): (r: Handled)
    ensures r.Effects? ==>
              room.Some? && |r.effects| == 1 && r.effects[0].Seen? && r.effects[0].detail == room.value
    ensures r.Effects? && leaver.Some? ==> r.effects[0].userId == leaver.value.0
    ensures r.Effects? && leaver.None? ==> username.Some? && r.effects[0].userId == ToId(username.value)
    ensures r.Ignored? <==> room.Some? && leaver.Some? && leaver.value.1
    ensures r.Fault? <==> room.None? || (leaver.None? && username.None?)
  {
    if room.None? then Fault
    else match leaver
      case Some((id, isSelf)) => if isSelf then Ignored else Effects([Seen(id, tag, room.value)])
      case None => if username.None? then Fault else Effects([Seen(ToId(username.value), tag, room.value)])
  }

  /** The command prefix and first-space split of `chatMessage`: the text
      is trimmed, must start with the prefix, and is cut at its first space
      into the command and the trimmed argument. */
  function ParseCommand(message: string, prefix: string): (r: Option<(string, string)>)
    ensures r.None? <==> !StartsWith(Trim(message), prefix)
    ensures r.Some? ==> ' ' !in r.value.0
  {
    var m := Trim(message);
    if Substr(m, 0, |prefix|) != prefix then None
    else
      var rest := From(m, |prefix|);
      match IndexOf(rest, " ")
      case None =>
        ContainsChar(rest, ' ');
        Some((rest, ""))
      case Some(i) =>
        IndexOfSpec(rest, " ");
        assert ' ' !in rest[..i] by {
          forall j | 0 <= j < i ensures rest[j] != ' ' {
            assert rest[j..j + 1][0] == rest[j];
            assert !OccursAt(rest, " ", j);
          }
        }
        Some((rest[..i], Trim(rest[i + 1..])))
  }

  lemma CommandShape(prefix: string, cmd: string, arg: string)
    ensures prefix + cmd + " " + arg == prefix + (cmd + " " + arg)
  {
  }

  /** A command written as prefix, name, one space and an argument is read
      back as that name and that argument. */
  lemma CommandRoundTrip(prefix: string, cmd: string, arg: string)
    requires |prefix| > 0 && !IsSpace(prefix[0]) && ' ' !in cmd
    requires |arg| > 0 && !IsSpace(arg[0]) && !IsSpace(arg[|arg| - 1])
    ensures ParseCommand(prefix + cmd + " " + arg, prefix) == Some((cmd, arg))
  {
    var rest := cmd + " " + arg;
    var m := prefix + rest;
    CommandShape(prefix, cmd, arg);
    assert m[0] == prefix[0] && m[|m| - 1] == arg[|arg| - 1];
    TrimKeeps(m);
    TrimKeeps(arg);
    assert m[..|prefix|] == prefix && m[|prefix|..] == rest;
    IndexOfCons(cmd, arg, " ");
    assert rest[..|cmd|] == cmd;
    assert rest[|cmd| + 1..] == arg;
  }

  /** The ranks of the room-authority popup, by the id of their heading. */
  const Ranks: map<string, char> :=
    map["roomowners" := '#', "moderators" := '@', "drivers" := '%', "voices" := '+']

  /** The scan state of the popup scrape: the rank of the current heading
      (undefined before the first) and the table so far. */
  datatype AuthScan = AuthScan(rank: Option<char>, auth: map<string, Option<char>>)

  /** The id of a chunk's text before its first `(`. */
  function HeadingOf(chunk: string): string {
    ToId(SplitOn(chunk, "(")[0])
  }

  /** A chunk that lists names rather than naming a rank. */
  predicate IsListing(chunk: string) {
    HeadingOf(chunk) != "" && HeadingOf(chunk) !in Ranks
  }

  function Assign(auth: map<string, Option<char>>, names: seq<string>, rank: Option<char>):
    (r: map<string, Option<char>>)
    ensures r.Keys == auth.Keys + set n | n in names
    ensures forall n :: n in names ==> r[n] == rank
    ensures forall n :: n in auth && n !in names ==> r[n] == auth[n]
    decreases |names|
  {
    if names == [] then auth else Assign(auth[names[0] := rank], names[1..], rank)
  }

  function ScanChunk(st: AuthScan, chunk: string): AuthScan {
    var id := HeadingOf(chunk);
    if id == "" then st
    else if id in Ranks then st.(rank := Some(Ranks[id]))
    else st.(auth := Assign(st.auth, SplitOn(chunk, ", "), st.rank))
  }

  function ScanAll(st: AuthScan, chunks: seq<string>): AuthScan
    decreases |chunks|
  {
    if chunks == [] then st else ScanAll(ScanChunk(st, chunks[0]), chunks[1..])
  }

  lemma {:induction false} ScanAllAppend(st: AuthScan, a: seq<string>, b: seq<string>)
    ensures ScanAll(st, a + b) == ScanAll(ScanAll(st, a), b)
    decreases |a|
  {
    if a != [] {
      assert (a + b)[0] == a[0];
      assert (a + b)[1..] == a[1..] + b;
      ScanAllAppend(ScanChunk(st, a[0]), a[1..], b);
    } else {
      assert a + b == b;
    }
  }

  /** One chunk adds exactly the names it lists. */
  lemma ScanChunkNames(st: AuthScan, chunk: string, name: string)
    ensures name in ScanChunk(st, chunk).auth <==>
      name in st.auth || (IsListing(chunk) && name in SplitOn(chunk, ", "))
  {
  }

  /** A name is in the scraped table exactly when some listing chunk of the
      popup names it. */
  lemma {:induction false} ScanNames(st: AuthScan, chunks: seq<string>, name: string)
    ensures name in ScanAll(st, chunks).auth <==>
      name in st.auth || exists i :: 0 <= i < |chunks| && IsListing(chunks[i]) && name in SplitOn(chunks[i], ", ")
    decreases |chunks|
  {
    if chunks != [] {
      ScanChunkNames(st, chunks[0], name);
      ScanNames(ScanChunk(st, chunks[0]), chunks[1..], name);
      if exists i :: 0 <= i < |chunks[1..]| && IsListing(chunks[1..][i]) && name in SplitOn(chunks[1..][i], ", ") {
        var i :| 0 <= i < |chunks[1..]| && IsListing(chunks[1..][i]) && name in SplitOn(chunks[1..][i], ", ");
        assert chunks[i + 1] == chunks[1..][i];
      }
      if exists i :: 0 <= i < |chunks| && IsListing(chunks[i]) && name in SplitOn(chunks[i], ", ") {
        var i :| 0 <= i < |chunks| && IsListing(chunks[i]) && name in SplitOn(chunks[i], ", ");
        if i > 0 { assert chunks[1..][i - 1] == chunks[i]; }
      }
    }
  }

  /** The names of a listing chunk that directly follows a rank heading get
      that heading's rank. */
  lemma HeadingRanksNextListing(st: AuthScan, before: seq<string>, heading: string, listing: string, name: string)
    requires HeadingOf(heading) in Ranks && IsListing(listing)
    requires name in SplitOn(listing, ", ")
    ensures var r := ScanAll(st, before + [heading, listing]);
      name in r.auth && r.auth[name] == Some(Ranks[HeadingOf(heading)])
  {
    ScanAllAppend(st, before, [heading, listing]);
    var mid := ScanAll(st, before);
    var m1 := ScanChunk(mid, heading);
    assert m1 == mid.(rank := Some(Ranks[HeadingOf(heading)]));
    var m2 := ScanChunk(m1, listing);
    assert m2.auth == Assign(m1.auth, SplitOn(listing, ", "), m1.rank);
    assert [heading, listing][1..] == [listing];
    assert ScanAll(mid, [heading, listing]) == ScanAll(m1, [listing]);
    assert ScanAll(m1, [listing]) == ScanAll(m2, []);
  }

  datatype PopupResult = PopupFault | NoTable | Table(roomId: string, auth: map<string, Option<char>>)

  /** The room a popup title is about: the id of its text before "room auth". */
  function TitleRoom(title: string): string {
    ToId(SplitOn(title, "room auth")[0])
  }

  /** The `popup` case: scrape the room-authority listing into a table from
      name to rank. A missing title field fails (`spl[2].indexOf`). */
  method ScrapeRoomAuth(title: Option<string>, body: string) returns (r: PopupResult)
    ensures title.None? <==> r.PopupFault?
    ensures title.Some? && !(Contains(title.value, "room auth") && TitleRoom(title.value) != "") ==> r.NoTable?
    ensures title.Some? && Contains(title.value, "room auth") && TitleRoom(title.value) != "" ==> r.Table?
    ensures r.Table? ==>
              && r.roomId == TitleRoom(title.value) && r.roomId != ""
              && r.auth == ScanAll(AuthScan(None, map[]), SplitOn(body, "||")).auth
  {
    if title.None? { return PopupFault; }
    if !Contains(title.value, "room auth") { return NoTable; }
    var tarRoom := TitleRoom(title.value);
    if tarRoom == "" { return NoTable; }
    var data := SplitOn(body, "||");
    var rank: Option<char> := None;
    var auth: map<string, Option<char>> := map[];
    var i := 0;
    while i < |data|
      invariant 0 <= i <= |data|
      invariant ScanAll(AuthScan(rank, auth), data[i..]) == ScanAll(AuthScan(None, map[]), data)
    {
      assert data[i..][1..] == data[i + 1..];
      ghost var next := ScanChunk(AuthScan(rank, auth), data[i]);
      var line := HeadingOf(data[i]);
      if line == "" {
      } else if line in Ranks {
        rank := Some(Ranks[line]);
      } else {
        auth := AssignAll(auth, SplitOn(data[i], ", "), rank);
      }
      assert AuthScan(rank, auth) == next;
      i := i + 1;
    }
    return Table(tarRoom, auth);
  }

  /** The inner loop of the `popup` case: every name of a listing chunk gets
      the current rank. */
  method AssignAll(auth: map<string, Option<char>>, names: seq<string>, rank: Option<char>)
    returns (r: map<string, Option<char>>)
    ensures r == Assign(auth, names, rank)
  {
    r := auth;
    var l := 0;
    while l < |names|
      invariant 0 <= l <= |names|
      invariant Assign(r, names[l..], rank) == Assign(auth, names, rank)
    {
      assert names[l..][1..] == names[l + 1..];
      r := r[names[l] := rank];
      l := l + 1;
    }
  }
}
