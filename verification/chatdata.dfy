/** The bot's per-user chat data (`chatData`): last-seen tracking, the
    moderation scorer run on every chat message, and the decay sweep. */
module ChatState {
  import opened Options
  import opened Text
  import opened Records
  import opened Rules
  import opened Decay

  /** The parts of the bot's configuration the scorer reads. */
  datatype Config = Config(
    allowMute: bool,              // `Config.allowmute`
    whitelist: seq<string>,       // `Config.whitelist`
    rooms: seq<string>,           // `Config.rooms`
    privateRooms: seq<string>,    // `Config.privaterooms`
    ladder: map<int, string>)     // `Config.punishvals`

  // ---------------------------------------------------------------------
  // Last seen.
  // ---------------------------------------------------------------------

  /** The words the last-seen text starts with, by event kind. */
  function SeenPrefix(kind: string): string {
    if kind == "j" || kind == "J" then "joining "
    else if kind == "l" || kind == "L" then "leaving "
    else if kind == "c" || kind == "c:" then "chatting in "
    else if kind == "N" then "changing nick to "
    else ""
  }

  /** The detail as the last-seen text shows it (before trimming): a rename
      drops the first character of the new id unless it is a space. */
  function SeenDetail(kind: string, detail: string): (r: string)
    ensures kind != "N" ==> r == detail
    ensures kind == "N" && !FirstIs(detail, ' ') ==> r == From(detail, 1)
  {
    if kind == "N" && !FirstIs(detail, ' ') then From(detail, 1) else detail
  }

  /** The last-seen text for an event of `kind` about `detail`. */
  function SeenText(kind: string, detail: string): (r: string)
    ensures |r| > 0 && r[|r| - 1] == '.'
    ensures StartsWith(r, SeenPrefix(kind))
  {
    SeenPrefix(kind) + Trim(SeenDetail(kind, detail)) + "."
  }

  /** `updateSeen`: events outside the configured rooms (renames excepted)
      and events in private rooms are ignored; otherwise the user gets an
      entry, and a non-empty detail becomes their last-seen text. */
  function SeenUpdate(users: map<string, UserData>, user: string, kind: string, detail: string,
                      now: int, cfg: Config): (r: map<string, UserData>)
    ensures (kind == "N" || detail in cfg.rooms) && detail !in cfg.privateRooms ==> user in r
    ensures (kind != "N" && detail !in cfg.rooms) || detail in cfg.privateRooms ==> r == users
  {
    if (kind != "N" && detail !in cfg.rooms) || detail in cfg.privateRooms then users
    else
      var u1 := if user in users then users else users[user := NewUser(now)];
      if detail == "" then u1
      else u1[user := u1[user].(lastSeen := SeenText(kind, detail), seenAt := now)]
  }

  /** `updateSeen` changes no other user's entry, and only the last-seen
      fields of this user's. */
  lemma SeenUpdateFrame(users: map<string, UserData>, user: string, kind: string, detail: string,
                        now: int, cfg: Config)
    ensures var r := SeenUpdate(users, user, kind, detail, now, cfg);
      && users.Keys <= r.Keys <= users.Keys + {user}
      && (forall u :: u in users && u != user ==> r[u] == users[u])
      && (user in r && user !in users ==> r[user].zeroTol == 0 && r[user].rooms == map[])
      && (user in users ==> r[user].zeroTol == users[user].zeroTol && r[user].rooms == users[user].rooms)
  {
    var r := SeenUpdate(users, user, kind, detail, now, cfg);
    if (kind != "N" && detail !in cfg.rooms) || detail in cfg.privateRooms {
      assert r == users;
    } else {
      var u1 := if user in users then users else users[user := NewUser(now)];
      assert u1.Keys == users.Keys + {user};
      if detail == "" {
        assert r == u1;
      } else {
        var e := u1[user].(lastSeen := SeenText(kind, detail), seenAt := now);
        assert r == u1[user := e];
        assert r.Keys == u1.Keys;
      }
    }
  }

  /** `updateSeen` for one user leaves another user's entry alone. */
  lemma SeenUpdateOther(users: map<string, UserData>, user: string, kind: string, detail: string,
                        now: int, cfg: Config, other: string)
    requires other != user
    ensures var r := SeenUpdate(users, user, kind, detail, now, cfg);
      (other in r <==> other in users) && (other in users ==> r[other] == users[other])
  {
    SeenUpdateFrame(users, user, kind, detail, now, cfg);
  }

  /** What `updateSeen` records for an event it does not ignore. */
  lemma SeenRecorded(users: map<string, UserData>, user: string, kind: string, detail: string,
                     now: int, cfg: Config)
    requires kind == "N" || detail in cfg.rooms
    requires detail !in cfg.privateRooms && detail != ""
    ensures var r := SeenUpdate(users, user, kind, detail, now, cfg);
      user in r && r[user].lastSeen == SeenText(kind, detail) && r[user].seenAt == now
  {
  }

  /** Nothing happening in a private room is recorded. */
  lemma PrivateRoomsUnseen(users: map<string, UserData>, user: string, kind: string, detail: string,
                           now: int, cfg: Config)
    requires detail in cfg.privateRooms
    ensures SeenUpdate(users, user, kind, detail, now, cfg) == users
  {
  }

  /** A join of a trimmed room id reads "joining <room>.". */
  lemma JoiningText(room: string)
    requires room == [] || (!IsSpace(room[0]) && !IsSpace(room[|room| - 1]))
    ensures SeenText("J", room) == "joining " + room + "."
  {
    assert SeenPrefix("J") == "joining ";
    assert SeenDetail("J", room) == room;
    TrimKeeps(room);
  }

  /** A rename to `alice` reads "changing nick to lice.": the first
      character of the new id is dropped. */
  lemma RenameDropsFirst()
    ensures SeenText("N", "alice") == "changing nick to " + "lice" + "."
  {
    assert SeenPrefix("N") == "changing nick to ";
    assert !FirstIs("alice", ' ');
    assert SeenDetail("N", "alice") == "lice";
    TrimKeeps("lice");
  }

  // ---------------------------------------------------------------------
  // The scorer.
  // ---------------------------------------------------------------------

  /** The users' data after a chat message, and the command said in the
      room, if any. */
  datatype Outcome = Outcome(users: map<string, UserData>, said: Option<string>)

  /** The user's entry after the last-seen update, or a fresh one. */
  function EntryOf(users: map<string, UserData>, userid: string, now: int): UserData {
    if userid in users then users[userid] else NewUser(now)
  }

  /** The user's record in the room, or a fresh one. */
  function RecordOf(ud: UserData, roomid: string): RoomData {
    if roomid in ud.rooms then ud.rooms[roomid] else NewRoom()
  }

  /** What the moderation part of `processChatData` leaves: the room
      record, the user's zero-tolerance level, and the command said. */
  datatype Verdict = Verdict(record: RoomData, zeroTol: nat, said: Option<string>)

  /** The moderation of normalised `text` by `userid` in `roomid`, whose
      record `rd` already ends with `now`. `botIsDriver` and `botIsMod` say
      whether the bot holds `%` and `@` in the room. */
  function Moderate(rd: RoomData, zeroTol: nat, userid: string, roomid: string, text: string,
                    now: int, cfg: Config, st: Settings, botIsDriver: bool, botIsMod: bool): (r: Verdict)
    ensures r.record.times == rd.times
  {
    if !(cfg.allowMute && botIsDriver && userid !in cfg.whitelist) then Verdict(rd, zeroTol, None)
    else
      var hs := Hits(st, roomid, text, rd.times, now);
      if Severity(hs) > 0 && now - rd.lastAction >= ActionCooldown then
        var d := Decide(rd.points, Severity(hs), zeroTol, Reason(hs),
                        roomid in cfg.privateRooms, botIsMod, cfg.ladder);
        Verdict(RoomData(rd.times, d.points, now), d.zeroTol, Some("/" + d.command + " " + userid + d.reason))
      else Verdict(rd, zeroTol, None)
  }

  /** A message that breaks no enabled rule, or comes within the cooldown
      of the last action, or is not moderated at all, sends nothing and
      leaves points, last action and zero tolerance as they were. */
  lemma QuietKeepsScore(rd: RoomData, zeroTol: nat, userid: string, roomid: string, text: string,
                        now: int, cfg: Config, st: Settings, botIsDriver: bool, botIsMod: bool)
    requires || !(cfg.allowMute && botIsDriver && userid !in cfg.whitelist)
             || Severity(Hits(st, roomid, text, rd.times, now)) == 0
             || now - rd.lastAction < ActionCooldown
    ensures Moderate(rd, zeroTol, userid, roomid, text, now, cfg, st, botIsDriver, botIsMod)
            == Verdict(rd, zeroTol, None)
  {
  }

  /** Something is said only when moderation is on, a rule fired and the
      cooldown has passed; the action then raises the points (to at least
      the severity), stamps the action time and raises zero tolerance
      exactly when the new points exceed one. */
  lemma ActionEscalates(rd: RoomData, zeroTol: nat, userid: string, roomid: string, text: string,
                        now: int, cfg: Config, st: Settings, botIsDriver: bool, botIsMod: bool)
    requires Moderate(rd, zeroTol, userid, roomid, text, now, cfg, st, botIsDriver, botIsMod).said.Some?
    ensures var v := Moderate(rd, zeroTol, userid, roomid, text, now, cfg, st, botIsDriver, botIsMod);
      var sev := Severity(Hits(st, roomid, text, rd.times, now));
      && cfg.allowMute && botIsDriver && userid !in cfg.whitelist
      && 1 <= sev <= 2 && now - rd.lastAction >= ActionCooldown
      && v.record.points > rd.points && v.record.points >= sev
      && v.record.lastAction == now
      && v.zeroTol == (if v.record.points > 1 then zeroTol + 1 else zeroTol)
  {
    var hs := Hits(st, roomid, text, rd.times, now);
    HitsBound(hs);
  }

  /** When moderation is on, a rule fired and the cooldown has passed, the
      decided command is said to the user with the decided reason, and the
      record takes the decided points and the action time. */
  lemma ActionFires(rd: RoomData, zeroTol: nat, userid: string, roomid: string, text: string,
                    now: int, cfg: Config, st: Settings, botIsDriver: bool, botIsMod: bool)
    requires cfg.allowMute && botIsDriver && userid !in cfg.whitelist
    requires Severity(Hits(st, roomid, text, rd.times, now)) > 0
    requires now - rd.lastAction >= ActionCooldown
    ensures var hs := Hits(st, roomid, text, rd.times, now);
      var d := Decide(rd.points, Severity(hs), zeroTol, Reason(hs), roomid in cfg.privateRooms, botIsMod, cfg.ladder);
      Moderate(rd, zeroTol, userid, roomid, text, now, cfg, st, botIsDriver, botIsMod)
        == Verdict(RoomData(rd.times, d.points, now), d.zeroTol, Some("/" + d.command + " " + userid + d.reason))
  {
  }

  /** `processChatData` on a message `msg` by `userid` in `roomid` at
      `now`: the last-seen update, the new time, then moderation. */
  function ChatStep(users: map<string, UserData>, userid: string, roomid: string, msg: string,
                    now: int, cfg: Config, st: Settings, botIsDriver: bool, botIsMod: bool): (r: Outcome)
    ensures userid in r.users && roomid in r.users[userid].rooms
  {
    var seen := SeenUpdate(users, userid, "c", roomid, now, cfg);
    var ud := EntryOf(seen, userid, now);
    var rd := RecordOf(ud, roomid);
    var v := Moderate(rd.(times := rd.times + [now]), ud.zeroTol, userid, roomid, Normalise(msg),
                      now, cfg, st, botIsDriver, botIsMod);
    Outcome(seen[userid := ud.(zeroTol := v.zeroTol, rooms := ud.rooms[roomid := v.record])], v.said)
  }

  /** `ChatStep` with its moderation verdict named. */
  lemma ChatStepUnfolds(users: map<string, UserData>, userid: string, roomid: string, msg: string,
                        now: int, cfg: Config, st: Settings, botIsDriver: bool, botIsMod: bool, v: Verdict)
    requires var ud := EntryOf(SeenUpdate(users, userid, "c", roomid, now, cfg), userid, now);
      var rd := RecordOf(ud, roomid);
      v == Moderate(rd.(times := rd.times + [now]), ud.zeroTol, userid, roomid, Normalise(msg),
                    now, cfg, st, botIsDriver, botIsMod)
    ensures var seen := SeenUpdate(users, userid, "c", roomid, now, cfg);
      var ud := EntryOf(seen, userid, now);
      ChatStep(users, userid, roomid, msg, now, cfg, st, botIsDriver, botIsMod)
        == Outcome(seen[userid := ud.(zeroTol := v.zeroTol, rooms := ud.rooms[roomid := v.record])], v.said)
  {
  }

  /** Every message is recorded: `now` is appended to the user's times in
      the room, whatever else happens. */
  lemma ChatAppendsTime(users: map<string, UserData>, userid: string, roomid: string, msg: string,
                        now: int, cfg: Config, st: Settings, botIsDriver: bool, botIsMod: bool)
    ensures var r := ChatStep(users, userid, roomid, msg, now, cfg, st, botIsDriver, botIsMod);
      var before := RecordOf(EntryOf(users, userid, now), roomid);
      userid in r.users && roomid in r.users[userid].rooms
      && r.users[userid].rooms[roomid].times == before.times + [now]
  {
    var seen := SeenUpdate(users, userid, "c", roomid, now, cfg);
    SeenUpdateFrame(users, userid, "c", roomid, now, cfg);
    var ud := EntryOf(seen, userid, now);
    var rd := RecordOf(ud, roomid);
    var v := Moderate(rd.(times := rd.times + [now]), ud.zeroTol, userid, roomid, Normalise(msg),
                      now, cfg, st, botIsDriver, botIsMod);
    ChatStepUnfolds(users, userid, roomid, msg, now, cfg, st, botIsDriver, botIsMod, v);
    assert rd == RecordOf(EntryOf(users, userid, now), roomid);
  }

  /** The hits are worth one or two points each. */
  lemma {:induction false} HitsBound(hs: seq<Hit>)
    requires forall k :: 0 <= k < |hs| ==> 1 <= hs[k].points <= 2
    ensures Severity(hs) <= 2
    ensures hs != [] ==> Severity(hs) >= 1
  {
    if hs != [] {
      HitsBound(hs[1..]);
    }
  }

  /** The scorer touches no other user's data. */
  lemma ChatOthersUnchanged(users: map<string, UserData>, userid: string, roomid: string, msg: string,
                            now: int, cfg: Config, st: Settings, botIsDriver: bool, botIsMod: bool, other: string)
    requires other != userid
    ensures var r := ChatStep(users, userid, roomid, msg, now, cfg, st, botIsDriver, botIsMod);
      (other in r.users <==> other in users) && (other in users ==> r.users[other] == users[other])
  {
    var seen := SeenUpdate(users, userid, "c", roomid, now, cfg);
    SeenUpdateOther(users, userid, "c", roomid, now, cfg, other);
    var ud := EntryOf(seen, userid, now);
    var rd := RecordOf(ud, roomid);
    var v := Moderate(rd.(times := rd.times + [now]), ud.zeroTol, userid, roomid, Normalise(msg),
                      now, cfg, st, botIsDriver, botIsMod);
    ChatStepUnfolds(users, userid, roomid, msg, now, cfg, st, botIsDriver, botIsMod, v);
  }

  /** Two actions in one room are at least the cooldown apart: the next
      message, within 3 seconds of an action, sends nothing. */
  lemma CooldownSuppresses(rd: RoomData, zeroTol: nat, userid: string, roomid: string,
                           text1: string, text2: string, now1: int, now2: int,
                           cfg: Config, st: Settings, botIsDriver: bool, botIsMod: bool)
    requires Moderate(rd, zeroTol, userid, roomid, text1, now1, cfg, st, botIsDriver, botIsMod).said.Some?
    requires now1 <= now2 < now1 + ActionCooldown
    ensures var v1 := Moderate(rd, zeroTol, userid, roomid, text1, now1, cfg, st, botIsDriver, botIsMod);
      Moderate(v1.record.(times := v1.record.times + [now2]), v1.zeroTol, userid, roomid, text2,
               now2, cfg, st, botIsDriver, botIsMod).said.None?
  {
    ActionEscalates(rd, zeroTol, userid, roomid, text1, now1, cfg, st, botIsDriver, botIsMod);
  }

  // ---------------------------------------------------------------------
  // The sweep.
  // ---------------------------------------------------------------------

  /** `cleanChatData` over every user; the scalar fields of an entry are
      left alone. */
  function CleanAll(users: map<string, UserData>, now: int): (r: map<string, UserData>)
    ensures r.Keys == users.Keys
    ensures forall u :: u in r ==>
      && r[u].zeroTol == users[u].zeroTol && r[u].lastSeen == users[u].lastSeen
      && r[u].seenAt == users[u].seenAt && r[u].rooms == CleanRooms(users[u].rooms, now)
  {
    map u | u in users :: users[u].(rooms := CleanRooms(users[u].rooms, now))
  }

  class ChatData {
    var users: map<string, UserData>

    constructor ()
      ensures users == map[]
    {
      users := map[];
    }

    /** `updateSeen` */
    method UpdateSeen(user: string, kind: string, detail: string, now: int, cfg: Config)
      modifies this
      ensures users == SeenUpdate(old(users), user, kind, detail, now, cfg)
    {
      if (kind != "N" && detail !in cfg.rooms) || detail in cfg.privateRooms {
        return;
      }
      if user !in users {
        users := users[user := NewUser(now)];
      }
      ghost var u1 := users;
      if detail == "" {
        return;
      }
      var msg := SeenMessage(kind, detail);
      users := users[user := users[user].(lastSeen := msg, seenAt := now)];
      assert users == u1[user := u1[user].(lastSeen := SeenText(kind, detail), seenAt := now)];
    }

    /** The `switch` of `updateSeen` that builds the last-seen text. */
    static method SeenMessage(kind: string, detail: string) returns (msg: string)
      ensures msg == SeenText(kind, detail)
    {
      msg := "";
      var d := detail;
      if kind == "j" || kind == "J" {
        msg := "joining ";
      } else if kind == "l" || kind == "L" {
        msg := "leaving ";
      } else if kind == "c" || kind == "c:" {
        msg := "chatting in ";
      } else if kind == "N" {
        msg := "changing nick to ";
        if !FirstIs(d, ' ') {
          d := From(d, 1);
        }
      }
      assert msg == SeenPrefix(kind) && d == SeenDetail(kind, detail);
      msg := msg + Trim(d) + ".";
    }

    /** `processChatData`; returns the command said in the room, if any. */
    method ProcessChatData(userid: string, roomid: string, message: string, now: int,
                           cfg: Config, st: Settings, botIsDriver: bool, botIsMod: bool)
      returns (said: Option<string>)
      modifies this
      ensures Outcome(users, said) == ChatStep(old(users), userid, roomid, message, now, cfg, st, botIsDriver, botIsMod)
    {
      ghost var seen := SeenUpdate(users, userid, "c", roomid, now, cfg);
      var msg := Normalise(message);
      UpdateSeen(userid, "c", roomid, now, cfg);
      assert users == seen;
      var userData := if userid in users then users[userid] else NewUser(now);
      assert userData == EntryOf(seen, userid, now);
      var roomData := if roomid in userData.rooms then userData.rooms[roomid] else NewRoom();
      assert roomData == RecordOf(userData, roomid);
      roomData := roomData.(times := roomData.times + [now]);
      var v := ModerateRecord(roomData, userData.zeroTol, userid, roomid, msg, now, cfg, st, botIsDriver, botIsMod);
      users := users[userid := userData.(zeroTol := v.zeroTol, rooms := userData.rooms[roomid := v.record])];
      said := v.said;
      ChatStepUnfolds(old(users), userid, roomid, message, now, cfg, st, botIsDriver, botIsMod, v);
    }

    /** The moderation part of `processChatData`, on the record it has
        just appended `now` to. */
    static method ModerateRecord(roomData: RoomData, zeroTol: nat, userid: string, roomid: string, msg: string,
                                 now: int, cfg: Config, st: Settings, botIsDriver: bool, botIsMod: bool)
      returns (v: Verdict)
      ensures v == Moderate(roomData, zeroTol, userid, roomid, msg, now, cfg, st, botIsDriver, botIsMod)
    {
      v := Verdict(roomData, zeroTol, None);
      if cfg.allowMute && botIsDriver && userid !in cfg.whitelist {
        var pointVal, muteMessage := Assess(st, roomid, msg, roomData.times, now);
        if pointVal > 0 && now - roomData.lastAction >= ActionCooldown {
          var d := Punish(roomData.points, pointVal, zeroTol, muteMessage,
                          roomid in cfg.privateRooms, botIsMod, cfg.ladder);
          v := Verdict(RoomData(roomData.times, d.points, now), d.zeroTol,
                       Some("/" + d.command + " " + userid + d.reason));
        }
      }
    }

    /** `cleanChatData`, with one clock reading for the whole sweep. */
    method CleanChatData(now: int)
      modifies this
      ensures users == CleanAll(old(users), now)
    {
      ghost var orig := users;
      var todo := users.Keys;
      while todo != {}
        invariant todo <= orig.Keys && users.Keys == orig.Keys
        invariant forall u :: u in todo ==> users[u] == orig[u]
        invariant forall u :: u in orig && u !in todo ==>
          users[u] == orig[u].(rooms := CleanRooms(orig[u].rooms, now))
        decreases todo
      {
        var u :| u in todo;
        var rooms := SweepRooms(users[u].rooms, now);
        users := users[u := users[u].(rooms := rooms)];
        todo := todo - {u};
      }
      assert users == CleanAll(orig, now);
    }
  }
}
