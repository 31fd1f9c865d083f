/** The per-user moderation and last-seen records of `chatData`. */
module Records {
  /** A user's record in one room: the times of their recent messages, the
      punishment points they hold there and when the bot last acted. */
  datatype RoomData = RoomData(times: seq<int>, points: nat, lastAction: int)

  /** A user's entry: zero-tolerance level, last-seen text and time, and a
      record per room. In the source the room records sit beside the three
      scalar fields in one object; room ids are lower-case, so they never
      collide with `zeroTol`, `lastSeen` or `seenAt`. */
  datatype UserData = UserData(zeroTol: nat, lastSeen: string, seenAt: int, rooms: map<string, RoomData>)

  /** A fresh entry for a user first seen at `now`. */
  function NewUser(now: int): (r: UserData)
    ensures r.zeroTol == 0 && r.lastSeen == "" && r.seenAt == now && r.rooms == map[]
  {
    UserData(0, "", now, map[])
  }

  /** A fresh room record. */
  function NewRoom(): (r: RoomData)
    ensures r.times == [] && r.points == 0 && r.lastAction == 0
  {
    RoomData([], 0, 0)
  }
}
