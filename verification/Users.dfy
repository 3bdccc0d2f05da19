/** The part of a `UserInfo` the server's handlers read or change, its decoder, and the class. */
module Users {
  import opened Bytes
  import opened Groups
  import opened CustomText
  import opened CustomParse

  /** `std::hash<std::string>`, any function. */
  datatype Hasher = Hasher(apply: seq<byte> -> int)

  const STATUS_ON_LINE: u8 := 0
  const STATUS_OFF_LINE: u8 := 1
  const OWN_GROUP_MAX: nat := 50

  /** `joined` maps the guid of each joined group to the time it was last active. */
  datatype User = User(id: guid, icon: guid, name: Name, phone: seq<byte>, passwd: int,
                       regTime: int, lastLogin: int, lastLogout: int, online: u8, owned: int, joined: map<guid, int>)

  function LoggedIn(u: User, now: int): User {
    u.(lastLogin := now, lastLogout := now, online := STATUS_ON_LINE)
  }

  function LoggedOut(u: User, now: int): User {
    u.(lastLogout := now, online := STATUS_OFF_LINE)
  }

  function WentOffline(u: User): User {
    u.(online := STATUS_OFF_LINE)
  }

  function Join(u: User, g: guid, now: int): User {
    if g in u.joined then u else u.(joined := u.joined[g := now])
  }

  function Leave(u: User, g: guid): User {
    u.(joined := u.joined - {g})
  }

  function Touch(u: User, g: guid, now: int): User {
    if g in u.joined then u.(joined := u.joined[g := now]) else u
  }

  /** `owner_groups` is a `uint8_t`. */
  function Founded(u: User): User {
    if u.owned > OWN_GROUP_MAX then u else u.(owned := (u.owned + 1) % 256)
  }

  function Disbanded(u: User): User {
    if u.owned == 0 then u else u.(owned := (u.owned - 1) % 256)
  }

  const USER_HEADER: nat := 260
  const NO_NAME: Name := [0, 0, 0, 0, 0, 0, 0, 0, 0, 0, 0, 0, 0, 0, 0, 0,
                         0, 0, 0, 0, 0, 0, 0, 0, 0, 0, 0, 0, 0, 0, 0, 0]
  const NO_USER := User(0, 0, NO_NAME, [], 0, 0, 0, 0, 0, 0, map[])

  function Chars(b: seq<byte>): (s: string)
    ensures |s| == |b|
  {
    seq(|b|, i requires 0 <= i < |b| => b[i] as char)
  }

  function OrNow(t: int, now: int): int { if t == 0 then now else t }

  /** The fixed-layout part. */
  function DecodeHeader(globalGuid: guid, now: int, hash: Hasher, d: seq<byte>): User
    requires USER_HEADER <= |d|
  {
    var id := if Get32(d, 0) == 0 then Inc32(globalGuid) else Get32(d, 0);
    User(id, Get32(d, 4), d[24..56], d[56..72], hash.apply(d[184..248]),
         OrNow(Get32(d, 8), now), OrNow(Get32(d, 12), now), OrNow(Get32(d, 16), now), d[22], d[23], map[])
  }

  /** `from_data` on a fresh object: the object and the returned index. `now` is the clock and `hash`
      is `std::hash<std::string>`. */
  function DecodeUser(globalGuid: guid, now: int, hash: Hasher, d: seq<byte>): (User, nat) {
    if |d| < USER_HEADER then (NO_USER, 0)
    else
      var u := DecodeHeader(globalGuid, now, hash, d);
      var customLength := Get32(d, 256);
      if |d| < customLength + USER_HEADER then (u, 0)
      else if !Parse(EMPTY, Chars(d[USER_HEADER..USER_HEADER + customLength])).1 then (u, 0)
      else (u, USER_HEADER + customLength)
  }

  class UserInfo {
    var userGuid: guid
    var iconGuid: guid
    var name: Name
    var phone: seq<byte>
    var passwd: int
    var regTime: int
    var lastLoginTime: int
    var lastLogoutTime: int
    var onlineStatus: u8
    var ownerGroups: int
    var joinGroups: map<guid, int>

    ghost function State(): User
      reads this
    {
      User(userGuid, iconGuid, name, phone, passwd, regTime, lastLoginTime, lastLogoutTime, onlineStatus,
        ownerGroups, joinGroups)
    }

    constructor ()
      ensures State() == NO_USER
    {
      userGuid, iconGuid, name, phone, passwd := 0, 0, NO_NAME, [], 0;
      regTime, lastLoginTime, lastLogoutTime := 0, 0, 0;
      onlineStatus, ownerGroups, joinGroups := 0, 0, map[];
    }

    /** The copy `std::list::emplace_back` makes. */
    constructor CopyOf(user: UserInfo)
      ensures State() == user.State()
    {
      userGuid, iconGuid, name, phone, passwd := user.userGuid, user.iconGuid, user.name, user.phone, user.passwd;
      regTime, lastLoginTime, lastLogoutTime := user.regTime, user.lastLoginTime, user.lastLogoutTime;
      onlineStatus, ownerGroups, joinGroups := user.onlineStatus, user.ownerGroups, user.joinGroups;
    }

    method OnJoinGroup(g: guid, now: int) returns (ok: bool)
      modifies this
      ensures ok == (g !in old(joinGroups)) && State() == Join(old(State()), g, now)
    {
      if g !in joinGroups {
        joinGroups := joinGroups[g := now];
        return true;
      }
      return false;
    }

    method OnLeaveGroup(g: guid) returns (ok: bool)
      modifies this
      ensures ok == (g in old(joinGroups)) && State() == Leave(old(State()), g)
    {
      if g in joinGroups {
        joinGroups := joinGroups - {g};
        return true;
      }
      assert joinGroups - {g} == joinGroups;
      return false;
    }

    method OnUpdateGroupActive(g: guid, now: int) returns (ok: bool)
      modifies this
      ensures ok == (g in old(joinGroups)) && State() == Touch(old(State()), g, now)
    {
      if g in joinGroups {
        joinGroups := joinGroups[g := now];
        return true;
      }
      return false;
    }

    predicate CanCreateGroup()
      reads this
    {
      ownerGroups < OWN_GROUP_MAX
    }

    method OnCreateGroup() returns (ok: bool)
      modifies this
      ensures State() == Founded(old(State()))
      ensures ok <==> old(ownerGroups) <= OWN_GROUP_MAX
    {
      if ownerGroups > OWN_GROUP_MAX {
        return false;
      }
      ownerGroups := (ownerGroups + 1) % 256;
      return true;
    }

    method OnDeleteGroup() returns (ok: bool)
      modifies this
      ensures State() == Disbanded(old(State()))
      ensures ok <==> old(ownerGroups) != 0
    {
      if ownerGroups == 0 {
        return false;
      }
      ownerGroups := (ownerGroups - 1) % 256;
      return true;
    }

    method OnSetOnlineStatus(status: u8)
      modifies this
      ensures State() == old(State()).(online := status)
    {
      onlineStatus := status;
    }

    method SetRegTime(t: int)
      modifies this
      ensures State() == old(State()).(regTime := t)
    {
      regTime := t;
    }

    method SetLastLoginTime(t: int)
      modifies this
      ensures State() == old(State()).(lastLogin := t)
    {
      lastLoginTime := t;
    }

    method SetLastLogoutTime(t: int)
      modifies this
      ensures State() == old(State()).(lastLogout := t)
    {
      lastLogoutTime := t;
    }

    /** What the server records when the user logs in. */
    method OnLoggedIn(now: int)
      modifies this
      ensures State() == LoggedIn(old(State()), now)
    {
      SetLastLoginTime(now);
      SetLastLogoutTime(lastLoginTime);
      OnSetOnlineStatus(STATUS_ON_LINE);
    }

    /** ... and when the user logs out. */
    method OnLoggedOut(now: int)
      modifies this
      ensures State() == LoggedOut(old(State()), now)
    {
      OnSetOnlineStatus(STATUS_OFF_LINE);
      SetLastLogoutTime(now);
    }

    method FromData(globalGuid: guid, now: int, hash: Hasher, d: seq<byte>) returns (index: nat)
      requires State() == NO_USER
      modifies this
      ensures (State(), index) == DecodeUser(globalGuid, now, hash, d)
    {
      hide Parse, Chars, Get32, DecodeHeader;
      index := 0;
      if |d| < USER_HEADER {
        return;
      }
      ReadHeader(globalGuid, now, hash, d);
      var customLength := Get32(d, 256);
      index := USER_HEADER;
      if |d| < customLength + index {
        return 0;
      }
      if !Parse(EMPTY, Chars(d[index..index + customLength])).1 {
        return 0;
      }
      index := index + customLength;
    }

    method ReadHeader(globalGuid: guid, now: int, hash: Hasher, d: seq<byte>)
      requires joinGroups == map[] && USER_HEADER <= |d|
      modifies this
      ensures State() == DecodeHeader(globalGuid, now, hash, d)
    {
      hide Get32, Inc32, OrNow;
      userGuid := Get32(d, 0);
      if userGuid == 0 {
        userGuid := Inc32(globalGuid);
      }
      iconGuid := Get32(d, 4);
      regTime := OrNow(Get32(d, 8), now);
      lastLoginTime := OrNow(Get32(d, 12), now);
      lastLogoutTime := OrNow(Get32(d, 16), now);
      onlineStatus := d[22];
      ownerGroups := d[23];
      name := d[24..56];
      phone := d[56..72];
      passwd := hash.apply(d[184..248]);
    }
  }
}
