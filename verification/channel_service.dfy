/** `src/services/channel_service.py`: which channels a user must join, the
    (stubbed) membership check, and recording a joined channel. The
    database is a table of channels in storage order and a map from
    Telegram id to user row; a database failure is an input flag. */
module ChannelService {
  import opened Market
  import Slices
  import StableSort

  /** A row of the `channels` table (the columns the service reads). */
  datatype Channel = Channel(username: string, isActive: bool, createdAt: Instant)

  /** One entry of a user's `joined_channels` JSON. */
  datatype Membership = Membership(joinedAt: string, verified: bool)

  /** A row of the `users` table: its `joined_channels` (a missing value
      reads as `{}`). */
  datatype UserRow = UserRow(joinedChannels: map<string, Membership>)

  type Users = map<int, UserRow>

  function CreatedAt(c: Channel): int
  {
    c.createdAt
  }

  /** `WHERE is_active`: the active rows, in storage order. */
  function Active(table: seq<Channel>): (r: seq<Channel>)
    ensures |r| <= |table|
    ensures forall i :: 0 <= i < |r| ==> r[i].isActive
    ensures forall c :: c in table && c.isActive <==> c in r
  {
    if |table| == 0 then []
    else
      var rest := Active(table[1..]);
      assert forall c :: c in table <==> c == table[0] || c in table[1..];
      if table[0].isActive then [table[0]] + rest else rest
  }

  /** The filter keeps storage order and multiplicity: filtering a
      concatenation is concatenating the filtered parts, and a single row
      is kept exactly when it is active. */
  lemma {:induction false} ActiveAppend(a: seq<Channel>, b: seq<Channel>)
    ensures Active(a + b) == Active(a) + Active(b)
    decreases |a|
  {
    if |a| == 0 {
      assert a + b == b;
    } else {
      assert (a + b)[1..] == a[1..] + b;
      ActiveAppend(a[1..], b);
    }
  }

  /** One row is kept exactly when it is active. */
  lemma ActiveSingle(c: Channel)
    ensures Active([c]) == (if c.isActive then [c] else [])
  {
    assert [c][1..] == [];
  }

  /** `get_required_channels`: the active channels, newest first, cut to
      `REQUIRED_CHANNELS_COUNT` as `[:count]` does. Rows created at the same
      instant keep storage order. */
  function RequiredChannels(table: seq<Channel>, count: int): (r: seq<Channel>)
    ensures forall i :: 0 <= i < |r| ==> r[i].isActive
    ensures StableSort.SortedDesc(r, CreatedAt)
    ensures count >= 0 ==> |r| == (if count < |Active(table)| then count else |Active(table)|)
    ensures count < 0 ==> |r| == (if |Active(table)| + count >= 0 then |Active(table)| + count else 0)
    ensures r <= StableSort.SortDesc(Active(table), CreatedAt)
  {
    var sorted := StableSort.SortDesc(Active(table), CreatedAt);
    var r := Slices.Prefix(sorted, count);
    StableSort.PrefixSorted(sorted, r, CreatedAt);
    AllActive(Active(table), r);
    r
  }

  lemma AllActive(active: seq<Channel>, r: seq<Channel>)
    requires forall i :: 0 <= i < |active| ==> active[i].isActive
    requires multiset(r) <= multiset(active)
    ensures forall i :: 0 <= i < |r| ==> r[i].isActive
  {
    forall i | 0 <= i < |r| ensures r[i].isActive {
      assert r[i] in multiset(active);
    }
  }

  /** An active channel that was not selected is no newer than any channel
      that was. */
  lemma RequiredAreNewest(table: seq<Channel>, count: int, c: Channel, i: nat)
    requires c in table && c.isActive
    requires i < |RequiredChannels(table, count)| && c !in RequiredChannels(table, count)
    ensures c.createdAt <= RequiredChannels(table, count)[i].createdAt
  {
    var r := RequiredChannels(table, count);
    var sorted := StableSort.SortDesc(Active(table), CreatedAt);
    assert c in multiset(sorted);
    var j :| 0 <= j < |sorted| && sorted[j] == c;
    assert r[i] == sorted[i];
  }

  /** With at least `count` active channels, exactly `count` are required. */
  lemma RequiredCount(table: seq<Channel>, count: nat)
    requires |Active(table)| >= count
    ensures |RequiredChannels(table, count)| == count
  {
  }

  /** `check_user_channels`: true when no channel is required; otherwise
      true exactly for a known user, whatever channels they joined (the
      membership check is a stub); false on any database failure. */
  function CheckUserChannels(table: seq<Channel>, count: int, users: Users, userId: int, failure: bool): (ok: bool)
    ensures failure ==> !ok
    ensures !failure && RequiredChannels(table, count) == [] ==> ok
    ensures !failure && RequiredChannels(table, count) != [] ==> (ok <==> userId in users)
  {
    if failure then false
    else if RequiredChannels(table, count) == [] then true
    else userId in users
  }

  datatype Added = Added(ok: bool, users: Users)

  /** `add_user_channel`: for a known user, records `channel` as joined at
      `stamp` and verified, leaving every other channel and user as it was;
      an unknown user or a failed commit changes nothing and yields false. */
  function AddUserChannel(users: Users, userId: int, channel: string, stamp: string, failure: bool): (r: Added)
    ensures failure || userId !in users ==> !r.ok && r.users == users
    ensures !failure && userId in users ==>
      r.ok && r.users.Keys == users.Keys
      && r.users[userId].joinedChannels.Keys == users[userId].joinedChannels.Keys + {channel}
      && r.users[userId].joinedChannels[channel] == Membership(stamp, true)
      && (forall ch :: ch in users[userId].joinedChannels && ch != channel ==>
            r.users[userId].joinedChannels[ch] == users[userId].joinedChannels[ch])
      && (forall id :: id in users && id != userId ==> r.users[id] == users[id])
  {
    if failure || userId !in users then Added(false, users)
    else
      var row := users[userId];
      Added(true, users[userId := UserRow(row.joinedChannels[channel := Membership(stamp, true)])])
  }

  /** Recording the same channel twice with the same stamp is recording it
      once, and afterwards the user passes the membership check. */
  lemma AddIdempotent(table: seq<Channel>, count: int, users: Users, userId: int, channel: string, stamp: string)
    requires userId in users
    ensures var once := AddUserChannel(users, userId, channel, stamp, false);
      AddUserChannel(once.users, userId, channel, stamp, false) == once
      && CheckUserChannels(table, count, once.users, userId, false)
  {
    var once := AddUserChannel(users, userId, channel, stamp, false);
    var m := users[userId].joinedChannels[channel := Membership(stamp, true)];
    assert m[channel := Membership(stamp, true)] == m;
  }
}
