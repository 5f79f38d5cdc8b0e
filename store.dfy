/** The Supabase tables the chat paths read and write (`messages`,
    `stream_settings`, `users`) and the queries and writes of
    utils/supabase/admin.ts on them. Timestamps are milliseconds; the
    database clock is the parameter `now` of each write. A column the
    source leaves to its default is `None`. */
module Store {
  import opened Wrappers
  import opened Ordering

  datatype MessageKind = Twitch | Transcript

  datatype MessageRow = MessageRow(
    text: Option<string>,
    kind: MessageKind,
    userId: string,
    chatterUserId: Option<string>,
    chatterUserName: Option<string>,
    broadcasterTwitchId: Option<string>,
    /** A column that no insert of the chat paths fills. */
    broadcasterUserId: Option<string>,
    timestamp: int,
    createdAt: int,
    respondedTo: Option<bool>)

  datatype UserRow = UserRow(id: string, twitchUserId: Option<string>)

  datatype SettingsRow = SettingsRow(
    userId: string,
    platform: string,
    platformUserId: Option<string>,
    isLive: bool,
    lastInteraction: Option<int>,
    updatedAt: int,
    cooldownSeconds: Option<int>,
    botPrompt: Option<string>)

  /** A message row with `users!inner(twitch_user_id)` joined on `user_id`. */
  datatype JoinedMessage = JoinedMessage(row: MessageRow, twitchUserId: Option<string>)

  const Platform: string := "twitch"

  /** The `(user_id, platform)` conflict key of `stream_settings` is unique. */
  ghost predicate KeysUnique(settings: seq<SettingsRow>) {
    forall i, j :: 0 <= i < j < |settings| ==>
      settings[i].userId != settings[j].userId || settings[i].platform != settings[j].platform
  }

  // ----- queries -----

  /** `getChatHistory`: the broadcaster's rows by `broadcaster_user_id`, newest
      `limit` by `created_at`, returned oldest first. */
  function GetChatHistory(messages: seq<MessageRow>, broadcasterUserId: string, limit: nat): seq<MessageRow> {
    var mine := Filter(messages, (m: MessageRow) => m.broadcasterUserId == Some(broadcasterUserId));
    Reverse(Take(SortBy(mine, (m: MessageRow) => -m.createdAt), limit))
  }

  lemma GetChatHistoryShape(messages: seq<MessageRow>, broadcasterUserId: string, limit: nat)
    ensures var r := GetChatHistory(messages, broadcasterUserId, limit);
            var n := |Filter(messages, (m: MessageRow) => m.broadcasterUserId == Some(broadcasterUserId))|;
            && |r| <= limit
            && |r| == (if limit < n then limit else n)
            && (forall m :: m in r ==> m in messages && m.broadcasterUserId == Some(broadcasterUserId))
            && (forall i, j :: 0 <= i < j < |r| ==> r[i].createdAt <= r[j].createdAt)
            && multiset(r) <= multiset(messages)
  {
    var p := (m: MessageRow) => m.broadcasterUserId == Some(broadcasterUserId);
    var mine := Filter(messages, p);
    var sorted := SortBy(mine, (m: MessageRow) => -m.createdAt);
    var taken := Take(sorted, limit);
    var r := Reverse(taken);
    FilterMembers(messages, p);
    FilterMultiset(messages, p);
    ReverseMultiset(taken);
    TakeMultiset(sorted, limit);
    assert |multiset(sorted)| == |multiset(mine)|;
    assert multiset(r) <= multiset(messages);
    forall m | m in r ensures m in messages && p(m) {
      assert m in multiset(r);
      assert m in multiset(mine);
    }
  }

  lemma TakeMultiset<T>(s: seq<T>, n: nat)
    ensures multiset(Take(s, n)) <= multiset(s)
  {
    assert s == Take(s, n) + s[|Take(s, n)|..];
  }

  /** Rows of the broadcaster that are left out are no newer than any row
      returned: the query keeps the newest. */
  lemma GetChatHistoryKeepsNewest(messages: seq<MessageRow>, broadcasterUserId: string, limit: nat)
    ensures var sorted := SortBy(Filter(messages, (m: MessageRow) => m.broadcasterUserId == Some(broadcasterUserId)),
                                 (m: MessageRow) => -m.createdAt);
            var r := GetChatHistory(messages, broadcasterUserId, limit);
            forall i, k :: 0 <= i < |r| && |r| <= k < |sorted| ==> sorted[k].createdAt <= r[i].createdAt
  {
  }

  /** The inner join with `users` on `user_id`: rows without a user drop out. */
  function JoinUsers(messages: seq<MessageRow>, users: seq<UserRow>): (r: seq<JoinedMessage>)
    ensures |r| <= |messages|
  {
    if messages == [] then []
    else
      var m := messages[0];
      var matching := Filter(users, (u: UserRow) => u.id == m.userId);
      var rest := JoinUsers(messages[1..], users);
      if matching == [] then rest else [JoinedMessage(m, matching[0].twitchUserId)] + rest
  }

  /** Every joined row pairs a message with the Twitch id of a user whose
      `id` is the message's `user_id`, and every message that has such a
      user is joined. */
  lemma {:induction false} JoinUsersMembers(messages: seq<MessageRow>, users: seq<UserRow>)
    ensures forall j :: j in JoinUsers(messages, users) ==>
              j.row in messages && exists u :: u in users && u.id == j.row.userId && u.twitchUserId == j.twitchUserId
    ensures forall m :: m in messages && (exists u :: u in users && u.id == m.userId) ==>
              exists j :: j in JoinUsers(messages, users) && j.row == m
  {
    if messages != [] {
      var m := messages[0];
      var matching := Filter(users, (u: UserRow) => u.id == m.userId);
      FilterMembers(users, (u: UserRow) => u.id == m.userId);
      JoinUsersMembers(messages[1..], users);
      if matching != [] {
        assert matching[0] in matching;
      }
      assert forall x :: x in messages ==> x == m || x in messages[1..];
    }
  }

  /** `getRecentMessagesWithUserData`: the broadcaster's joined rows by
      `broadcaster_twitch_id`, newest `limit` first, not reversed. */
  function GetRecentMessagesWithUserData(messages: seq<MessageRow>, users: seq<UserRow>, broadcasterTwitchId: string,
                                         limit: nat): seq<JoinedMessage> {
    var mine := Filter(JoinUsers(messages, users), (j: JoinedMessage) => j.row.broadcasterTwitchId == Some(broadcasterTwitchId));
    Take(SortBy(mine, (j: JoinedMessage) => -j.row.createdAt), limit)
  }

  lemma GetRecentShape(messages: seq<MessageRow>, users: seq<UserRow>, broadcasterTwitchId: string, limit: nat)
    ensures var r := GetRecentMessagesWithUserData(messages, users, broadcasterTwitchId, limit);
            var n := |Filter(JoinUsers(messages, users), (j: JoinedMessage) => j.row.broadcasterTwitchId == Some(broadcasterTwitchId))|;
            && |r| <= limit
            && |r| == (if limit < n then limit else n)
            && (forall j :: j in r ==> j.row in messages && j.row.broadcasterTwitchId == Some(broadcasterTwitchId))
            && (forall i, k :: 0 <= i < k < |r| ==> r[i].row.createdAt >= r[k].row.createdAt)
  {
    var joined := JoinUsers(messages, users);
    JoinUsersMembers(messages, users);
    var p := (j: JoinedMessage) => j.row.broadcasterTwitchId == Some(broadcasterTwitchId);
    var mine := Filter(joined, p);
    var sorted := SortBy(mine, (j: JoinedMessage) => -j.row.createdAt);
    FilterMembers(joined, p);
    var r := Take(sorted, limit);
    assert |multiset(sorted)| == |multiset(mine)|;
    forall j | j in r ensures j.row in messages && p(j) {
      assert j in multiset(sorted);
    }
  }

  /** Joined rows of the broadcaster that are left out are no newer than any
      row returned: the query keeps the newest. */
  lemma GetRecentKeepsNewest(messages: seq<MessageRow>, users: seq<UserRow>, broadcasterTwitchId: string, limit: nat)
    ensures var sorted := SortBy(Filter(JoinUsers(messages, users),
                                        (j: JoinedMessage) => j.row.broadcasterTwitchId == Some(broadcasterTwitchId)),
                                 (j: JoinedMessage) => -j.row.createdAt);
            var r := GetRecentMessagesWithUserData(messages, users, broadcasterTwitchId, limit);
            forall i, k :: 0 <= i < |r| && |r| <= k < |sorted| ==> sorted[k].row.createdAt <= r[i].row.createdAt
  {
  }

  /** `getActiveStreamSettings`: the live rows, by `updated_at` ascending. */
  function GetActiveStreamSettings(settings: seq<SettingsRow>): seq<SettingsRow> {
    SortBy(Filter(settings, (s: SettingsRow) => s.isLive), (s: SettingsRow) => s.updatedAt)
  }

  lemma GetActiveStreamSettingsExact(settings: seq<SettingsRow>)
    ensures var r := GetActiveStreamSettings(settings);
            && (forall s :: s in r <==> s in settings && s.isLive)
            && (forall i, j :: 0 <= i < j < |r| ==> r[i].updatedAt <= r[j].updatedAt)
  {
    var live := Filter(settings, (s: SettingsRow) => s.isLive);
    FilterMembers(settings, (s: SettingsRow) => s.isLive);
    var r := GetActiveStreamSettings(settings);
    forall s ensures s in r <==> s in live {
      assert s in r <==> s in multiset(r);
      assert s in live <==> s in multiset(live);
    }
  }

  /** `.select().eq(column, value).single()`: the row when exactly one
      matches, otherwise nothing. */
  function Single<T>(rows: seq<T>, p: T -> bool): (r: Option<T>)
    ensures r.Some? <==> |Filter(rows, p)| == 1
  {
    var matching := Filter(rows, p);
    if |matching| == 1 then Some(matching[0]) else None
  }

  /** The row `Single` returns is a row of the table satisfying `p`. */
  lemma SingleFound<T>(rows: seq<T>, p: T -> bool)
    requires Single(rows, p).Some?
    ensures Single(rows, p).value in rows && p(Single(rows, p).value)
  {
    FilterMembers(rows, p);
    var matching := Filter(rows, p);
    assert matching[0] in matching;
  }

  /** The stream settings whose `platform_user_id` is the broadcaster. */
  function SettingsOf(settings: seq<SettingsRow>, platformUserId: string): Option<SettingsRow> {
    Single(settings, ForPlatformUser(platformUserId))
  }

  function ForPlatformUser(platformUserId: string): SettingsRow -> bool {
    (s: SettingsRow) => s.platformUserId == Some(platformUserId)
  }

  // ----- writes -----

  /** `update(f).eq(...)`: every row satisfying `p` is replaced by `f` of it. */
  function UpdateWhere(rows: seq<SettingsRow>, p: SettingsRow -> bool, f: SettingsRow -> SettingsRow): (r: seq<SettingsRow>)
    ensures |r| == |rows|
    ensures forall i :: 0 <= i < |rows| ==> r[i] == if p(rows[i]) then f(rows[i]) else rows[i]
  {
    seq(|rows|, i requires 0 <= i < |rows| => if p(rows[i]) then f(rows[i]) else rows[i])
  }

  /** An update that keeps every row's key keeps keys unique. */
  lemma UpdateKeepsKeysUnique(rows: seq<SettingsRow>, p: SettingsRow -> bool, f: SettingsRow -> SettingsRow)
    requires KeysUnique(rows)
    requires forall s :: f(s).userId == s.userId && f(s).platform == s.platform
    ensures KeysUnique(UpdateWhere(rows, p, f))
  {
  }

  /** `updateLastInteraction`: sets `updated_at` on the broadcaster's rows. */
  function TouchUpdatedAt(settings: seq<SettingsRow>, platformUserId: string, now: int): seq<SettingsRow> {
    UpdateWhere(settings, ForPlatformUser(platformUserId), (s: SettingsRow) => s.(updatedAt := now))
  }

  /** The `update({ last_interaction })` of the message services. */
  function SetLastInteraction(settings: seq<SettingsRow>, platformUserId: string, stamp: int): seq<SettingsRow> {
    UpdateWhere(settings, ForPlatformUser(platformUserId), (s: SettingsRow) => s.(lastInteraction := Some(stamp)))
  }

  /** After an update of the rows of `platformUserId` by an `f` that keeps
      `platform_user_id`, the settings the next lookup finds are `f` of the
      old ones for that broadcaster, and unchanged for every other. */
  lemma SettingsOfAfterUpdate(settings: seq<SettingsRow>, platformUserId: string, f: SettingsRow -> SettingsRow, key: string)
    requires forall s :: f(s).platformUserId == s.platformUserId
    ensures var before := SettingsOf(settings, key);
            var after := SettingsOf(UpdateWhere(settings, ForPlatformUser(platformUserId), f), key);
            && (before.None? <==> after.None?)
            && (before.Some? ==> after.value == if key == platformUserId then f(before.value) else before.value)
  {
    var p := ForPlatformUser(platformUserId);
    var q := ForPlatformUser(key);
    var g := (s: SettingsRow) => if p(s) then f(s) else s;
    assert UpdateWhere(settings, p, f) == Map(settings, g);
    FilterMap(settings, g, q);
    var matching := Filter(settings, q);
    if |matching| == 1 {
      FilterMembers(settings, q);
      assert matching[0] in matching;
    }
  }

  lemma TouchKeepsKeysUnique(settings: seq<SettingsRow>, platformUserId: string, now: int)
    requires KeysUnique(settings)
    ensures KeysUnique(TouchUpdatedAt(settings, platformUserId, now))
  {
    UpdateKeepsKeysUnique(settings, ForPlatformUser(platformUserId), (s: SettingsRow) => s.(updatedAt := now));
  }

  /** `updateLastInteraction` never changes `last_interaction`, which is the
      column every cooldown gate reads. */
  lemma TouchKeepsLastInteraction(settings: seq<SettingsRow>, platformUserId: string, now: int)
    ensures var r := TouchUpdatedAt(settings, platformUserId, now);
            |r| == |settings| && forall i :: 0 <= i < |r| ==> r[i].lastInteraction == settings[i].lastInteraction
  {
  }

  /** The upsert of `updateStreamStatus` on `(user_id, 'twitch')`. */
  function UpsertStatus(settings: seq<SettingsRow>, userId: string, platformUserId: string, isLive: bool,
                        now: int): seq<SettingsRow> {
    var key := (s: SettingsRow) => s.userId == userId && s.platform == Platform;
    if exists i :: 0 <= i < |settings| && key(settings[i]) then
      UpdateWhere(settings, key, (s: SettingsRow) => s.(isLive := isLive, platformUserId := Some(platformUserId)))
    else
      settings + [SettingsRow(userId, Platform, Some(platformUserId), isLive, None, now, None, None)]
  }

  /** The upsert keeps exactly one row for the key, carrying the new status,
      and leaves every other row as it was. */
  lemma UpsertStatusKeyed(settings: seq<SettingsRow>, userId: string, platformUserId: string, isLive: bool, now: int)
    requires KeysUnique(settings)
    ensures var r := UpsertStatus(settings, userId, platformUserId, isLive, now);
            && KeysUnique(r)
            && (exists i :: 0 <= i < |r| && r[i].userId == userId && r[i].platform == Platform
                                 && r[i].isLive == isLive && r[i].platformUserId == Some(platformUserId))
            && (forall i :: 0 <= i < |settings| && (settings[i].userId != userId || settings[i].platform != Platform)
                            ==> r[i] == settings[i])
            && (forall i :: 0 <= i < |settings| && settings[i].userId == userId && settings[i].platform == Platform
                            ==> r[i] == settings[i].(isLive := isLive, platformUserId := Some(platformUserId)))
            && ((forall i :: 0 <= i < |settings| ==> settings[i].userId != userId || settings[i].platform != Platform)
                ==> r == settings + [SettingsRow(userId, Platform, Some(platformUserId), isLive, None, now, None, None)])
            && |settings| <= |r| <= |settings| + 1
  {
    var key := (s: SettingsRow) => s.userId == userId && s.platform == Platform;
    var r := UpsertStatus(settings, userId, platformUserId, isLive, now);
    if exists i :: 0 <= i < |settings| && key(settings[i]) {
      var i :| 0 <= i < |settings| && key(settings[i]);
      assert r[i].isLive == isLive;
      UpdateKeepsKeysUnique(settings, key, (s: SettingsRow) => s.(isLive := isLive, platformUserId := Some(platformUserId)));
    } else {
      assert r[|settings|].isLive == isLive;
    }
  }

  /** Calling `updateStreamStatus` again for the same user never adds a
      second row. */
  lemma UpsertStatusTwice(settings: seq<SettingsRow>, userId: string, platformUserId: string, a: bool, b: bool,
                          now1: int, now2: int)
    requires KeysUnique(settings)
    ensures var once := UpsertStatus(settings, userId, platformUserId, a, now1);
            |UpsertStatus(once, userId, platformUserId, b, now2)| == |once|
  {
    UpsertStatusKeyed(settings, userId, platformUserId, a, now1);
  }

  /** The `users` row of a Twitch account, when exactly one has that id. */
  function UserByTwitchId(users: seq<UserRow>, twitchUserId: string): Option<UserRow> {
    Single(users, (u: UserRow) => u.twitchUserId == Some(twitchUserId))
  }

  datatype Tables = Tables(messages: seq<MessageRow>, settings: seq<SettingsRow>, users: seq<UserRow>)

  class Database {
    var messages: seq<MessageRow>
    var settings: seq<SettingsRow>
    var users: seq<UserRow>

    ghost predicate Valid()
      reads this
    {
      KeysUnique(settings)
    }

    function Snapshot(): Tables
      reads this
    {
      Tables(messages, settings, users)
    }

    constructor (users: seq<UserRow>)
      ensures Valid() && Snapshot() == Tables([], [], users)
    {
      messages := [];
      settings := [];
      this.users := users;
    }

    /** `insertChatMessage`: a 'twitch' row whose `user_id` and
        `broadcaster_twitch_id` are both the broadcaster's id. */
    method InsertChatMessage(text: string, broadcasterUserId: string, chatterUserName: string, chatterUserId: string,
                             now: int)
      modifies this
      ensures messages == old(messages) + [ChatMessageRow(text, broadcasterUserId, chatterUserName, chatterUserId, now)]
      ensures settings == old(settings) && users == old(users)
    {
      messages := messages + [ChatMessageRow(text, broadcasterUserId, chatterUserName, chatterUserId, now)];
    }

    /** The `messages` insert of the message services. */
    method InsertMessage(row: MessageRow)
      modifies this
      ensures messages == old(messages) + [row]
      ensures settings == old(settings) && users == old(users)
    {
      messages := messages + [row];
    }

    /** `updateLastInteraction`; `TouchKeepsKeysUnique` says it keeps
        `Valid`. */
    method UpdateLastInteraction(platformUserId: string, now: int)
      modifies this
      ensures settings == TouchUpdatedAt(old(settings), platformUserId, now)
      ensures messages == old(messages) && users == old(users)
    {
      settings := TouchUpdatedAt(settings, platformUserId, now);
    }

    /** `update({ last_interaction: stamp }).eq('platform_user_id', ...)`. */
    method RecordInteraction(platformUserId: string, stamp: int)
      requires Valid()
      modifies this
      ensures Valid()
      ensures settings == SetLastInteraction(old(settings), platformUserId, stamp)
      ensures messages == old(messages) && users == old(users)
    {
      UpdateKeepsKeysUnique(settings, ForPlatformUser(platformUserId), (s: SettingsRow) => s.(lastInteraction := Some(stamp)));
      settings := SetLastInteraction(settings, platformUserId, stamp);
    }

    /** `updateStreamStatus`: fails when no single user has the Twitch id,
        otherwise upserts that user's Twitch settings row. */
    method UpdateStreamStatus(platformUserId: string, isLive: bool, now: int) returns (r: Option<UserRow>)
      requires Valid()
      modifies this
      ensures Valid()
      ensures r == UserByTwitchId(users, platformUserId)
      ensures r.None? ==> settings == old(settings)
      ensures r.Some? ==> settings == UpsertStatus(old(settings), r.value.id, platformUserId, isLive, now)
      ensures messages == old(messages) && users == old(users)
    {
      r := UserByTwitchId(users, platformUserId);
      if r.Some? {
        UpsertStatusKeyed(settings, r.value.id, platformUserId, isLive, now);
        settings := UpsertStatus(settings, r.value.id, platformUserId, isLive, now);
      }
    }
  }

  function ChatMessageRow(text: string, broadcasterUserId: string, chatterUserName: string, chatterUserId: string,
                          now: int): (row: MessageRow)
    ensures row.kind == Twitch && row.userId == broadcasterUserId && row.broadcasterTwitchId == Some(broadcasterUserId)
    ensures row.broadcasterUserId.None?
  {
    MessageRow(Some(text), Twitch, broadcasterUserId, Some(chatterUserId), Some(chatterUserName),
               Some(broadcasterUserId), None, now, now, None)
  }

  /** No row written by `insertChatMessage` is ever found by
      `getChatHistory`, which filters on the column the insert leaves empty. */
  lemma ChatHistoryMissesInsertedRows(rows: seq<MessageRow>, broadcasterUserId: string, limit: nat)
    requires forall m :: m in rows ==> m.broadcasterUserId.None?
    ensures GetChatHistory(rows, broadcasterUserId, limit) == []
  {
    GetChatHistoryShape(rows, broadcasterUserId, limit);
  }
}
