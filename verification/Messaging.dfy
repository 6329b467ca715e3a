/** Friendships and messages: who may write to whom and read what. */
module Messaging {
  import opened Ids
  import opened History

  datatype Error =
    | SelfFriendship | FriendshipExists | FriendRequestNotFound | UserNotFound
    | DirectMessageNotAllowed | GroupMessageNotAllowed

  datatype Result<+T> = Ok(value: T) | Err(error: Error)

  class MessagingService {
    var users: set<UserId>
    /** friendships: (requester, addressee) to accepted. */
    var friendships: map<(UserId, UserId), bool>
    var members: set<(GroupId, UserId)>
    var messages: seq<Message>

    /** No row pairs a user with themselves, hence no direct message has one sender and
        recipient. */
    ghost predicate Valid()
      reads this
    {
      && (forall p <- friendships :: p.0 != p.1 && p.0 in users && p.1 in users)
      && (forall m <- messages :: m.Direct? ==> m.sender != m.recipient)
    }

    constructor (users: set<UserId>, members: set<(GroupId, UserId)>)
      ensures Valid() && friendships == map[] && messages == []
      ensures this.users == users && this.members == members
    {
      this.users, this.members := users, members;
      friendships, messages := map[], [];
    }

    method SendFriendRequest(requester: UserId, addressee: UserId) returns (r: Result<()>)
      requires Valid()
      modifies `friendships
      ensures Valid()
      ensures r.Ok? <==> requester != addressee && requester in users && addressee in users
                         && (requester, addressee) !in old(friendships)
      ensures friendships == if r.Ok? then old(friendships)[(requester, addressee) := false] else old(friendships)
    {
      if requester == addressee {
        return Err(SelfFriendship);
      }
      if (requester, addressee) in friendships {
        return Err(FriendshipExists);
      }
      if requester !in users || addressee !in users {
        return Err(UserNotFound);
      }
      friendships := friendships[(requester, addressee) := false];
      return Ok(());
    }

    method AcceptFriendRequest(addressee: UserId, requester: UserId) returns (r: Result<()>)
      requires Valid()
      modifies `friendships
      ensures Valid()
      ensures r.Ok? <==> (requester, addressee) in old(friendships)
      ensures friendships == if r.Ok? then old(friendships)[(requester, addressee) := true] else old(friendships)
    {
      if (requester, addressee) !in friendships {
        return Err(FriendRequestNotFound);
      }
      friendships := friendships[(requester, addressee) := true];
      return Ok(());
    }

    method RemoveFriendship(a: UserId, b: UserId) returns (r: Result<()>)
      requires Valid()
      modifies `friendships
      ensures Valid()
      ensures r.Ok? <==> (a, b) in old(friendships) || (b, a) in old(friendships)
      ensures friendships == old(friendships) - {(a, b), (b, a)}
    {
      if (a, b) !in friendships && (b, a) !in friendships {
        assert friendships == friendships - {(a, b), (b, a)};
        return Err(FriendRequestNotFound);
      }
      friendships := friendships - {(a, b), (b, a)};
      return Ok(());
    }

    /** The row in either direction; with one in each, LIMIT 1 returns either. */
    method GetFriendshipStatus(a: UserId, b: UserId) returns (row: Option<(UserId, UserId)>)
      ensures row.None? <==> (a, b) !in friendships && (b, a) !in friendships
      ensures row.Some? ==> row.value in friendships && row.value in {(a, b), (b, a)}
    {
      var candidates := set p | p in {(a, b), (b, a)} && p in friendships;
      if candidates == {} {
        assert (a, b) !in candidates && (b, a) !in candidates;
        return None;
      }
      var p :| p in candidates;
      return Some(p);
    }

    /** Some row between a and b is accepted; all of them are. */
    ghost predicate SomeAccepted(a: UserId, b: UserId)
      reads this
    {
      ((a, b) in friendships && friendships[(a, b)]) || ((b, a) in friendships && friendships[(b, a)])
    }

    ghost predicate AllAccepted(a: UserId, b: UserId)
      reads this
    {
      && SomeAccepted(a, b)
      && ((a, b) in friendships ==> friendships[(a, b)])
      && ((b, a) in friendships ==> friendships[(b, a)])
    }

    method SendDirectMessage(id: MessageId, sender: UserId, recipient: UserId, now: int) returns (r: Result<Message>)
      requires Valid()
      modifies `messages
      ensures Valid()
      ensures AllAccepted(sender, recipient) ==> r.Ok?
      ensures r.Ok? ==> SomeAccepted(sender, recipient) && r.value == Direct(id, sender, recipient, now)
      ensures r.Err? ==> r.error == DirectMessageNotAllowed
      ensures messages == if r.Ok? then old(messages) + [r.value] else old(messages)
    {
      var row := GetFriendshipStatus(sender, recipient);
      if row.None? || !friendships[row.value] {
        return Err(DirectMessageNotAllowed);
      }
      var dm := Direct(id, sender, recipient, now);
      messages := messages + [dm];
      return Ok(dm);
    }

    /** m is a direct message between a and b, in whichever direction, before the cutoff. */
    predicate IsBetween(m: Message, a: UserId, b: UserId, cutoff: int) {
      m.Direct? && m.createdAt < cutoff
      && ((m.sender == a && m.recipient == b) || (m.sender == b && m.recipient == a))
    }

    /** page holds stored rows only, as often as they are stored at most, and what it leaves
        out of those that qualify is no later than anything in it; it leaves out none unless
        it has `limit` rows. */
    ghost predicate IsPageOf(qualifies: Message -> bool, limit: nat, page: seq<Message>)
      reads this
    {
      && |page| <= limit && Descending(page)
      && (forall m <- page :: qualifies(m) && multiset(page)[m] <= multiset(messages)[m])
      && forall m <- messages :: qualifies(m) && multiset(page)[m] < multiset(messages)[m] ==>
           |page| == limit && forall i | 0 <= i < |page| :: m.createdAt <= page[i].createdAt
    }

    lemma PageOfConversation(a: UserId, b: UserId, cutoff: int, limit: nat, page: seq<Message>)
      requires IsLatest(multiset(BothWays(messages, a, b, cutoff)), limit, page)
      ensures IsPageOf(m => IsBetween(m, a, b, cutoff), limit, page)
    {
      var rows := multiset(BothWays(messages, a, b, cutoff));
      forall m ensures rows[m] == if IsBetween(m, a, b, cutoff) then multiset(messages)[m] else 0 {
        BothWaysCount(messages, a, b, cutoff, m);
      }
      forall m <- page ensures IsBetween(m, a, b, cutoff) && multiset(page)[m] <= multiset(messages)[m] {
        assert m in multiset(page);
      }
      forall m <- messages | IsBetween(m, a, b, cutoff) && multiset(page)[m] < multiset(messages)[m]
        ensures |page| == limit && forall i | 0 <= i < |page| :: m.createdAt <= page[i].createdAt
      {
        LeftOutIsOlder(rows, limit, page, m);
      }
    }

    lemma PageOfTimeline(group: GroupId, cutoff: int, limit: nat, page: seq<Message>)
      requires IsLatest(multiset(Older(messages, Timeline(group), cutoff)), limit, page)
      ensures IsPageOf((m: Message) => m.ToGroup? && m.group == group && m.createdAt < cutoff, limit, page)
    {
      var rows := multiset(Older(messages, Timeline(group), cutoff));
      forall m: Message ensures rows[m] ==
          if m.ToGroup? && m.group == group && m.createdAt < cutoff then multiset(messages)[m] else 0
      {
        TimelineCount(messages, group, cutoff, m);
      }
      forall m <- page
        ensures m.ToGroup? && m.group == group && m.createdAt < cutoff && multiset(page)[m] <= multiset(messages)[m]
      {
        assert m in multiset(page);
      }
      forall m <- messages
        | m.ToGroup? && m.group == group && m.createdAt < cutoff && multiset(page)[m] < multiset(messages)[m]
        ensures |page| == limit && forall i | 0 <= i < |page| :: m.createdAt <= page[i].createdAt
      {
        LeftOutIsOlder(rows, limit, page, m);
      }
    }

    /** The page is the latest `limit` messages of the two users before the cutoff,
        though each direction is cut to `limit` before they are merged. */
    method GetDmHistory(actor: UserId, recipient: UserId, before: Option<int>, now: int, limit: nat)
      returns (r: Result<seq<Message>>)
      requires Valid()
      ensures AllAccepted(actor, recipient) ==> r.Ok?
      ensures r.Ok? ==> SomeAccepted(actor, recipient)
      ensures r.Ok? ==> IsLatest(
                multiset(BothWays(messages, actor, recipient, if before.Some? then before.value else now)), limit, r.value)
      ensures r.Ok? ==>
        var cutoff := if before.Some? then before.value else now;
        IsPageOf(m => IsBetween(m, actor, recipient, cutoff), limit, r.value)
      ensures r.Err? ==> r.error == DirectMessageNotAllowed
    {
      var cutoff := if before.Some? then before.value else now;
      var row := GetFriendshipStatus(actor, recipient);
      if row.None? || !friendships[row.value] {
        return Err(DirectMessageNotAllowed);
      }
      var there := Latest(OneWay(messages, actor, recipient, cutoff), limit);
      var back := Latest(OneWay(messages, recipient, actor, cutoff), limit);
      var page := Latest(there + back, limit);
      LatestIsLatest(OneWay(messages, actor, recipient, cutoff), limit);
      LatestIsLatest(OneWay(messages, recipient, actor, cutoff), limit);
      LatestIsLatest(there + back, limit);
      assert multiset(there + back) == multiset(there) + multiset(back);
      assert actor != recipient;
      ConversationIsLatest(messages, actor, recipient, cutoff, limit, page);
      PageOfConversation(actor, recipient, cutoff, limit, page);
      return Ok(page);
    }

    method SendGroupMessage(id: MessageId, sender: UserId, group: GroupId, now: int) returns (r: Result<Message>)
      requires Valid()
      modifies `messages
      ensures Valid()
      ensures r == if (group, sender) in members then Ok(ToGroup(id, group, sender, now)) else Err(GroupMessageNotAllowed)
      ensures messages == if r.Ok? then old(messages) + [r.value] else old(messages)
    {
      if (group, sender) !in members {
        return Err(GroupMessageNotAllowed);
      }
      var msg := ToGroup(id, group, sender, now);
      messages := messages + [msg];
      return Ok(msg);
    }

    method GetGroupHistory(actor: UserId, group: GroupId, before: Option<int>, now: int, limit: nat)
      returns (r: Result<seq<Message>>)
      ensures r.Ok? <==> (group, actor) in members
      ensures r.Ok? ==> IsLatest(
                multiset(Older(messages, Timeline(group), if before.Some? then before.value else now)),
                limit, r.value)
      ensures r.Ok? ==>
        var cutoff := if before.Some? then before.value else now;
        IsPageOf((m: Message) => m.ToGroup? && m.group == group && m.createdAt < cutoff, limit, r.value)
      ensures r.Err? ==> r.error == GroupMessageNotAllowed
    {
      var cutoff := if before.Some? then before.value else now;
      if (group, actor) !in members {
        return Err(GroupMessageNotAllowed);
      }
      var rows := Older(messages, Timeline(group), cutoff);
      LatestIsLatest(rows, limit);
      PageOfTimeline(group, cutoff, limit, Latest(rows, limit));
      return Ok(Latest(rows, limit));
    }
  }
}
