/** What founding a group makes of the cards its founder's packet carried. */
module Enrolment {
  import opened Bytes
  import opened Packets
  import opened Groups
  import opened GroupRuns
  import opened Users
  import opened Servers
  import opened ServerRuns
  import opened Membership
  import opened Fanouts
  import opened Rosters
  import opened Quotas

  /** The card of a registered member of a new group: the group's guid, the user's icon and name as they
      are registered, nothing sent yet, everything allowed, and the title of leader or member. */
  function FreshCard(g: Group, u: User): Member {
    Member(g.id, u.id, u.icon, 0, SEND_TO_GROUP, if u.id == g.leader then JOB_LEADER else JOB_MEMBER, u.name)
  }

  lemma {:induction false} EnrolledCard(g: Group, users: map<guid, User>, i: nat, n: Node)
    requires Linked(g) && UsersSane(users) && i <= |Visited(g, users.Keys)| && 0 <= n < |g.nodes|
    ensures Hit(g, users.Keys, i, n) ==> g.nodes[n].userGuid in users
    ensures Enroll(g, users, i).nodes[n]
         == if Hit(g, users.Keys, i, n) then FreshCard(g, users[g.nodes[n].userGuid]) else g.nodes[n]
  {
    hide Visited, VisitedNode, Linked;
    VisitedFacts(g, users.Keys);
    if i > 0 {
      EnrolledCard(g, users, i - 1, n);
      VisitedNodeFacts(g, users.Keys, i - 1);
      if VisitedNode(g, users.Keys, i - 1) == n {
        assert Hit(g, users.Keys, i, n);
      } else {
        assert Hit(g, users.Keys, i, n) <==> Hit(g, users.Keys, i - 1, n);
      }
    }
  }

  /** Founding a group, card by card: a member the traversal comes to gets a fresh card, whatever the
      packet said of him but his guid, and the others keep what was sent; guid, leader, order and roles
      are those of the packet. */
  lemma FoundedCards(s: Server, info: Group, now: int, fd: int)
    requires Defined(s, EGroupAdd(info, now, fd)) && Creates(s, info)
    ensures forall n :: 0 <= n < |info.nodes| && NodeReached(info, s.users.Keys, n) ==>
      info.nodes[n].userGuid in s.users
    ensures var s' := GroupAdd(s, info, now, fd);
      info.id in s'.groups && s'.groups == s.groups[info.id := s'.groups[info.id]]
      && var g := s'.groups[info.id];
      g == info.(nodes := g.nodes) && |g.nodes| == |info.nodes|
      && forall n :: 0 <= n < |info.nodes| ==>
        g.nodes[n] == if NodeReached(info, s.users.Keys, n) then FreshCard(info, s.users[info.nodes[n].userGuid])
                      else info.nodes[n]
  {
    CreatedGroups(s, info, now, fd);
    var k := |Visited(info, s.users.Keys)|;
    var g := Enroll(info, s.users, k);
    hide GroupAdd, Visited, Enroll, LogCounted, Points, Apart, Distinct, NodeReached, Hit, GroupsSane, FreshCard;
    forall n | 0 <= n < |info.nodes|
      ensures NodeReached(info, s.users.Keys, n) ==> info.nodes[n].userGuid in s.users
      ensures g.nodes[n]
        == if NodeReached(info, s.users.Keys, n) then FreshCard(info, s.users[info.nodes[n].userGuid])
           else info.nodes[n]
    {
      EnrolledCard(info, s.users, k, n);
      HitIsReached(info, s.users.Keys, n);
    }
  }
}
