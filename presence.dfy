/**
 * The roster of the other participants in the room, keyed by connection id,
 * and the map updates the canvas page applies to it.
 */
module Presence {

  /** What the page keeps per remote participant: display name, colour and
      the last cursor position reported for them. */
  datatype Participant = Participant(name: string, color: string, x: real, y: real)

  /** One entry of a users-list message from the server. */
  datatype UserInfo = UserInfo(id: string, name: string, color: string)

  type Roster = map<string, Participant>

  /** addRemoteUser: insert or overwrite the entry for `id`, cursor at the origin. */
  function WithUser(m: Roster, id: string, name: string, color: string): (r: Roster)
    ensures r.Keys == m.Keys + {id}
    ensures r[id] == Participant(name, color, 0.0, 0.0)
    ensures forall k :: k in m && k != id ==> r[k] == m[k]
    ensures |r| == if id in m then |m| else |m| + 1
  {
    m[id := Participant(name, color, 0.0, 0.0)]
  }

  /** removeRemoteUser: drop the entry for `id`, if any. */
  function WithoutUser(m: Roster, id: string): (r: Roster)
    ensures r.Keys == m.Keys - {id}
    ensures forall k :: k in r ==> r[k] == m[k]
    ensures |r| == if id in m then |m| - 1 else |m|
  {
    m - {id}
  }

  /** remote-cursor-move: move the cursor of `id` only if `id` is known. */
  function WithCursor(m: Roster, id: string, x: real, y: real): (r: Roster)
    ensures r.Keys == m.Keys
    ensures id in m ==> r[id] == m[id].(x := x, y := y)
    ensures forall k :: k in m && k != id ==> r[k] == m[k]
  {
    if id in m then m[id := m[id].(x := x, y := y)] else m
  }

  /** The ids a users-list message adds: every listed id except our own. */
  function ListedIds(users: seq<UserInfo>, selfId: string): (ids: set<string>)
    ensures forall i :: 0 <= i < |users| && users[i].id != selfId ==> users[i].id in ids
    ensures forall id :: id in ids ==> exists i :: 0 <= i < |users| && users[i].id == id
    ensures selfId !in ids
    decreases |users|
  {
    if users == [] then {}
    else
      var u := users[|users| - 1];
      ListedIds(users[..|users| - 1], selfId) + (if u.id != selfId then {u.id} else {})
  }

  /** users-list: add every listed user in order, skipping our own socket id. */
  function WithUsers(m: Roster, users: seq<UserInfo>, selfId: string): (r: Roster)
    ensures r.Keys == m.Keys + ListedIds(users, selfId)
    decreases |users|
  {
    if users == [] then m
    else
      var u := users[|users| - 1];
      var r' := WithUsers(m, users[..|users| - 1], selfId);
      if u.id != selfId then WithUser(r', u.id, u.name, u.color) else r'
  }

  /** Our own id never enters the roster through a users-list message. */
  lemma WithUsersSkipsSelf(m: Roster, users: seq<UserInfo>, selfId: string)
    requires selfId !in m
    ensures selfId !in WithUsers(m, users, selfId)
  {
  }

  /** A listed user ends up with the name and colour of the LAST entry that
      lists its id, and a reset cursor. */
  lemma {:induction false} WithUsersLastEntryWins(m: Roster, users: seq<UserInfo>, selfId: string, k: nat)
    requires k < |users| && users[k].id != selfId
    requires forall j :: k < j < |users| ==> users[j].id != users[k].id
    ensures var r := WithUsers(m, users, selfId);
      users[k].id in r && r[users[k].id] == Participant(users[k].name, users[k].color, 0.0, 0.0)
    decreases |users|
  {
    if k < |users| - 1 {
      WithUsersLastEntryWins(m, users[..|users| - 1], selfId, k);
    }
  }

  /** An entry whose id is not listed is left as it was. */
  lemma {:induction false} WithUsersKeepsUnlisted(m: Roster, users: seq<UserInfo>, selfId: string, id: string)
    requires id in m
    requires forall j :: 0 <= j < |users| ==> users[j].id != id
    ensures WithUsers(m, users, selfId)[id] == m[id]
    decreases |users|
  {
    if users != [] {
      WithUsersKeepsUnlisted(m, users[..|users| - 1], selfId, id);
    }
  }
}
