/**
 * What a completed del_user does to the tables, stated about the functions
 * that `Dashboard.Directory.DelUser` is proved to implement.
 */
module CascadeFacts {

  import opened Tables

  /** Taking a subset of keys out of a map shrinks it by exactly that many rows. */
  lemma RemoveSubsetCount<K, V>(m: map<K, V>, s: set<K>)
    requires s <= m.Keys
    ensures |m - s| == |m| - |s|
  {
    assert (m - s).Keys + s == m.Keys;
  }

  /** The deleted user is never one of its own children. */
  lemma NotOwnChild(users: Users, t: UserId)
    requires ParentsPrecede(users)
    ensures t !in Children(users, t)
  {
  }

  /** Deleting user `t` removes one row plus one row per user `t` created. */
  lemma CascadeUserCount(users: Users, t: UserId)
    requires t in users && ParentsPrecede(users)
    ensures |CascadeUsers(users, t)| == |users| - 1 - |Children(users, t)|
  {
    NotOwnChild(users, t);
    RemoveSubsetCount(users, CascadeVictims(users, t));
  }

  /**
   * Deleting user `t` removes as many clients as `t` owns plus as many as
   * the users it created own, and no other client.
   */
  lemma CascadeClientCount(users: Users, clients: Clients, t: UserId)
    requires ParentsPrecede(users)
    ensures |CascadeClients(users, clients, t)| ==
      |clients| - |ClientsOf(clients, {t})| - |ClientsOf(clients, Children(users, t))|
  {
    var kids := Children(users, t);
    var own, theirs := ClientsOf(clients, {t}), ClientsOf(clients, kids);
    NotOwnChild(users, t);
    assert ClientsOf(clients, CascadeVictims(users, t)) == own + theirs;
    assert own * theirs == {};
    assert |own + theirs| + |own * theirs| == |own| + |theirs|;
    RemoveSubsetCount(clients, own + theirs);
  }

  /**
   * The handler's cascade goes one level deep: a user created by a child of
   * `t` survives, keeping its old parent id, which names no user left in the
   * table.
   */
  lemma CascadeSparesGrandchildren(users: Users, t: UserId, g: UserId)
    requires ParentsPrecede(users)
    requires g in users && users[g].parentId.Some? && users[g].parentId.value in Children(users, t)
    ensures g in CascadeUsers(users, t)
    ensures users[g].parentId.value !in CascadeUsers(users, t)
  {
  }

  /**
   * The handler does not delete the parsers of a deleted child: they stay,
   * keeping their old owner id, which names no user left in the table.
   */
  lemma CascadeOrphansChildParsers(users: Users, parsers: Parsers, t: UserId, p: ParserId)
    requires ParentsPrecede(users)
    requires p in parsers && parsers[p].owner in Children(users, t)
    ensures p in CascadeParsers(parsers, t)
    ensures parsers[p].owner !in CascadeUsers(users, t)
  {
  }

  /**
   * After the cascade no client is left whose owner was deleted: every
   * surviving client's owner is a surviving user or was never a user.
   */
  lemma CascadeLeavesNoClientOfVictim(users: Users, clients: Clients, t: UserId, c: ClientId)
    requires c in CascadeClients(users, clients, t)
    ensures clients[c].owner in users ==> clients[c].owner in CascadeUsers(users, t)
  {
  }

  /** The invariants of the User and Parser tables survive the cascade. */
  lemma CascadeKeepsInvariants(users: Users, parsers: Parsers, t: UserId)
    requires ParentsPrecede(users) && UniqueUserNames(users) && UniqueParserNames(parsers)
    ensures ParentsPrecede(CascadeUsers(users, t))
    ensures UniqueUserNames(CascadeUsers(users, t))
    ensures UniqueParserNames(CascadeParsers(parsers, t))
  {
  }
}
