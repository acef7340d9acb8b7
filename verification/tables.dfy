/**
 * The three tables the dashboard works on (users, parsers, clients), kept in
 * memory as maps from row id to row, and the ownership queries the handlers
 * run against them.
 */
module Tables {

  type UserId = nat
  type ParserId = nat
  type ClientId = nat

  datatype Option<+T> = None | Some(value: T)

  /** A row of the User table; `parentId` is the id of the user who created it. */
  datatype User = User(name: string, parentId: Option<UserId>, roles: set<string>, active: bool)

  /** A row of the Parser table; `token` is the opaque credential issued for it. */
  datatype Parser = Parser(name: string, owner: UserId, token: string)

  /** A row of the Client table; `expiry` is the token's expiration, kept abstract. */
  datatype Client = Client(name: string, owner: UserId, token: string, expiry: int, active: bool)

  type Users = map<UserId, User>
  type Parsers = map<ParserId, Parser>
  type Clients = map<ClientId, Client>

  // ---------------------------------------------------------------------------
  // Queries
  // ---------------------------------------------------------------------------

  /** `User.query.filter_by(parent_id = t)`: the users created directly by `t`. */
  function Children(users: Users, t: UserId): set<UserId>
  {
    set u | u in users && users[u].parentId == Some(t)
  }

  /** The clients whose owner is one of `owners`. */
  function ClientsOf(clients: Clients, owners: set<UserId>): set<ClientId>
  {
    set c | c in clients && clients[c].owner in owners
  }

  /** `Parser.query.filter_by(user_id = owner)`: the parsers owned by `owner`. */
  function ParsersOf(parsers: Parsers, owner: UserId): set<ParserId>
  {
    set p | p in parsers && parsers[p].owner == owner
  }

  /** `User.query.filter_by(name = name).first()` finds a row. */
  predicate UserNameTaken(users: Users, name: string)
  {
    exists u :: u in users && users[u].name == name
  }

  /** `Parser.query.filter_by(name = name).first()` finds a row. */
  predicate ParserNameTaken(parsers: Parsers, name: string)
  {
    exists p :: p in parsers && parsers[p].name == name
  }

  // ---------------------------------------------------------------------------
  // Invariants of the tables
  // ---------------------------------------------------------------------------

  /** A user's creator was created before it, so its id is smaller. */
  ghost predicate ParentsPrecede(users: Users)
  {
    forall u :: u in users && users[u].parentId.Some? ==> users[u].parentId.value < u
  }

  /** No two users share a name. */
  ghost predicate UniqueUserNames(users: Users)
  {
    forall u, v :: u in users && v in users && users[u].name == users[v].name ==> u == v
  }

  /** No two parsers share a name. */
  ghost predicate UniqueParserNames(parsers: Parsers)
  {
    forall p, q :: p in parsers && q in parsers && parsers[p].name == parsers[q].name ==> p == q
  }

  /** While user names are unique, comparing two users by name is comparing them by id. */
  lemma SameNameSameUser(users: Users, a: UserId, b: UserId)
    requires UniqueUserNames(users) && a in users && b in users
    ensures users[a].name == users[b].name <==> a == b
  {
  }

  // ---------------------------------------------------------------------------
  // What a completed del_user leaves behind
  // ---------------------------------------------------------------------------

  /** The users del_user removes: the target and the users it created directly. */
  function CascadeVictims(users: Users, t: UserId): set<UserId>
  {
    {t} + Children(users, t)
  }

  /**
   * The User table after deleting `t`: a user survives exactly when it is
   * neither `t` nor created by `t`, and survivors keep their rows.
   */
  function CascadeUsers(users: Users, t: UserId): (rest: Users)
    ensures forall u :: u in rest <==> u in users && u != t && users[u].parentId != Some(t)
    ensures forall u :: u in rest ==> rest[u] == users[u]
  {
    users - CascadeVictims(users, t)
  }

  /**
   * The Parser table after deleting `t`: a parser survives exactly when `t`
   * does not own it, and survivors keep their rows.
   */
  function CascadeParsers(parsers: Parsers, t: UserId): (rest: Parsers)
    ensures forall p :: p in rest <==> p in parsers && parsers[p].owner != t
    ensures forall p :: p in rest ==> rest[p] == parsers[p]
  {
    parsers - ParsersOf(parsers, t)
  }

  /**
   * The Client table after deleting `t`: a client survives exactly when its
   * owner is neither `t` nor a user `t` created, and survivors keep their rows.
   */
  function CascadeClients(users: Users, clients: Clients, t: UserId): (rest: Clients)
    ensures forall c :: c in rest <==>
      && c in clients
      && clients[c].owner != t
      && !(clients[c].owner in users && users[clients[c].owner].parentId == Some(t))
    ensures forall c :: c in rest ==> rest[c] == clients[c]
  {
    clients - ClientsOf(clients, CascadeVictims(users, t))
  }

  // ---------------------------------------------------------------------------
  // Deleting rows in steps
  // ---------------------------------------------------------------------------

  /** Removing two sets of keys one after the other removes their union. */
  lemma RemoveMore<K, V>(m: map<K, V>, a: set<K>, b: set<K>)
    ensures (m - a) - b == m - (a + b)
  {
  }

  /**
   * Deleting the clients of `done` and then, from what is left, the clients
   * of `more`, deletes the clients of both.
   */
  lemma DropOwnedStep(c0: Clients, done: set<UserId>, more: set<UserId>)
    ensures var rest := c0 - ClientsOf(c0, done);
            rest - ClientsOf(rest, more) == c0 - ClientsOf(c0, done + more)
  {
    var rest := c0 - ClientsOf(c0, done);
    assert ClientsOf(c0, done) + ClientsOf(rest, more) == ClientsOf(c0, done + more);
    RemoveMore(c0, ClientsOf(c0, done), ClientsOf(rest, more));
  }
}
