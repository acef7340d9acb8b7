/**
 * The dashboard's request handlers, run against an in-memory directory.
 *
 * Each handler is a method of `Directory` that takes the id of the logged-in
 * user (the actor). It first applies the endpoint's role gate and then does
 * what the handler does to the tables. Every commit is taken to succeed.
 */
module Dashboard {

  import opened Tables
  import Roles

  /** Why a request did not succeed. */
  datatype Failure =
    | Forbidden      // the role gate turned the actor away
    | NotFound       // the user page's 404
    | DuplicateName  // the uniqueness guard of add_user or add_parser fired
    | CannotToggle   // activ_deactiv_user refused: missing target, or the actor itself
    | ServerError    // the handler raised before answering (an internal error page)

  /** The answer of a request: the `success` flag and, on success, the payload. */
  datatype Reply<+T> = Ok(data: T) | Err(why: Failure)

  /** What the user page lists. */
  datatype View = View(users: set<UserId>, parsers: set<ParserId>, clients: set<ClientId>)

  /**
   * The user name del_user singles out. It is compared with the actor's name,
   * not with its roles, so it is a different thing from `Roles.RootRole`.
   */
  const RootName: string := "root"

  /**
   * del_user's own check: the actor is the user called `root`, who may delete
   * anyone, or else the target is one of the users the actor created.
   */
  predicate MayDelete(users: Users, actor: UserId, target: UserId): (ok: bool)
    requires actor in users && target in users
    ensures users[actor].name == RootName ==> ok
    ensures users[actor].name != RootName ==> (ok <==> target in Children(users, actor))
  {
    users[actor].name == RootName || users[target].parentId == Some(actor)
  }

  class Directory {
    var users: Users
    var parsers: Parsers
    var clients: Clients
    /** The names in the Role table. */
    var roleNames: set<string>
    /** The ids the next insert into each table receives. */
    var nextUser: UserId
    var nextParser: ParserId
    var nextClient: ClientId

    ghost predicate Valid()
      reads this
    {
      && (forall u :: u in users ==> u < nextUser)
      && (forall p :: p in parsers ==> p < nextParser)
      && (forall c :: c in clients ==> c < nextClient)
      && ParentsPrecede(users)
      && UniqueUserNames(users)
      && UniqueParserNames(parsers)
    }

    /** Whether `actor` passes the role gate of endpoint `e`. */
    predicate Admitted(actor: UserId, e: Roles.Endpoint)
      reads this`users
      requires actor in users
    {
      Roles.EndpointAdmits(e, users[actor].roles)
    }

    /**
     * The tables the `initdb` command leaves: the roles `admin` and
     * `moderator`, and two active users of the same names, each holding the
     * role of its name and neither with a parent. There is no `root` role.
     * Ids start at 1, as the database issues them.
     */
    constructor InitDb()
      ensures Valid()
      ensures users == map[
        1 := User("admin", None, {Roles.AdminRole}, true),
        2 := User("moderator", None, {Roles.ModeratorRole}, true)]
      ensures parsers == map[] && clients == map[]
      ensures roleNames == {Roles.AdminRole, Roles.ModeratorRole}
      ensures nextUser == 3 && nextParser == 1 && nextClient == 1
    {
      users := map[
        1 := User("admin", None, {Roles.AdminRole}, true),
        2 := User("moderator", None, {Roles.ModeratorRole}, true)];
      parsers := map[];
      clients := map[];
      roleNames := {Roles.AdminRole, Roles.ModeratorRole};
      nextUser, nextParser, nextClient := 3, 1, 1;
    }

    // -------------------------------------------------------------------------
    // GET /user/<id>
    // -------------------------------------------------------------------------

    /**
     * The listing of the user page. Root sees every row; an admin sees the
     * users it created, its own parsers and the clients of the users it
     * created; a moderator sees its own clients.
     */
    method UserPage(actor: UserId) returns (r: Reply<View>)
      requires Valid() && actor in users
      ensures r.Ok? <==> Admitted(actor, Roles.UserPageRoute)
      ensures r.Err? ==> r.why == Forbidden
      ensures r.Ok? && Roles.RootRole in users[actor].roles ==>
        r.data == View(users.Keys, parsers.Keys, clients.Keys)
      ensures r.Ok? && Roles.RootRole !in users[actor].roles && Roles.AdminRole in users[actor].roles ==>
        && (forall u :: u in r.data.users <==> u in users && users[u].parentId == Some(actor))
        && (forall p :: p in r.data.parsers <==> p in parsers && parsers[p].owner == actor)
        && (forall c :: c in r.data.clients <==>
              c in clients && clients[c].owner in users && users[clients[c].owner].parentId == Some(actor))
      ensures r.Ok? && Roles.RootRole !in users[actor].roles && Roles.AdminRole !in users[actor].roles ==>
        && r.data.users == {} && r.data.parsers == {}
        && (forall c :: c in r.data.clients <==> c in clients && clients[c].owner == actor)
      // the admin's listing holds neither the admin itself nor the users its children created
      ensures r.Ok? && Roles.RootRole !in users[actor].roles ==>
        && actor !in r.data.users
        && forall g :: g in r.data.users ==> users[g].parentId.value !in r.data.users
    {
      var roles := users[actor].roles;
      if !Admitted(actor, Roles.UserPageRoute) {
        return Err(Forbidden);
      }
      if Roles.RootRole in roles {
        r := Ok(View(users.Keys, parsers.Keys, clients.Keys));
      } else if Roles.AdminRole in roles {
        var children := Children(users, actor);
        var owned := ParsersOf(parsers, actor);
        var shown: set<ClientId> := {};
        var pending := clients.Keys;
        while pending != {}
          invariant pending <= clients.Keys
          invariant forall c :: c in shown <==>
            c in clients && c !in pending && clients[c].owner in children
          decreases pending
        {
          var c :| c in pending;
          if clients[c].owner in children {
            shown := shown + {c};
          }
          pending := pending - {c};
        }
        r := Ok(View(children, owned, shown));
      } else if Roles.ModeratorRole in roles {
        r := Ok(View({}, {}, ClientsOf(clients, {actor})));
      } else {
        r := Err(NotFound);
      }
    }

    // -------------------------------------------------------------------------
    // POST /dash/v1.0/add_user
    // -------------------------------------------------------------------------

    /**
     * Creates user `name` as a child of the actor. A taken name is refused
     * with nothing written; the requested role is attached only when the Role
     * table holds it, and an unknown role still succeeds, with no role.
     */
    method AddUser(actor: UserId, name: string, role: string) returns (r: Reply<UserId>)
      requires Valid() && actor in users
      modifies this`users, this`nextUser
      ensures Valid()
      ensures !old(Admitted(actor, Roles.AddUserRoute)) ==> r == Err(Forbidden)
      ensures old(Admitted(actor, Roles.AddUserRoute)) && UserNameTaken(old(users), name) ==>
        r == Err(DuplicateName)
      ensures r.Err? ==> users == old(users) && nextUser == old(nextUser)
      ensures r.Ok? <==> old(Admitted(actor, Roles.AddUserRoute)) && !UserNameTaken(old(users), name)
      ensures r.Ok? ==>
        && r.data == old(nextUser) && r.data !in old(users) && nextUser == r.data + 1
        && users == old(users)[r.data := User(name, Some(actor), if role in roleNames then {role} else {}, true)]
    {
      if !Admitted(actor, Roles.AddUserRoute) {
        return Err(Forbidden);
      }
      if UserNameTaken(users, name) {
        return Err(DuplicateName);
      }
      var id := nextUser;
      users := users[id := User(name, Some(actor), {}, true)];
      nextUser := nextUser + 1;
      if role in roleNames {
        users := users[id := users[id].(roles := {role})];
      }
      r := Ok(id);
    }

    // -------------------------------------------------------------------------
    // POST /dash/v1.0/del_user
    // -------------------------------------------------------------------------

    /**
     * Deletes user `target`, when the actor is called `root` or created the
     * target. The clients of each user the target created are deleted, then
     * that user; then the target's parsers, its clients, and the target.
     * Users further down, and the parsers of the deleted children, stay.
     */
    method DelUser(actor: UserId, target: UserId) returns (r: Reply<()>)
      requires Valid() && actor in users
      modifies this`users, this`parsers, this`clients
      ensures Valid()
      ensures !old(Admitted(actor, Roles.DelUserRoute)) ==> r == Err(Forbidden)
      ensures old(Admitted(actor, Roles.DelUserRoute)) && (target !in old(users) || !MayDelete(old(users), actor, target)) ==>
        r == Err(ServerError)
      ensures r.Err? ==> users == old(users) && parsers == old(parsers) && clients == old(clients)
      ensures r.Ok? <==>
        old(Admitted(actor, Roles.DelUserRoute)) && target in old(users) && MayDelete(old(users), actor, target)
      ensures r.Ok? ==>
        && users == CascadeUsers(old(users), target)
        && parsers == CascadeParsers(old(parsers), target)
        && clients == CascadeClients(old(users), old(clients), target)
    {
      if !Admitted(actor, Roles.DelUserRoute) {
        return Err(Forbidden);
      }
      if target !in users {
        return Err(ServerError);
      }
      if users[actor].name != RootName && users[target].parentId != Some(actor) {
        return Err(ServerError);
      }
      ghost var users0, clients0 := users, clients;
      var moderators := Children(users, target);
      DeleteChildren(moderators);
      DeleteParsers(ParsersOf(parsers, target));
      ghost var clients1 := clients;
      DeleteClients(ClientsOf(clients, {target}));
      DropOwnedStep(clients0, moderators, {target});
      users := users - {target};
      RemoveMore(users0, moderators, {target});
      assert moderators + {target} == CascadeVictims(users0, target);
      r := Ok(());
    }

    // -------------------------------------------------------------------------
    // POST /dash/v1.0/activ_deactiv_user
    // -------------------------------------------------------------------------

    /**
     * Flips the active flag of user `target`. The target is compared with the
     * actor by name; a missing target and the actor itself are both refused.
     * There is no check that the actor created the target.
     */
    method ActivDeactivUser(actor: UserId, target: UserId) returns (r: Reply<()>)
      requires Valid() && actor in users
      modifies this`users
      ensures Valid()
      ensures !old(Admitted(actor, Roles.ActivDeactivUserRoute)) ==> r == Err(Forbidden)
      ensures old(Admitted(actor, Roles.ActivDeactivUserRoute)) && (target !in old(users) || target == actor) ==>
        r == Err(CannotToggle)
      ensures r.Ok? <==>
        old(Admitted(actor, Roles.ActivDeactivUserRoute)) && target in old(users) && target != actor
      ensures r.Err? ==> users == old(users)
      ensures r.Ok? ==>
        users == old(users)[target := old(users)[target].(active := !old(users)[target].active)]
    {
      if !Admitted(actor, Roles.ActivDeactivUserRoute) {
        return Err(Forbidden);
      }
      if target in users && users[target].name != users[actor].name {
        users := users[target := users[target].(active := !users[target].active)];
        r := Ok(());
      } else {
        r := Err(CannotToggle);
      }
    }

    // -------------------------------------------------------------------------
    // POST /dash/v1.0/add_parser
    // -------------------------------------------------------------------------

    /**
     * Creates parser `name`, owned by the actor, with the freshly issued
     * `token`. A taken parser name is refused with nothing written.
     */
    method AddParser(actor: UserId, name: string, token: string) returns (r: Reply<ParserId>)
      requires Valid() && actor in users
      modifies this`parsers, this`nextParser
      ensures Valid()
      ensures !old(Admitted(actor, Roles.AddParserRoute)) ==> r == Err(Forbidden)
      ensures old(Admitted(actor, Roles.AddParserRoute)) && ParserNameTaken(old(parsers), name) ==>
        r == Err(DuplicateName)
      ensures r.Err? ==> parsers == old(parsers) && nextParser == old(nextParser)
      ensures r.Ok? <==> old(Admitted(actor, Roles.AddParserRoute)) && !ParserNameTaken(old(parsers), name)
      ensures r.Ok? ==>
        && r.data == old(nextParser) && r.data !in old(parsers) && nextParser == r.data + 1
        && parsers == old(parsers)[r.data := Parser(name, actor, token)]
    {
      if !Admitted(actor, Roles.AddParserRoute) {
        return Err(Forbidden);
      }
      if ParserNameTaken(parsers, name) {
        return Err(DuplicateName);
      }
      var id := nextParser;
      parsers := parsers[id := Parser(name, actor, token)];
      nextParser := nextParser + 1;
      r := Ok(id);
    }

    // -------------------------------------------------------------------------
    // POST /dash/v1.0/del_parser
    // -------------------------------------------------------------------------

    /**
     * Deletes parser `id`. A missing id changes nothing and is still reported
     * as a success. Any parser may be deleted, whoever owns it.
     */
    method DelParser(actor: UserId, id: ParserId) returns (r: Reply<()>)
      requires Valid() && actor in users
      modifies this`parsers
      ensures Valid()
      ensures r.Ok? <==> old(Admitted(actor, Roles.DelParserRoute))
      ensures r.Err? ==> r == Err(Forbidden) && parsers == old(parsers)
      ensures r.Ok? ==> r == Ok(()) && parsers == old(parsers) - {id}
    {
      if !Admitted(actor, Roles.DelParserRoute) {
        return Err(Forbidden);
      }
      if id in parsers {
        parsers := parsers - {id};
      }
      r := Ok(());
    }

    // -------------------------------------------------------------------------
    // POST /dash/v1.0/add_client
    // -------------------------------------------------------------------------

    /**
     * Creates client `name`, owned by the actor, with the freshly issued
     * `token` and its `expiry`. Client names are not checked for uniqueness.
     */
    method AddClient(actor: UserId, name: string, token: string, expiry: int) returns (r: Reply<ClientId>)
      requires Valid() && actor in users
      modifies this`clients, this`nextClient
      ensures Valid()
      ensures r.Ok? <==> old(Admitted(actor, Roles.AddClientRoute))
      ensures r.Err? ==> r.why == Forbidden && clients == old(clients) && nextClient == old(nextClient)
      ensures r.Ok? ==>
        && r.data == old(nextClient) && r.data !in old(clients) && nextClient == r.data + 1
        && clients == old(clients)[r.data := Client(name, actor, token, expiry, true)]
    {
      if !Admitted(actor, Roles.AddClientRoute) {
        return Err(Forbidden);
      }
      var id := nextClient;
      clients := clients[id := Client(name, actor, token, expiry, true)];
      nextClient := nextClient + 1;
      r := Ok(id);
    }

    // -------------------------------------------------------------------------
    // POST /dash/v1.0/del_client
    // -------------------------------------------------------------------------

    /**
     * Deletes client `id`. A missing id changes nothing and is still reported
     * as a success. Any client may be deleted, whoever owns it.
     */
    method DelClient(actor: UserId, id: ClientId) returns (r: Reply<()>)
      requires Valid() && actor in users
      modifies this`clients
      ensures Valid()
      ensures r.Ok? <==> old(Admitted(actor, Roles.DelClientRoute))
      ensures r.Err? ==> r == Err(Forbidden) && clients == old(clients)
      ensures r.Ok? ==> r == Ok(()) && clients == old(clients) - {id}
    {
      if !Admitted(actor, Roles.DelClientRoute) {
        return Err(Forbidden);
      }
      if id in clients {
        clients := clients - {id};
      }
      r := Ok(());
    }

    // -------------------------------------------------------------------------
    // POST /dash/v1.0/update_client_token
    // -------------------------------------------------------------------------

    /**
     * Sets the token expiry of client `id` to `expiry`, the value the renewal
     * computes from the requested count and the clock, and answers with it.
     * A missing client makes the handler raise before it answers.
     */
    method UpdateClientToken(actor: UserId, id: ClientId, expiry: int) returns (r: Reply<int>)
      requires Valid() && actor in users
      modifies this`clients
      ensures Valid()
      ensures !old(Admitted(actor, Roles.UpdateClientTokenRoute)) ==> r == Err(Forbidden)
      ensures old(Admitted(actor, Roles.UpdateClientTokenRoute)) && id !in old(clients) ==> r == Err(ServerError)
      ensures r.Ok? <==> old(Admitted(actor, Roles.UpdateClientTokenRoute)) && id in old(clients)
      ensures r.Err? ==> clients == old(clients)
      ensures r.Ok? ==> r.data == expiry && clients == old(clients)[id := old(clients)[id].(expiry := expiry)]
    {
      if !Admitted(actor, Roles.UpdateClientTokenRoute) {
        return Err(Forbidden);
      }
      if id !in clients {
        return Err(ServerError);
      }
      clients := clients[id := clients[id].(expiry := expiry)];
      r := Ok(expiry);
    }

    // -------------------------------------------------------------------------
    // POST /dash/v1.0/activ_deactiv_client
    // -------------------------------------------------------------------------

    /**
     * Flips the active flag of client `id`. A missing client makes the handler
     * raise before it answers, so its "not found" reply is never sent.
     */
    method ActivDeactivClient(actor: UserId, id: ClientId) returns (r: Reply<()>)
      requires Valid() && actor in users
      modifies this`clients
      ensures Valid()
      ensures !old(Admitted(actor, Roles.ActivDeactivClientRoute)) ==> r == Err(Forbidden)
      ensures old(Admitted(actor, Roles.ActivDeactivClientRoute)) && id !in old(clients) ==> r == Err(ServerError)
      ensures r.Ok? <==> old(Admitted(actor, Roles.ActivDeactivClientRoute)) && id in old(clients)
      ensures r.Err? ==> clients == old(clients)
      ensures r.Ok? ==> clients == old(clients)[id := old(clients)[id].(active := !old(clients)[id].active)]
    {
      if !Admitted(actor, Roles.ActivDeactivClientRoute) {
        return Err(Forbidden);
      }
      if id !in clients {
        return Err(ServerError);
      }
      clients := clients[id := clients[id].(active := !clients[id].active)];
      r := Ok(());
    }

    // -------------------------------------------------------------------------
    // The steps of del_user
    // -------------------------------------------------------------------------

    /** The first loop of del_user: each child's clients, then the child. */
    method DeleteChildren(moderators: set<UserId>)
      modifies this`users, this`clients
      ensures users == old(users) - moderators
      ensures clients == old(clients) - ClientsOf(old(clients), moderators)
    {
      var pending := moderators;
      while pending != {}
        invariant pending <= moderators
        invariant users == old(users) - (moderators - pending)
        invariant clients == old(clients) - ClientsOf(old(clients), moderators - pending)
        decreases pending
      {
        var m :| m in pending;
        ghost var done := moderators - pending;
        DeleteClients(ClientsOf(clients, {m}));
        DropOwnedStep(old(clients), done, {m});
        RemoveMore(old(users), done, {m});
        users := users - {m};
        pending := pending - {m};
        assert moderators - pending == done + {m};
      }
    }

    /** Deletes the given parsers one at a time. */
    method DeleteParsers(doomed: set<ParserId>)
      modifies this`parsers
      ensures parsers == old(parsers) - doomed
    {
      var rest := doomed;
      while rest != {}
        invariant rest <= doomed
        invariant parsers == old(parsers) - (doomed - rest)
        decreases rest
      {
        var p :| p in rest;
        RemoveMore(old(parsers), doomed - rest, {p});
        parsers := parsers - {p};
        rest := rest - {p};
        assert doomed - rest == (doomed - (rest + {p})) + {p};
      }
    }

    /** Deletes the given clients one at a time. */
    method DeleteClients(doomed: set<ClientId>)
      modifies this`clients
      ensures clients == old(clients) - doomed
    {
      var rest := doomed;
      while rest != {}
        invariant rest <= doomed
        invariant clients == old(clients) - (doomed - rest)
        decreases rest
      {
        var c :| c in rest;
        RemoveMore(old(clients), doomed - rest, {c});
        clients := clients - {c};
        rest := rest - {c};
        assert doomed - rest == (doomed - (rest + {c})) + {c};
      }
    }
  }
}
