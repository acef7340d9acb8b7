# Dashboard ownership and authorization, modelled in Dafny

The dashboard of kwork_dashboard manages three tables: users, parsers (data
collectors) and clients (remote consumers holding an access token). A user
created through the `add_user` endpoint records its creator in `parent_id`.
The users made by the `initdb` and `adduser` commands have no parent. Users
hold roles by name, and the endpoints accept `root`, `admin` and
`moderator`. The JSON endpoints under `/dash/v1.0/` create, delete and
toggle rows. The user page lists the rows the logged-in user may see.

This project models those handlers over an in-memory directory. The
`Directory` class holds the tables as maps from id to row, plus the names in
the Role table. Each handler is a method that takes the id of the logged-in
user (the actor), applies the endpoint's role gate, and then changes the
maps as the handler changes the database. Each method's postcondition states
the reply and the complete new state. Lemmas about the functions that
specify `del_user` state what the deletion removes and what it leaves. The
constructor `Directory.InitDb` builds the tables `initdb` leaves. Every
handler contract holds from any state satisfying `Directory.Valid()`, not
only from states reachable from `InitDb`.

Files:

- `roles.dfy` (module `Roles`): role names, the endpoints, each endpoint's
  accepted roles, and the gate as a set intersection.
- `tables.dfy` (module `Tables`): the row types, the ownership queries
  (children of a user, clients and parsers of owners), the table invariants,
  and the functions giving the tables after `del_user`.
- `dashboard.dfy` (module `Dashboard`): the `Directory` class and its
  handlers.
- `cascade_facts.dfy` (module `CascadeFacts`): lemmas about `del_user`'s
  effect.
- `scenarios.dfy` (module `Scenarios`): request sequences proved from the
  handlers' contracts alone: two runs from the `initdb` state, and the same
  delete sent twice.

`Directory.Valid()` is the invariant every handler keeps:

- ids are below the next id to be issued;
- a user's parent has a smaller id than the user;
- user names are unique;
- parser names are unique.

The two uniqueness guards are what keep the last two.

Points where the code behaves in a way one might not expect:

- an admin's user page lists the users it created, but not the admin itself;
- the `del_user` handler itself deletes only one level of users below the
  target. The users those children created, and the children's parsers, are
  not deleted by the handler. In the model they stay and keep the old parent
  or owner id, which no longer names a user in the table;
- `del_user` lets the user *named* `root` delete anyone. This is a name test
  (`Dashboard.RootName`), not a role test, and `initdb` creates no user of
  that name;
- the cascade commits row by row. The model covers the path where every
  commit succeeds and makes no claim of atomicity;
- the four client endpoints check the role only, not who owns the client;
- `del_parser` and `del_client` report success for a missing id;
- a missing target in `del_user`, `update_client_token` and
  `activ_deactiv_client`, and a target outside the actor's reach in
  `del_user`, make the handler raise before it answers. This is `ServerError`
  in the model.
- a request the role gate turns away is `Forbidden`. The user page's own 404
  branch cannot be reached, because its gate admits only root, admin and
  moderator, and each of these is handled by an earlier branch.

## Model

| member | source | states |
|---|---|---|
| `Roles.Accepted` | app/dashboard/routes.py:40 | every endpoint's accepted list names root and admin and no role outside root, admin and moderator, and it names moderator exactly for the user page, add_user and the four client endpoints (the decorators at routes.py:40, 128, 190, 269, 304, 354, 386, 422, 454 and 488) |
| `Roles.Admits` | app/dashboard/routes.py:128 | a `roles_accepted` gate lets an actor through exactly when some role it holds is in the accepted list |
| `Roles.RootAndAdminPassEveryGate` | app/dashboard/routes.py:40-488 | every endpoint's accepted list contains both root and admin, so an actor holding either passes every gate |
| `Roles.ModeratorGates` | app/dashboard/routes.py:40-488 | an actor whose only privileged role is moderator passes the gates of the user page, add_user and the four client endpoints, and no other |
| `Roles.UnprivilegedPassesNoGate` | app/dashboard/routes.py:40-488 | an actor holding none of root, admin and moderator passes no gate |
| `Dashboard.MayDelete` | app/dashboard/routes.py:212 | del_user's own check passes for any target when the actor is the user named `root`, and otherwise exactly when the target is one of the users the actor created |
| `Dashboard.Directory.InitDb` | app/__init__.py:31-58 | the `initdb` state: roles admin and moderator, and two active users `admin` and `moderator`, each holding the role of its name and neither with a parent; no parsers and no clients; the invariant holds |
| `Dashboard.Directory.UserPage` | app/dashboard/routes.py:38-72 | only gated actors get a page. Root sees every user, parser and client. An admin sees exactly the users whose parent is the admin, exactly its own parsers, and exactly the clients whose owner is one of those users. It never sees itself or a user created by its children. Anyone else gated in sees no users, no parsers and exactly its own clients |
| `Dashboard.Directory.AddUser` | app/dashboard/routes.py:126-184 | a taken user name fails with nothing written. Otherwise a new user with a fresh id is added, its parent is the actor, and it holds the requested role if the Role table has it and no role if not (still a success). Names stay unique |
| `Dashboard.Directory.DelUser` | app/dashboard/routes.py:188-264 | a missing target, or an actor not called `root` that did not create the target, leaves every table unchanged. Otherwise the tables become `CascadeUsers`, `CascadeParsers` and `CascadeClients` of the old tables |
| `Dashboard.Directory.DeleteChildren` | app/dashboard/routes.py:216-233 | the first loop of del_user removes each given child's clients and then the child, and nothing else |
| `Dashboard.Directory.DeleteParsers` | app/dashboard/routes.py:235-243 | the parser loop of del_user removes exactly the given parsers |
| `Dashboard.Directory.DeleteClients` | app/dashboard/routes.py:245-254 | the client loop of del_user removes exactly the given clients |
| `Dashboard.Directory.ActivDeactivUser` | app/dashboard/routes.py:267-299 | the actor itself (same name, so same user) and a missing target are refused with nothing changed. Otherwise only the target's active flag flips |
| `Dashboard.Directory.AddParser` | app/dashboard/routes.py:302-349 | a taken parser name fails with nothing written. Otherwise a parser with a fresh id, the given name and token, owned by the actor, is added. Parser names stay unique |
| `Dashboard.Directory.DelParser` | app/dashboard/routes.py:352-381 | after the gate, the parser table loses exactly the row with the given id, and the reply is a success even when no such row existed |
| `Dashboard.Directory.AddClient` | app/dashboard/routes.py:384-417 | with no name check, a client with a fresh id, owned by the actor, is added |
| `Dashboard.Directory.DelClient` | app/dashboard/routes.py:420-449 | after the gate, the client table loses exactly the row with the given id, whoever owns it, and a missing id is still a success |
| `Dashboard.Directory.UpdateClientToken` | app/dashboard/routes.py:452-483 | a missing client is a server error with nothing changed. Otherwise only that client's expiry changes, and the reply carries the new expiry |
| `Dashboard.Directory.ActivDeactivClient` | app/dashboard/routes.py:486-521 | a missing client is a server error with nothing changed. Otherwise only that client's active flag flips |
| `Tables.SameNameSameUser` | app/dashboard/routes.py:287 | while names are unique, the by-name self check of activ_deactiv_user is a by-id check |
| `Tables.CascadeUsers` | app/dashboard/routes.py:216-264 | after del_user, a user is left exactly when it is neither the target nor a user the target created, and every user left keeps its row |
| `Tables.CascadeParsers` | app/dashboard/routes.py:235-243 | after del_user, a parser is left exactly when the target does not own it, and every parser left keeps its row |
| `Tables.CascadeClients` | app/dashboard/routes.py:216-254 | after del_user, a client is left exactly when its owner is neither the target nor a user the target created, and every client left keeps its row |
| `CascadeFacts.CascadeUserCount` | app/dashboard/routes.py:216-264 | deleting a user removes one row plus one row per user it created |
| `CascadeFacts.CascadeClientCount` | app/dashboard/routes.py:216-254 | deleting a user removes as many clients as it owns plus as many as the users it created own |
| `CascadeFacts.CascadeSparesGrandchildren` | app/dashboard/routes.py:216-233 | the handler does not delete a user created by a child of the target; in the model it survives with its old parent id, which names a deleted user |
| `CascadeFacts.CascadeOrphansChildParsers` | app/dashboard/routes.py:235-243 | the handler does not delete the parsers of a deleted child; in the model they survive with their old owner id, which names a deleted user |
| `CascadeFacts.CascadeLeavesNoClientOfVictim` | app/dashboard/routes.py:216-254 | no surviving client is owned by a user the cascade deleted |
| `Scenarios.DelParserTwice` | app/dashboard/routes.py:352-381 | from any valid directory, a second del_parser with the same id gets the same answer as the first and leaves the tables as one request leaves them |
| `Scenarios.DelClientTwice` | app/dashboard/routes.py:420-449 | from any valid directory, a second del_client with the same id gets the same answer as the first and leaves the tables as one request leaves them |
| `CascadeFacts.CascadeKeepsInvariants` | app/dashboard/routes.py:206-264 | parents still precede children, and user and parser names are still unique, after the cascade |

## Left out

- Commit failures and their rollback branches (routes.py:158-165, 172-179, 222-262, 289-294, 333-341, 373-379, 406-413, 441-447, 475-481, 511-516). Every commit is taken to succeed. Because `del_user` commits each row separately, a failure part-way leaves the rows already deleted. The model makes no atomicity claim.
- Dashboard.Directory.AddParser: the step after the insert, where a `None` from `to_dict_with_data` turns the reply into a failure, is not modelled. That method lives in app/models.py, which is not part of this model.
- Dashboard.Directory.AddClient: the new client's active flag is taken to be true. The column default lives in app/models.py, which is not part of this model.
- Dashboard.Directory.UpdateClientToken: the renewed expiry is a parameter. It stands for what `update_token_expiration` computes from the count and the clock (app/models.py, not part of this model). A count that `int` cannot parse is not modelled.
- Tokens are opaque strings passed in by the caller. `get_token` and its randomness are in app/models.py, which is not part of this model.
- New ids come from counters that only grow. The database's own id assignment, including any reuse of freed ids, is not modelled.
- Password hashing (routes.py:155) is a library call and is left out. So is the password field.
- Login and session handling are left out. The actor is the id of an existing user, and the role gate is the set intersection in `Roles.Admits`.
- Rendering, redirects, the JSON envelope's `url`/`method`/`error` strings, `get_index_page`, `get_parser_page` and the 404/500 handlers (routes.py:25-117) are presentation. The reply keeps the success flag and a failure kind. Its payload is not the source's: add_user, add_parser and add_client answer with the new row's id instead of its `to_dict` record (routes.py:181, 343, 410), update_client_token answers with the new expiry alone, and the client name that activ_deactiv_client puts in `resp_data` (routes.py:506) is dropped.
- Relationship cascades and foreign-key settings declared in app/models.py, which is not part of this model. A delete in the model removes exactly the rows the handler deletes, and surviving users and parsers keep their old parent and owner ids even when those name a deleted user. If the database nulls or deletes such rows, the model does not capture it.
- Concurrency and transaction isolation between requests: nothing in the code addresses them.
- `initdb`'s commit failures, and the `adduser` command (app/__init__.py:61-76). `adduser` makes a user with no parent and no role and checks no name, so a database it has touched may break `UniqueUserNames`. The model takes unique user names as part of the starting state.
- The commented-out counter endpoints (routes.py:524-640).
