/**
 * Request sequences against a directory, proved from the handlers'
 * contracts alone.
 */
module Scenarios {

  import opened Tables
  import Roles
  import opened Dashboard

  /**
   * Starting from `initdb`, user `admin` (id 1) creates moderator M, M
   * creates client C1, and `admin` deletes M: M and C1 are gone, and the two
   * `initdb` users stay.
   */
  method DeleteModeratorScenario()
  {
    var d := new Directory.InitDb();
    Roles.RootAndAdminPassEveryGate(Roles.AddUserRoute, {Roles.AdminRole});
    assert !UserNameTaken(d.users, "M");
    var m := d.AddUser(1, "M", Roles.ModeratorRole);
    assert m == Ok(3);
    assert d.users[3] == User("M", Some(1), {Roles.ModeratorRole}, true);

    Roles.ModeratorGates(Roles.AddClientRoute, {Roles.ModeratorRole});
    var c1 := d.AddClient(3, "C1", "token-1", 10);
    assert c1 == Ok(1) && d.clients[1].owner == 3;

    Roles.RootAndAdminPassEveryGate(Roles.DelUserRoute, {Roles.AdminRole});
    assert 3 in Children(d.users, 1);
    var del := d.DelUser(1, 3);
    assert del.Ok?;
    assert 3 !in d.users && 1 !in d.clients;
    assert 1 in d.users && 2 in d.users;
  }

  /**
   * The `initdb` moderator deletes a client that user `admin` owns: the
   * client endpoints check the role only, not ownership.
   */
  method ForeignClientScenario()
  {
    var d := new Directory.InitDb();
    Roles.RootAndAdminPassEveryGate(Roles.AddClientRoute, {Roles.AdminRole});
    var c := d.AddClient(1, "C2", "token", 5);
    assert c == Ok(1) && d.clients[1].owner == 1;

    Roles.ModeratorGates(Roles.DelClientRoute, {Roles.ModeratorRole});
    var r := d.DelClient(2, 1);
    assert r.Ok? && 1 !in d.clients;
  }

  /**
   * Sending del_parser twice with the same id, from any valid directory:
   * the second request gets the same answer as the first, and the tables
   * end as one request leaves them.
   */
  method DelParserTwice(d: Directory, actor: UserId, id: ParserId) returns (first: Reply<()>, second: Reply<()>)
    requires d.Valid() && actor in d.users
    modifies d
    ensures d.Valid()
    ensures second == first
    ensures first.Ok? <==> old(d.Admitted(actor, Roles.DelParserRoute))
    ensures d.parsers == if first.Ok? then old(d.parsers) - {id} else old(d.parsers)
    ensures d.users == old(d.users) && d.clients == old(d.clients)
  {
    first := d.DelParser(actor, id);
    second := d.DelParser(actor, id);
  }

  /**
   * Sending del_client twice with the same id, from any valid directory:
   * the second request gets the same answer as the first, and the tables
   * end as one request leaves them.
   */
  method DelClientTwice(d: Directory, actor: UserId, id: ClientId) returns (first: Reply<()>, second: Reply<()>)
    requires d.Valid() && actor in d.users
    modifies d
    ensures d.Valid()
    ensures second == first
    ensures first.Ok? <==> old(d.Admitted(actor, Roles.DelClientRoute))
    ensures d.clients == if first.Ok? then old(d.clients) - {id} else old(d.clients)
    ensures d.users == old(d.users) && d.parsers == old(d.parsers)
  {
    first := d.DelClient(actor, id);
    second := d.DelClient(actor, id);
  }
}
