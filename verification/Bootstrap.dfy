/** bootstrapDatabase: check, then create, while others do the same. */
module Bootstrap {
  import opened Wrappers
  import opened Sql

  const DUPLICATE_OBJECT := "42710"
  const DUPLICATE_DATABASE := "42P04"

  datatype SqlError = PgError(code: string) | OtherError

  predicate IsAlreadyExists(err: SqlError) {
    err.PgError? && (err.code == DUPLICATE_OBJECT || err.code == DUPLICATE_DATABASE)
  }

  /** duplicate_object and duplicate_database, and not the catalogue's own unique_violation. */
  lemma AlreadyExistsCodes()
    ensures IsAlreadyExists(PgError("42710")) && IsAlreadyExists(PgError("42P04"))
    ensures !IsAlreadyExists(PgError("23505")) && !IsAlreadyExists(OtherError)
  {
    assert "23505"[0] == '2';
  }

  /** Why a call fails although the server could have answered it: it was not carried
      out, or it was but the connection broke before its answer. */
  datatype Failure = NotRun(err: SqlError) | AnswerLost

  /** Around one call: what other creators make just before it, and whether it fails. */
  datatype Moment = Moment(roles: map<string, string>, databases: map<string, string>, failure: Option<Failure>)

  type Script = nat -> Moment

  /** The server says "already exists" of nothing but what exists. */
  ghost predicate Honest(script: Script) {
    forall i :: script(i).failure.Some? && script(i).failure.value.NotRun?
                ==> !IsAlreadyExists(script(i).failure.value.err)
  }

  ghost predicate Undisturbed(script: Script, i: nat, j: nat) {
    forall k | i <= k < j :: script(k).failure.None?
  }

  /** Call i is not carried out. */
  predicate Skipped(script: Script, i: nat) {
    script(i).failure.Some? && script(i).failure.value.NotRun?
  }

  datatype Statement = CreateRole(name: string) | CreateDatabase(name: string)

  /** The server's roles with their passwords, and its databases with their owners. */
  class PgServer {
    var roles: map<string, string>
    var databases: map<string, string>
    var calls: nat
    var log: seq<Statement>
    const script: Script

    constructor (script: Script)
      ensures roles == map[] && databases == map[] && calls == 0 && log == [] && this.script == script
    {
      this.script := script;
      roles, databases, calls, log := map[], map[], 0, [];
    }

    /** Others create what does not exist yet. */
    ghost predicate OthersActed(before: map<string, string>, after: map<string, string>, made: map<string, string>) {
      after == made + before
    }

    method RoleExists(name: string) returns (found: bool, err: Option<SqlError>)
      modifies this`roles, this`databases, this`calls
      ensures calls == old(calls) + 1
      ensures OthersActed(old(roles), roles, script(old(calls)).roles)
      ensures OthersActed(old(databases), databases, script(old(calls)).databases)
      ensures err.Some? <==> script(old(calls)).failure.Some?
      ensures err.None? ==> (found <==> name in roles)
    {
      Interleave();
      found := name in roles;
      err := ErrorOf(script(calls - 1).failure);
    }

    method DatabaseExists(name: string) returns (found: bool, err: Option<SqlError>)
      modifies this`roles, this`databases, this`calls
      ensures calls == old(calls) + 1
      ensures OthersActed(old(roles), roles, script(old(calls)).roles)
      ensures OthersActed(old(databases), databases, script(old(calls)).databases)
      ensures err.Some? <==> script(old(calls)).failure.Some?
      ensures err.None? ==> (found <==> name in databases)
    {
      Interleave();
      found := name in databases;
      err := ErrorOf(script(calls - 1).failure);
    }

    method Interleave()
      modifies this`roles, this`databases, this`calls
      ensures calls == old(calls) + 1
      ensures OthersActed(old(roles), roles, script(old(calls)).roles)
      ensures OthersActed(old(databases), databases, script(old(calls)).databases)
    {
      roles := script(calls).roles + roles;
      databases := script(calls).databases + databases;
      calls := calls + 1;
    }

    function ErrorOf(failure: Option<Failure>): Option<SqlError> {
      match failure
      case None => None
      case Some(NotRun(err)) => Some(err)
      case Some(AnswerLost) => Some(OtherError)
    }

    /** CREATE ROLE name LOGIN PASSWORD literal. */
    method ExecCreateRole(name: string, literal: string) returns (err: Option<SqlError>)
      requires Lex(literal).Some?
      requires Honest(script)
      modifies this
      ensures calls == old(calls) + 1 && log == old(log) + [CreateRole(name)]
      ensures OthersActed(old(databases), databases, script(old(calls)).databases)
      ensures var before := script(old(calls)).roles + old(roles);
              roles == (if name in before || Skipped(script, old(calls))
                        then before else before[name := Lex(literal).value.0])
      ensures err.None? || IsAlreadyExists(err.value) <==> script(old(calls)).failure.None?
      ensures script(old(calls)).failure.None? ==> name in roles
    {
      Interleave();
      log := log + [CreateRole(name)];
      err := ErrorOf(script(calls - 1).failure);
      if err.Some? && script(calls - 1).failure.value.NotRun? {
        return;
      }
      if name !in roles {
        roles := roles[name := Lex(literal).value.0];
      } else if err.None? {
        err := Some(PgError(DUPLICATE_OBJECT));
      }
    }

    /** CREATE DATABASE name OWNER owner. */
    method ExecCreateDatabase(name: string, owner: string) returns (err: Option<SqlError>)
      requires Honest(script) && owner in roles
      modifies this
      ensures calls == old(calls) + 1 && log == old(log) + [CreateDatabase(name)]
      ensures OthersActed(old(roles), roles, script(old(calls)).roles)
      ensures var before := script(old(calls)).databases + old(databases);
              databases == (if name in before || Skipped(script, old(calls))
                            then before else before[name := owner])
      ensures err.None? || IsAlreadyExists(err.value) <==> script(old(calls)).failure.None?
      ensures script(old(calls)).failure.None? ==> name in databases
    {
      Interleave();
      log := log + [CreateDatabase(name)];
      err := ErrorOf(script(calls - 1).failure);
      if err.Some? && script(calls - 1).failure.value.NotRun? {
        return;
      }
      if name !in databases {
        databases := databases[name := owner];
      } else if err.None? {
        err := Some(PgError(DUPLICATE_DATABASE));
      }
    }
  }

  /** Somebody else made the role, or the database, in calls i to j. */
  ghost predicate RoleMade(script: Script, i: nat, j: nat, name: string) {
    exists k | i <= k < j :: name in script(k).roles
  }

  ghost predicate DatabaseMade(script: Script, i: nat, j: nat, name: string) {
    exists k | i <= k < j :: name in script(k).databases
  }

  /** The first half of bootstrapDatabase. */
  method EnsureRole(server: PgServer, role: string, password: string) returns (err: Option<SqlError>)
    requires Honest(server.script)
    modifies server
    ensures server.calls > old(server.calls)
    ensures err.None? <==> Undisturbed(server.script, old(server.calls), server.calls)
    ensures err.None? ==> role in server.roles
    ensures old(server.roles.Keys) <= server.roles.Keys && old(server.databases.Keys) <= server.databases.Keys
    ensures server.log == old(server.log) || server.log == old(server.log) + [CreateRole(role)]
    ensures role in old(server.roles) ==> server.log == old(server.log)
    ensures err.None? && role !in old(server.roles) && !RoleMade(server.script, old(server.calls), server.calls, role)
            ==> server.roles[role] == password
    ensures forall d <- server.databases ::
              d in old(server.databases) || DatabaseMade(server.script, old(server.calls), server.calls, d)
  {
    var roleExists, e := server.RoleExists(role);
    if e.Some? || roleExists {
      return e;
    }
    QuotedAtTheEnd(password);
    e := server.ExecCreateRole(role, QuoteLiteral(password));
    return if e.Some? && IsAlreadyExists(e.value) then None else e;
  }

  /** The second half. */
  method EnsureDatabase(server: PgServer, role: string, dbname: string) returns (err: Option<SqlError>)
    requires Honest(server.script) && role in server.roles
    modifies server
    ensures server.calls > old(server.calls)
    ensures err.None? <==> Undisturbed(server.script, old(server.calls), server.calls)
    ensures err.None? ==> dbname in server.databases
    ensures old(server.databases.Keys) <= server.databases.Keys
    ensures forall r <- old(server.roles) :: r in server.roles && server.roles[r] == old(server.roles)[r]
    ensures server.log == old(server.log) || server.log == old(server.log) + [CreateDatabase(dbname)]
    ensures dbname in old(server.databases) ==> server.log == old(server.log)
    ensures err.None? && dbname !in old(server.databases)
            && !DatabaseMade(server.script, old(server.calls), server.calls, dbname)
            ==> server.databases[dbname] == role
  {
    var dbExists, e := server.DatabaseExists(dbname);
    if e.Some? || dbExists {
      return e;
    }
    e := server.ExecCreateDatabase(dbname, role);
    return if e.Some? && IsAlreadyExists(e.value) then None else e;
  }

  /** bootstrapDatabase succeeds exactly when none of its calls fails, whatever others
      create meanwhile, and then role and database exist. A role nobody else made has
      the given password, a database nobody else made has the role as owner. */
  method BootstrapDatabase(server: PgServer, role: string, dbname: string, password: string)
    returns (err: Option<SqlError>)
    requires Honest(server.script)
    modifies server
    ensures err.None? <==> Undisturbed(server.script, old(server.calls), server.calls)
    ensures err.None? ==> role in server.roles && dbname in server.databases
    ensures old(server.roles.Keys) <= server.roles.Keys && old(server.databases.Keys) <= server.databases.Keys
    ensures role in old(server.roles) && dbname in old(server.databases) ==> server.log == old(server.log)
    ensures err.None? && role !in old(server.roles) && !RoleMade(server.script, old(server.calls), server.calls, role)
            ==> server.roles[role] == password
    ensures err.None? && dbname !in old(server.databases)
            && !DatabaseMade(server.script, old(server.calls), server.calls, dbname)
            ==> server.databases[dbname] == role
  {
    err := EnsureRole(server, role, password);
    if err.None? {
      err := EnsureDatabase(server, role, dbname);
    }
  }

  /** A rerun after success creates nothing, even if it fails. */
  method BootstrapTwice(server: PgServer, role: string, dbname: string, password: string)
    returns (first: Option<SqlError>, second: Option<SqlError>, ghost between: seq<Statement>)
    requires Honest(server.script)
    modifies server
    ensures first.None? ==> server.log == between && role in server.roles && dbname in server.databases
  {
    first := BootstrapDatabase(server, role, dbname, password);
    between := server.log;
    second := BootstrapDatabase(server, role, dbname, password);
  }
}
