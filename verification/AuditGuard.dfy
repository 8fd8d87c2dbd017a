/**
 * The audit backstop: the privilege program and the triggers that together keep
 * the audit tables append-only.
 */
module AuditGuard {
  import opened Common

  const GUARDED_TABLES := ["audit_events", "audit_integrity_checkpoints"]

  predicate IsGuarded(table: string) {
    table in GUARDED_TABLES
  }

  // ---- Role names -----------------------------------------------------------------

  predicate IsNameHead(c: char) {
    'A' <= c <= 'Z' || 'a' <= c <= 'z' || c == '_'
  }

  /** `assertAuditRoleName` */
  predicate IsRoleName(role: string) {
    && 1 <= |role| <= 63 && IsNameHead(role[0])
    && forall i :: 1 <= i < |role| ==> IsNameHead(role[i]) || '0' <= role[i] <= '9'
  }

  function Lower(c: char): char {
    if 'A' <= c <= 'Z' then c + ' ' else c
  }

  /** An identifier that is not quoted names the lower-case role. */
  function Folded(role: string): (r: string)
    ensures |r| == |role| && forall i :: 0 <= i < |role| ==> r[i] == Lower(role[i])
  {
    if role == "" then "" else [Lower(role[0])] + Folded(role[1..])
  }

  // ---- Privileges -----------------------------------------------------------------

  datatype Privilege = SELECT | INSERT | UPDATE | DELETE | TRUNCATE | REFERENCES | TRIGGER

  datatype Grantee = Public | Role(name: string)

  /** What one grantor has given one grantee on one table, and which of it may be passed on. */
  datatype Held = Held(can: set<Privilege>, mayGrant: set<Privilege>)

  const NOTHING := Held({}, {})

  /**
   * The session and its grammar: the executing role, the owner of the tables
   * (whose grants the session's GRANT and REVOKE make and take back), and the
   * key words that cannot stand unquoted for a role.
   */
  datatype Server = Server(me: string, owner: string, reserved: set<string>)

  /** What the catalogue says: the roles, the tables, and who gave whom what on which table. */
  datatype Catalog = Catalog(
    server: Server,
    roles: set<string>,
    tables: set<string>,
    grants: map<(string, Grantee, string), Held>,
    defaults: map<Grantee, set<Privilege>>,
    schemaUsers: set<Grantee>,
    sequenceUsers: set<Grantee>,
    sequenceDefaults: set<Grantee>)

  /** Key words the grammar reads as the executing role. */
  const SPECIAL_ROLES := {"current_user", "current_role", "session_user"}

  /** Whom an unquoted role name stands for; nobody, if it does not parse. */
  function Named(server: Server, spelled: string): Option<Grantee> {
    var name := Folded(spelled);
    if name == "public" then Some(Public)
    else if name in SPECIAL_ROLES then Some(Role(server.me))
    else if name in server.reserved then None
    else Some(Role(name))
  }

  /** An unquoted name that stands for the role of that very name, whoever executes. */
  predicate IsPlain(reserved: set<string>, role: string) {
    && Folded(role) == role && role !in reserved && role != "public"
    && role != "current_user" && role != "current_role" && role != "session_user"
  }

  function On(c: Catalog, grantor: string, who: Grantee, table: string): Held {
    if (grantor, who, table) in c.grants then c.grants[(grantor, who, table)] else NOTHING
  }

  /** What a role that owns nothing and is in no other role may do to a table, whoever granted it. */
  function Effective(c: Catalog, role: string, table: string): set<Privilege> {
    set key, p | key in c.grants && key.1 in {Role(role), Public} && key.2 == table && p in c.grants[key].can :: p
  }

  lemma EffectiveIs(c: Catalog, role: string, table: string, p: Privilege)
    ensures p in Effective(c, role, table) <==>
      exists grantor :: p in On(c, grantor, Role(role), table).can || p in On(c, grantor, Public, table).can
  {
    forall key | key in c.grants && key.1 in {Role(role), Public} && key.2 == table && p in c.grants[key].can
      ensures p in On(c, key.0, key.1, table).can
    {
      assert key == (key.0, key.1, table);
    }
    forall grantor | p in On(c, grantor, Role(role), table).can || p in On(c, grantor, Public, table).can
      ensures p in Effective(c, role, table)
    {
      var who := if p in On(c, grantor, Role(role), table).can then Role(role) else Public;
      assert (grantor, who, table) in c.grants;
    }
  }

  /** The name after TO or FROM as it stands in the text of the statement, unquoted. */
  datatype Statement =
    | GrantSchemaUsage(to: string)
    | GrantAllTables(privileges: set<Privilege>, to: string)
    | GrantAllSequences(to: string)
    | RevokeAll(table: string, to: string)
    | GrantTable(privileges: set<Privilege>, table: string, to: string)
    | DefaultTables(privileges: set<Privilege>, to: string)
    | DefaultSequences(to: string)

  predicate Knows(c: Catalog, who: Grantee) {
    who.Public? || who.name in c.roles
  }

  /**
   * The role has passed on a privilege that it may pass on only by the owner's
   * leave: a REVOKE that does not cascade refuses to take that leave away.
   */
  predicate HasDependents(c: Catalog, who: Grantee, table: string) {
    && who.Role? && who.name != c.server.owner
    && exists key | key in c.grants && key.0 == who.name && key.2 == table ::
         exists p | p in c.grants[key].can && p in On(c, c.server.owner, who, table).mayGrant ::
           forall other | other in c.grants && other.1 == who && other.2 == table && other.0 != c.server.owner ::
             p !in c.grants[other].mayGrant
  }

  predicate CanRun(c: Catalog, s: Statement) {
    var who := Named(c.server, s.to);
    && who.Some? && Knows(c, who.value)
    && (s.RevokeAll? || s.GrantTable? ==> s.table in c.tables)
    && (s.RevokeAll? ==> !HasDependents(c, who.value, s.table))
  }

  function SetOn(c: Catalog, who: Grantee, table: string, held: Held): Catalog {
    c.(grants := c.grants[(c.server.owner, who, table) := held])
  }

  function More(held: Held, privileges: set<Privilege>): Held {
    held.(can := held.can + privileges)
  }

  function GrantedOnAll(c: Catalog, privileges: set<Privilege>, who: Grantee): Catalog {
    var owner := c.server.owner;
    c.(grants := map k: (string, Grantee, string) |
         k in c.grants.Keys + (set t | t in c.tables :: (owner, who, t)) ::
           if k.0 == owner && k.1 == who && k.2 in c.tables then More(On(c, k.0, k.1, k.2), privileges)
           else On(c, k.0, k.1, k.2))
  }

  function Execute(c: Catalog, s: Statement): Catalog {
    match Named(c.server, s.to)
    case None => c
    case Some(who) =>
      match s
      case GrantSchemaUsage(_) => c.(schemaUsers := c.schemaUsers + {who})
      case GrantAllTables(privileges, _) => GrantedOnAll(c, privileges, who)
      case GrantAllSequences(_) => c.(sequenceUsers := c.sequenceUsers + {who})
      case RevokeAll(table, _) => SetOn(c, who, table, NOTHING)
      case GrantTable(privileges, table, _) =>
        SetOn(c, who, table, More(On(c, c.server.owner, who, table), privileges))
      case DefaultTables(privileges, _) =>
        c.(defaults := c.defaults[who := (if who in c.defaults then c.defaults[who] else {}) + privileges])
      case DefaultSequences(_) => c.(sequenceDefaults := c.sequenceDefaults + {who})
  }

  /** Statements run one by one; the first that cannot run stops the program. */
  function ExecuteAll(c: Catalog, statements: seq<Statement>): (Catalog, bool)
    decreases |statements|
  {
    if statements == [] then (c, true)
    else if !CanRun(c, statements[0]) then (c, false)
    else ExecuteAll(Execute(c, statements[0]), statements[1..])
  }

  const DML := {SELECT, INSERT, UPDATE, DELETE}

  function PublicRevokes(): seq<Statement> {
    [RevokeAll(GUARDED_TABLES[0], "PUBLIC"), RevokeAll(GUARDED_TABLES[1], "PUBLIC")]
  }

  /** `auditAppGrantStatements`: the role is spliced in unquoted. */
  function AppGrants(role: string): seq<Statement> {
    [GrantSchemaUsage(role),
     GrantAllTables(DML, role),
     GrantAllSequences(role),
     RevokeAll(GUARDED_TABLES[0], role),
     RevokeAll(GUARDED_TABLES[1], role),
     GrantTable({SELECT, INSERT}, GUARDED_TABLES[0], role),
     GrantTable({SELECT, INSERT}, GUARDED_TABLES[1], role),
     DefaultTables(DML, role),
     DefaultSequences(role)]
  }

  // ---- One cell of the privilege table ----------------------------------------------

  /** A grantor, a grantee and a table. */
  datatype Spot = Spot(grantor: string, who: Grantee, table: string)

  function At(c: Catalog, spot: Spot): Held {
    On(c, spot.grantor, spot.who, spot.table)
  }

  /** What a statement makes of what stands at one spot. */
  function Cell(server: Server, tables: set<string>, held: Held, s: Statement, spot: Spot): Held {
    if spot.grantor != server.owner || Named(server, s.to) != Some(spot.who) then held
    else
      match s
      case GrantAllTables(privileges, _) => if spot.table in tables then More(held, privileges) else held
      case RevokeAll(t, _) => if t == spot.table then NOTHING else held
      case GrantTable(privileges, t, _) => if t == spot.table then More(held, privileges) else held
      case _ => held
  }

  function Cells(server: Server, tables: set<string>, held: Held, statements: seq<Statement>, spot: Spot): Held
    decreases |statements|
  {
    if statements == [] then held
    else Cells(server, tables, Cell(server, tables, held, statements[0], spot), statements[1..], spot)
  }

  /** The parts of a catalogue that no statement here changes. */
  predicate SameFrame(c: Catalog, d: Catalog) {
    d.server == c.server && d.tables == c.tables && d.roles == c.roles
  }

  lemma ExecuteCell(c: Catalog, s: Statement, spot: Spot)
    ensures At(Execute(c, s), spot) == Cell(c.server, c.tables, At(c, spot), s, spot)
    ensures SameFrame(c, Execute(c, s))
  {
    hide Named;
  }

  /** A dependent privilege, read off the spots. */
  ghost predicate IsDependent(c: Catalog, who: Grantee, table: string, to: Grantee, p: Privilege) {
    && who.Role? && who.name != c.server.owner
    && p in On(c, who.name, to, table).can && p in On(c, c.server.owner, who, table).mayGrant
    && forall grantor :: grantor != c.server.owner ==> p !in On(c, grantor, who, table).mayGrant
  }

  lemma DependentsAre(c: Catalog, who: Grantee, table: string)
    ensures HasDependents(c, who, table) <==> exists to, p :: IsDependent(c, who, table, to, p)
  {
    if HasDependents(c, who, table) {
      var key :| key in c.grants && key.0 == who.name && key.2 == table &&
        exists p | p in c.grants[key].can && p in On(c, c.server.owner, who, table).mayGrant ::
          forall other | other in c.grants && other.1 == who && other.2 == table && other.0 != c.server.owner ::
            p !in c.grants[other].mayGrant;
      var p :| p in c.grants[key].can && p in On(c, c.server.owner, who, table).mayGrant &&
        forall other | other in c.grants && other.1 == who && other.2 == table && other.0 != c.server.owner ::
          p !in c.grants[other].mayGrant;
      assert key == (who.name, key.1, table);
      assert IsDependent(c, who, table, key.1, p);
    }
    forall to, p | IsDependent(c, who, table, to, p)
      ensures HasDependents(c, who, table)
    {
      var key := (who.name, to, table);
      assert key in c.grants && p in c.grants[key].can;
      forall other | other in c.grants && other.1 == who && other.2 == table && other.0 != c.server.owner
        ensures p !in c.grants[other].mayGrant
      {
        assert other == (other.0, who, table);
        assert p !in On(c, other.0, who, table).mayGrant;
      }
    }
  }

  /** A statement gives no grant option and, run, takes only those nothing depends on. */
  lemma DependentsStay(c: Catalog, s: Statement, who: Grantee, table: string, to: Grantee, p: Privilege)
    requires CanRun(c, s)
    ensures IsDependent(Execute(c, s), who, table, to, p) <==> IsDependent(c, who, table, to, p)
  {
    hide Execute, HasDependents, Named;
    var owner := c.server.owner;
    ExecuteCell(c, s, Spot(if who.Role? then who.name else "", to, table));
    if who.Role? && who.name != owner {
      ExecuteCell(c, s, Spot(owner, who, table));
      forall grantor | grantor != owner
        ensures On(Execute(c, s), grantor, who, table) == On(c, grantor, who, table)
      {
        ExecuteCell(c, s, Spot(grantor, who, table));
      }
      if s.RevokeAll? && s.table == table && Named(c.server, s.to) == Some(who) {
        DependentsAre(c, who, table);
        assert !IsDependent(c, who, table, to, p);
      }
    }
  }

  lemma CanRunStays(c: Catalog, s: Statement, other: Statement)
    requires CanRun(c, s)
    ensures CanRun(Execute(c, s), other) <==> CanRun(c, other)
  {
    hide Execute, HasDependents, Named, IsDependent;
    ExecuteCell(c, s, Spot("", Public, ""));
    var after := Execute(c, s);
    var who := Named(c.server, other.to);
    if other.RevokeAll? && who.Some? {
      DependentsAre(c, who.value, other.table);
      DependentsAre(after, who.value, other.table);
      forall to, p
        ensures IsDependent(after, who.value, other.table, to, p) <==> IsDependent(c, who.value, other.table, to, p)
      {
        DependentsStay(c, s, who.value, other.table, to, p);
      }
    }
  }

  /** No statement makes another one possible or impossible, so a program runs to its end exactly when each can run. */
  lemma {:induction false} ExecuteCells(c: Catalog, statements: seq<Statement>, spot: Spot)
    ensures
      var r := ExecuteAll(c, statements);
      && SameFrame(c, r.0)
      && (r.1 <==> forall s :: s in statements ==> CanRun(c, s))
      && (r.1 ==> At(r.0, spot) == Cells(c.server, c.tables, At(c, spot), statements, spot))
      && (r.1 ==> forall other :: CanRun(r.0, other) <==> CanRun(c, other))
    decreases |statements|
  {
    hide Execute, Cell, At, CanRun;
    if statements != [] {
      var s := statements[0];
      assert statements == [s] + statements[1..];
      ExecuteCell(c, s, spot);
      if CanRun(c, s) {
        forall other
          ensures CanRun(Execute(c, s), other) <==> CanRun(c, other)
        {
          CanRunStays(c, s, other);
        }
        ExecuteCells(Execute(c, s), statements[1..], spot);
      }
    }
  }

  /** A program that stops at a statement leaves what the statements before it leave. */
  lemma {:induction false} StopsAt(c: Catalog, statements: seq<Statement>, n: nat)
    requires n < |statements| && !CanRun(c, statements[n]) && forall k :: 0 <= k < n ==> CanRun(c, statements[k])
    ensures ExecuteAll(c, statements) == (ExecuteAll(c, statements[..n]).0, false)
    decreases n
  {
    hide Execute, CanRun;
    if n > 0 {
      var s := statements[0];
      forall other
        ensures CanRun(Execute(c, s), other) <==> CanRun(c, other)
      {
        CanRunStays(c, s, other);
      }
      StopsAt(Execute(c, s), statements[1..], n - 1);
      assert statements[..n][1..] == statements[1..][..n - 1];
    }
  }

  lemma {:induction false} CellsNext(
    server: Server, tables: set<string>, held: Held, statements: seq<Statement>, n: nat, spot: Spot)
    requires n < |statements|
    ensures Cells(server, tables, held, statements[..n + 1], spot) ==
      Cell(server, tables, Cells(server, tables, held, statements[..n], spot), statements[n], spot)
    decreases n
  {
    hide Cell;
    assert statements[..n + 1][0] == statements[0];
    if n > 0 {
      assert statements[..n][0] == statements[0];
      CellsNext(server, tables, Cell(server, tables, held, statements[0], spot), statements[1..], n - 1, spot);
      assert statements[..n + 1][1..] == statements[1..][..n] && statements[..n][1..] == statements[1..][..n - 1];
    }
  }

  lemma PublicIsPublic(server: Server)
    ensures Named(server, "PUBLIC") == Some(Public)
  {
    assert Folded("PUBLIC") == "public";
  }

  lemma TablesDiffer()
    ensures GUARDED_TABLES[0] != GUARDED_TABLES[1] && IsGuarded(GUARDED_TABLES[0]) && IsGuarded(GUARDED_TABLES[1])
  {
    assert |GUARDED_TABLES[0]| == 12 && |GUARDED_TABLES[1]| == 27;
  }

  /** The revokes take the owner's grants to everyone on the guarded tables, and touch nothing else. */
  lemma RevokedCells(server: Server, tables: set<string>, held: Held, spot: Spot)
    ensures Cells(server, tables, held, PublicRevokes(), spot) ==
      if spot.grantor == server.owner && spot.who == Public && IsGuarded(spot.table) then NOTHING else held
  {
    hide Cells, Named;
    var l := PublicRevokes();
    PublicIsPublic(server);
    CellsNext(server, tables, held, l, 0, spot);
    CellsNext(server, tables, held, l, 1, spot);
    NoCells(server, tables, held, l, spot);
  }

  lemma NoCells(server: Server, tables: set<string>, held: Held, statements: seq<Statement>, spot: Spot)
    ensures Cells(server, tables, held, statements[..0], spot) == held
    ensures statements[..|statements|] == statements
  {
  }

  /**
   * What the first `n` grant statements make of a spot: the role gets DML on
   * every table at the second, loses the guarded tables at the fourth and
   * fifth, and gets SELECT and INSERT back on them at the sixth and seventh.
   */
  function Granted(server: Server, tables: set<string>, held: Held, role: string, n: nat, spot: Spot): Held {
    var revoked := if spot.table == GUARDED_TABLES[0] then 4 else 5;
    if spot.grantor != server.owner || Named(server, role) != Some(spot.who) then held
    else if IsGuarded(spot.table) && n >= revoked + 2 then Held({SELECT, INSERT}, {})
    else if IsGuarded(spot.table) && n >= revoked then NOTHING
    else if n >= 2 && spot.table in tables then More(held, DML)
    else held
  }

  lemma {:induction false} GrantedCells(
    server: Server, tables: set<string>, held: Held, role: string, n: nat, spot: Spot)
    requires n <= |AppGrants(role)|
    ensures Cells(server, tables, held, AppGrants(role)[..n], spot) == Granted(server, tables, held, role, n, spot)
    decreases n
  {
    hide Cells, Named, DML, GUARDED_TABLES;
    var l := AppGrants(role);
    if n == 0 {
      NoCells(server, tables, held, l, spot);
    } else {
      GrantedCells(server, tables, held, role, n - 1, spot);
      CellsNext(server, tables, held, l, n - 1, spot);
      TablesDiffer();
      GuardedIsOneOfTwo(spot.table);
    }
  }

  lemma GuardedIsOneOfTwo(table: string)
    ensures IsGuarded(table) <==> table == GUARDED_TABLES[0] || table == GUARDED_TABLES[1]
  {
  }

  // ---- The program --------------------------------------------------------------------

  datatype Outcome = Applied | Skipped | RefusedName | MissingRole | StatementFailed

  /** `applyAuditAppPrivileges`, as a function of the catalogue. */
  function ApplyPrivileges(c: Catalog, role: string, required: bool): (Catalog, Outcome) {
    if !IsRoleName(role) then (c, RefusedName)
    else
      var revoked := ExecuteAll(c, PublicRevokes());
      if !revoked.1 then (revoked.0, StatementFailed)
      else if role !in c.roles then (revoked.0, if required then MissingRole else Skipped)
      else
        var granted := ExecuteAll(revoked.0, AppGrants(role));
        (granted.0, if granted.1 then Applied else StatementFailed)
  }

  predicate HasAuditTables(c: Catalog) {
    GUARDED_TABLES[0] in c.tables && GUARDED_TABLES[1] in c.tables
  }

  /** Nothing on the audit tables depends on a grant option of the grantee's. */
  predicate IsFree(c: Catalog, who: Grantee) {
    !HasDependents(c, who, GUARDED_TABLES[0]) && !HasDependents(c, who, GUARDED_TABLES[1])
  }

  /** The statements can be run: the name stands for a known grantee whose rights can be taken back. */
  predicate CanGrant(c: Catalog, role: string) {
    var who := Named(c.server, role);
    who.Some? && Knows(c, who.value) && IsFree(c, who.value)
  }

  lemma CanRunPublic(c: Catalog)
    requires HasAuditTables(c)
    ensures forall s :: s in PublicRevokes() ==> CanRun(c, s)
  {
    hide Named;
    PublicIsPublic(c.server);
  }

  lemma CanRunGrants(c: Catalog, role: string)
    requires HasAuditTables(c)
    ensures CanGrant(c, role) <==> forall s :: s in AppGrants(role) ==> CanRun(c, s)
  {
    hide Named, HasDependents, Knows, GUARDED_TABLES, DML;
    var l := AppGrants(role);
    assert l[3] in l && l[4] in l;
  }

  /** The public revokes run, and leave the question which grants can run as it was. */
  lemma RevokesRun(c: Catalog, role: string, spot: Spot)
    requires HasAuditTables(c)
    ensures
      var r := ExecuteAll(c, PublicRevokes());
      && r.1 && SameFrame(c, r.0) && HasAuditTables(r.0)
      && (CanGrant(r.0, role) <==> CanGrant(c, role))
      && (forall other :: CanRun(r.0, other) <==> CanRun(c, other))
      && At(r.0, spot) == if spot.grantor == c.server.owner && spot.who == Public && IsGuarded(spot.table) then NOTHING
                          else At(c, spot)
  {
    hide ExecuteAll, Cells, At, CanRun, PublicRevokes, AppGrants, CanGrant, IsGuarded;
    ExecuteCells(c, PublicRevokes(), spot);
    CanRunPublic(c);
    RevokedCells(c.server, c.tables, At(c, spot), spot);
    var after := ExecuteAll(c, PublicRevokes()).0;
    CanRunGrants(c, role);
    CanRunGrants(after, role);
  }

  /** What the program leaves at every spot, whoever granted what before. */
  lemma AppliedCells(c: Catalog, role: string, required: bool, spot: Spot)
    requires HasAuditTables(c) && IsRoleName(role) && role in c.roles && CanGrant(c, role)
    ensures
      var r := ApplyPrivileges(c, role, required);
      && r.1 == Applied && SameFrame(c, r.0) && CanGrant(r.0, role)
      && At(r.0, spot) ==
           if spot.grantor != c.server.owner then At(c, spot)
           else if Named(c.server, role) == Some(spot.who) then
             if IsGuarded(spot.table) then Held({SELECT, INSERT}, {})
             else if spot.table in c.tables then More(At(c, spot), DML)
             else At(c, spot)
           else if spot.who == Public && IsGuarded(spot.table) then NOTHING
           else At(c, spot)
  {
    hide ExecuteAll, Cells, At, Named, IsGuarded, IsRoleName, DML, GUARDED_TABLES, CanRun, CanGrant, AppGrants,
         PublicRevokes, HasAuditTables;
    RevokesRun(c, role, spot);
    var revoked := ExecuteAll(c, PublicRevokes()).0;
    var l := AppGrants(role);
    CanRunGrants(revoked, role);
    ExecuteCells(revoked, l, spot);
    NineGrants(role);
    GrantedCells(c.server, c.tables, At(revoked, spot), role, 9, spot);
    CanRunGrants(ExecuteAll(revoked, l).0, role) by {
      KeepsTables(c, ExecuteAll(revoked, l).0);
    }
  }

  lemma KeepsTables(c: Catalog, d: Catalog)
    requires HasAuditTables(c) && SameFrame(c, d)
    ensures HasAuditTables(d)
  {
  }

  lemma NineGrants(role: string)
    ensures |AppGrants(role)| == 9 && AppGrants(role)[..9] == AppGrants(role)
  {
  }

  /** The role may insert and read the audit tables, and nothing more. */
  ghost predicate IsInsertOnly(c: Catalog, role: string) {
    forall table :: IsGuarded(table) ==> Effective(c, role, table) == {SELECT, INSERT}
  }

  ghost predicate HasDmlElsewhere(c: Catalog, role: string) {
    forall table :: table in c.tables && !IsGuarded(table) ==> DML <= Effective(c, role, table)
  }

  /** Whatever someone other than the owner has granted the role or everyone on an audit table is SELECT or INSERT. */
  ghost predicate ForeignWithin(c: Catalog, role: string) {
    forall grantor, table :: grantor != c.server.owner && IsGuarded(table) ==>
      On(c, grantor, Role(role), table).can <= {SELECT, INSERT} && On(c, grantor, Public, table).can <= {SELECT, INSERT}
  }

  lemma PlainIsNamed(server: Server, role: string)
    ensures IsPlain(server.reserved, role) ==> Named(server, role) == Some(Role(role))
  {
  }

  lemma PlainCanGrant(c: Catalog, role: string)
    requires IsPlain(c.server.reserved, role) && role in c.roles
    ensures CanGrant(c, role) <==> IsFree(c, Role(role))
  {
    hide Named, IsFree;
    PlainIsNamed(c.server, role);
  }

  ghost predicate GivenByOthers(c: Catalog, role: string, table: string, p: Privilege) {
    exists grantor :: grantor != c.server.owner
      && (p in On(c, grantor, Role(role), table).can || p in On(c, grantor, Public, table).can)
  }

  /** After the program has run, the role's rights on a table are the owner's new grants and what others gave. */
  lemma AppliedRights(c: Catalog, role: string, required: bool, table: string)
    requires HasAuditTables(c) && IsRoleName(role) && role in c.roles
    requires IsPlain(c.server.reserved, role) && CanGrant(c, role)
    ensures
      var after := Effective(ApplyPrivileges(c, role, required).0, role, table);
      && (table in c.tables && !IsGuarded(table) ==> DML <= after)
      && (IsGuarded(table) ==> {SELECT, INSERT} <= after)
      && (IsGuarded(table) ==> forall p :: p in after <==> p in {SELECT, INSERT} || GivenByOthers(c, role, table, p))
  {
    hide ApplyPrivileges, On, IsGuarded, IsRoleName, HasAuditTables, CanGrant, Named, IsPlain, DML, Effective;
    PlainIsNamed(c.server, role);
    var r := ApplyPrivileges(c, role, required).0;
    forall grantor, who
      ensures At(r, Spot(grantor, who, table)) == On(r, grantor, who, table)
      ensures grantor != c.server.owner ==> On(r, grantor, who, table) == On(c, grantor, who, table)
    {
      AppliedCells(c, role, required, Spot(grantor, who, table));
    }
    AppliedCells(c, role, required, Spot(c.server.owner, Role(role), table));
    AppliedCells(c, role, required, Spot(c.server.owner, Public, table));
    forall p
      ensures p in Effective(r, role, table) <==>
        exists grantor :: p in On(r, grantor, Role(role), table).can || p in On(r, grantor, Public, table).can
    {
      EffectiveIs(r, role, table, p);
    }
    assert forall p :: p in On(r, c.server.owner, Role(role), table).can ==> p in Effective(r, role, table);
  }

  /** If a revoke is refused, the program stops with the role able to update the table it was about to take. */
  lemma RefusedLeavesUpdate(c: Catalog, role: string, required: bool)
    requires HasAuditTables(c) && IsRoleName(role) && role in c.roles
    requires IsPlain(c.server.reserved, role) && !IsFree(c, Role(role))
    ensures
      var r := ApplyPrivileges(c, role, required);
      r.1 == StatementFailed && !IsInsertOnly(r.0, role)
  {
    hide IsRoleName, Named, HasDependents, ExecuteAll, Cells, DML, At;
    PlainIsNamed(c.server, role);
    TablesDiffer();
    var n, table :=
      if HasDependents(c, Role(role), GUARDED_TABLES[0]) then 3 else 4,
      if HasDependents(c, Role(role), GUARDED_TABLES[0]) then GUARDED_TABLES[0] else GUARDED_TABLES[1];
    var spot := Spot(c.server.owner, Role(role), table);
    RevokesRun(c, role, spot);
    var revoked := ExecuteAll(c, PublicRevokes()).0;
    GrantsStopAt(revoked, role, n, table, spot) by {
      assert CanRun(revoked, AppGrants(role)[n]) <==> CanRun(c, AppGrants(role)[n]);
      assert forall k :: 0 <= k < n ==> (CanRun(revoked, AppGrants(role)[k]) <==> CanRun(c, AppGrants(role)[k]));
    }
    var after := ApplyPrivileges(c, role, required).0;
    assert UPDATE in At(after, spot).can;
    AtMeansEffective(after, role, spot, UPDATE);
  }

  lemma AtMeansEffective(c: Catalog, role: string, spot: Spot, p: Privilege)
    requires spot.who == Role(role) && p in At(c, spot).can
    ensures p in Effective(c, role, spot.table)
  {
    EffectiveIs(c, role, spot.table, p);
  }

  lemma GrantsStopAt(c: Catalog, role: string, n: nat, table: string, spot: Spot)
    requires HasAuditTables(c) && Named(c.server, role) == Some(Role(role)) && 2 <= n < 5
    requires table == GUARDED_TABLES[if n < 4 then 0 else 1] && spot == Spot(c.server.owner, Role(role), table)
    requires !CanRun(c, AppGrants(role)[n]) && forall k :: 0 <= k < n ==> CanRun(c, AppGrants(role)[k])
    ensures var r := ExecuteAll(c, AppGrants(role)); !r.1 && UPDATE in At(r.0, spot).can
  {
    hide ExecuteAll, Cells, CanRun, Named, At, AppGrants;
    var l := AppGrants(role);
    NineGrants(role);
    StopsAt(c, l, n);
    ExecuteCells(c, l[..n], spot);
    GrantedCells(c.server, c.tables, At(c, spot), role, n, spot);
    TablesDiffer();
  }

  /**
   * Exactly when a name that stands for its own role ends insert-only: the
   * revokes are not refused, and nobody but the owner has granted the role or
   * everyone more. In that case it also has full DML on every other table.
   */
  lemma InsertOnlyExactly(c: Catalog, role: string, required: bool)
    requires HasAuditTables(c) && IsRoleName(role) && role in c.roles && IsPlain(c.server.reserved, role)
    ensures
      var r := ApplyPrivileges(c, role, required);
      && (IsInsertOnly(r.0, role) <==> IsFree(c, Role(role)) && ForeignWithin(c, role))
      && (IsFree(c, Role(role)) ==> r.1 == Applied && HasDmlElsewhere(r.0, role))
      && (!IsFree(c, Role(role)) ==> r.1 == StatementFailed)
  {
    hide ApplyPrivileges, IsGuarded, IsRoleName, HasAuditTables, CanGrant, IsPlain, IsFree, Effective, On, DML;
    var r := ApplyPrivileges(c, role, required);
    PlainCanGrant(c, role);
    if !IsFree(c, Role(role)) {
      RefusedLeavesUpdate(c, role, required);
    } else {
      AppliedCells(c, role, required, Spot("", Public, ""));
      forall table
        ensures table in c.tables && !IsGuarded(table) ==> DML <= Effective(r.0, role, table)
        ensures IsGuarded(table) ==>
          (Effective(r.0, role, table) == {SELECT, INSERT} <==>
            forall grantor :: grantor != c.server.owner ==>
              On(c, grantor, Role(role), table).can <= {SELECT, INSERT}
              && On(c, grantor, Public, table).can <= {SELECT, INSERT})
      {
        AppliedRights(c, role, required, table);
      }
    }
  }

  /** Applying the program again changes no privilege of anyone on any table. */
  lemma ApplyingAgainChangesNothing(c: Catalog, role: string, required: bool, spot: Spot)
    requires HasAuditTables(c) && IsRoleName(role) && role in c.roles && CanGrant(c, role)
    ensures
      var once := ApplyPrivileges(c, role, required).0;
      var twice := ApplyPrivileges(once, role, required);
      twice.1 == Applied && At(twice.0, spot) == At(once, spot)
  {
    hide ApplyPrivileges, At, Named, IsGuarded, IsRoleName, DML, CanGrant;
    AppliedCells(c, role, required, spot);
    AppliedCells(ApplyPrivileges(c, role, required).0, role, required, spot);
  }

  /**
   * The grants are separate statements. A session that dies after the second
   * and before the fifth leaves the role able to update an audit table until
   * the next run, even where it could not before.
   */
  lemma HalfAppliedMayUpdate(c: Catalog, role: string, n: nat)
    requires HasAuditTables(c) && role in c.roles && IsPlain(c.server.reserved, role) && IsFree(c, Role(role))
    requires IsInsertOnly(c, role) && n <= |AppGrants(role)|
    ensures (exists table :: IsGuarded(table) && UPDATE in
              Effective(ExecuteAll(c, AppGrants(role)[..n]).0, role, table)) <==> 2 <= n <= 4
  {
    hide ExecuteAll, Named, IsPlain, IsFree, Effective, HasDependents, AppGrants, CanRun, Cells, DML,
         CanGrant, HasAuditTables, IsGuarded;
    PlainCanGrant(c, role);
    PlainIsNamed(c.server, role);
    var l := AppGrants(role);
    var after := ExecuteAll(c, l[..n]).0;
    CanRunGrants(c, role);
    forall table | IsGuarded(table)
      ensures UPDATE in Effective(after, role, table) <==>
        2 <= n < (if table == GUARDED_TABLES[0] then 4 else 5)
    {
      HalfApplied(c, role, n, table);
    }
    TablesDiffer();
    assert UPDATE in Effective(after, role, GUARDED_TABLES[1]) <==> 2 <= n <= 4;
    assert forall table :: IsGuarded(table) && UPDATE in Effective(after, role, table) ==> 2 <= n <= 4;
  }

  lemma HalfApplied(c: Catalog, role: string, n: nat, table: string)
    requires HasAuditTables(c) && Named(c.server, role) == Some(Role(role)) && n <= |AppGrants(role)|
    requires forall s :: s in AppGrants(role) ==> CanRun(c, s)
    requires IsGuarded(table) && IsInsertOnly(c, role)
    ensures UPDATE in Effective(ExecuteAll(c, AppGrants(role)[..n]).0, role, table) <==>
      2 <= n < (if table == GUARDED_TABLES[0] then 4 else 5)
  {
    hide ExecuteAll, Named, Effective, CanRun, Cells, AppGrants, HasAuditTables;
    var l := AppGrants(role);
    var after := ExecuteAll(c, l[..n]).0;
    assert forall s :: s in l[..n] ==> s in l;
    EffectiveIs(after, role, table, UPDATE);
    EffectiveIs(c, role, table, UPDATE);
    assert UPDATE !in Effective(c, role, table);
    forall grantor, who | who in {Role(role), Public}
      ensures UPDATE in On(after, grantor, who, table).can <==>
        grantor == c.server.owner && who == Role(role) && 2 <= n < (if table == GUARDED_TABLES[0] then 4 else 5)
    {
      var spot := Spot(grantor, who, table);
      ExecuteCells(c, l[..n], spot);
      GrantedCells(c.server, c.tables, At(c, spot), role, n, spot);
      assert UPDATE !in At(c, spot).can;
      GuardedExists(c, table);
    }
    assert UPDATE in On(after, c.server.owner, Role(role), table).can
      <==> 2 <= n < (if table == GUARDED_TABLES[0] then 4 else 5);
  }

  lemma GuardedExists(c: Catalog, table: string)
    requires HasAuditTables(c) && IsGuarded(table)
    ensures table in c.tables
  {
    GuardedIsOneOfTwo(table);
  }

  // ---- Which names the program serves ---------------------------------------------------

  /** Every grant on an audit table is its owner's. */
  predicate OwnersOnly(c: Catalog) {
    forall key :: key in c.grants && IsGuarded(key.2) ==> key.0 == c.server.owner
  }

  /** The program makes the role insert-only, whatever the owner has granted before and whoever executes it. */
  ghost predicate AlwaysInsertOnly(reserved: set<string>, role: string) {
    forall c: Catalog, required ::
      c.server.reserved == reserved && HasAuditTables(c) && role in c.roles && OwnersOnly(c) ==>
        IsInsertOnly(ApplyPrivileges(c, role, required).0, role)
  }

  lemma OwnersOnlyIsFree(c: Catalog, role: string)
    requires OwnersOnly(c)
    ensures IsFree(c, Role(role)) && ForeignWithin(c, role)
  {
    TablesDiffer();
  }

  lemma {:induction false} UnnamedIsUntouched(c: Catalog, statements: seq<Statement>, spot: Spot)
    requires forall s :: s in statements ==> Named(c.server, s.to) != Some(spot.who)
    ensures At(ExecuteAll(c, statements).0, spot) == At(c, spot)
    ensures SameFrame(c, ExecuteAll(c, statements).0)
    decreases |statements|
  {
    hide Execute, At, CanRun, Named;
    if statements != [] && CanRun(c, statements[0]) {
      ExecuteCell(c, statements[0], spot);
      UnnamedIsUntouched(Execute(c, statements[0]), statements[1..], spot);
    }
  }

  /** The revokes name PUBLIC, and the grants name the role. */
  lemma GranteesOfPrograms(role: string)
    ensures forall s :: s in PublicRevokes() ==> s.to == "PUBLIC"
    ensures forall s :: s in AppGrants(role) ==> s.to == role
  {
    hide GUARDED_TABLES, DML;
  }

  /** A name that stands for someone else, or for nobody, gets its own role nothing and takes nothing from it. */
  lemma OthersKeepTheirs(c: Catalog, role: string, required: bool, spot: Spot)
    requires spot.who == Role(role) && Named(c.server, role) != Some(Role(role))
    ensures At(ApplyPrivileges(c, role, required).0, spot) == At(c, spot)
  {
    hide At, ExecuteAll, Named, AppGrants, PublicRevokes, IsRoleName;
    PublicIsPublic(c.server);
    GranteesOfPrograms(role);
    UnnamedIsUntouched(c, PublicRevokes(), spot);
    UnnamedIsUntouched(ExecuteAll(c, PublicRevokes()).0, AppGrants(role), spot);
  }

  /** A catalogue in which the role may already update an audit table. */
  function UpdatingCatalog(reserved: set<string>, role: string): Catalog {
    Catalog(Server("", "", reserved), {role}, {GUARDED_TABLES[0], GUARDED_TABLES[1]},
            map[("", Role(role), GUARDED_TABLES[0]) := Held({UPDATE}, {})], map[], {}, {}, {})
  }

  /**
   * The existence test quotes the role's name and the statements do not. From
   * every state whose audit-table grants are the owner's, the program makes the
   * role it was given insert-only exactly when its name is in lower case and
   * is not a key word the grammar keeps or reads as someone else.
   */
  lemma InsertOnlyIffPlain(reserved: set<string>, role: string)
    requires IsRoleName(role)
    ensures AlwaysInsertOnly(reserved, role) <==> IsPlain(reserved, role)
  {
    hide ApplyPrivileges, IsRoleName, IsInsertOnly, HasAuditTables, OwnersOnly, ForeignWithin, IsFree;
    if IsPlain(reserved, role) {
      forall c: Catalog, required |
        c.server.reserved == reserved && HasAuditTables(c) && role in c.roles && OwnersOnly(c)
        ensures IsInsertOnly(ApplyPrivileges(c, role, required).0, role)
      {
        OwnersOnlyIsFree(c, role);
        InsertOnlyExactly(c, role, required);
      }
    } else {
      OthersStayUpdating(reserved, role);
    }
  }

  lemma OtherwiseNamed(reserved: set<string>, role: string)
    requires IsRoleName(role) && !IsPlain(reserved, role)
    ensures Named(Server("", "", reserved), role) != Some(Role(role))
  {
    hide Folded;
  }

  lemma OthersStayUpdating(reserved: set<string>, role: string)
    requires IsRoleName(role) && !IsPlain(reserved, role)
    ensures !AlwaysInsertOnly(reserved, role)
  {
    hide ApplyPrivileges, Effective, At, Named, IsPlain, IsRoleName, UpdatingCatalog, IsGuarded;
    var c := UpdatingCatalog(reserved, role);
    var spot := Spot("", Role(role), GUARDED_TABLES[0]);
    UpdatesFirst(reserved, role);
    OtherwiseNamed(reserved, role);
    OthersKeepTheirs(c, role, true, spot);
    var after := ApplyPrivileges(c, role, true).0;
    AtMeansEffective(after, role, spot, UPDATE);
    TablesDiffer();
    assert !IsInsertOnly(after, role);
  }

  lemma UpdatesFirst(reserved: set<string>, role: string)
    ensures
      var c := UpdatingCatalog(reserved, role);
      && c.server == Server("", "", reserved) && HasAuditTables(c) && role in c.roles && OwnersOnly(c)
      && At(c, Spot("", Role(role), GUARDED_TABLES[0])).can == {UPDATE}
  {
  }

  /** `TO user` does not parse: the run fails and the role called `user` keeps what it had. */
  lemma UserIsNotGranted(c: Catalog, required: bool, spot: Spot)
    requires HasAuditTables(c) && "user" in c.server.reserved && "user" in c.roles && spot.who == Role("user")
    ensures var r := ApplyPrivileges(c, "user", required);
      r.1 == StatementFailed && At(r.0, spot) == At(c, spot)
  {
    hide At, ExecuteAll, GUARDED_TABLES, DML;
    assert Folded("user") == "user";
    OthersKeepTheirs(c, "user", required, spot);
    RevokesRun(c, "user", spot);
    CanRunGrants(c, "user");
    var revoked := ExecuteAll(c, PublicRevokes()).0;
    CanRunGrants(revoked, "user");
    ExecuteCells(revoked, AppGrants("user"), spot);
  }

  /** `TO current_user` is the migrating role: it is granted, and the role called `current_user` keeps what it had. */
  lemma CurrentUserIsTheMigrator(c: Catalog, required: bool, spot: Spot)
    requires HasAuditTables(c) && "current_user" in c.roles && c.server.me in c.roles
    requires c.server.me != "current_user" && IsFree(c, Role(c.server.me)) && IsGuarded(spot.table)
    ensures var r := ApplyPrivileges(c, "current_user", required);
      && r.1 == Applied
      && (spot.who == Role("current_user") ==> At(r.0, spot) == At(c, spot))
      && (spot.who == Role(c.server.me) && spot.grantor == c.server.owner ==>
            At(r.0, spot) == Held({SELECT, INSERT}, {}))
  {
    hide At, ExecuteAll, GUARDED_TABLES, DML, ApplyPrivileges, IsFree, IsGuarded, Named, IsRoleName, Folded;
    CurrentUserNamed(c.server);
    AppliedCells(c, "current_user", required, spot);
  }

  lemma CurrentUserNamed(server: Server)
    ensures IsRoleName("current_user") && Named(server, "current_user") == Some(Role(server.me))
  {
    hide Folded;
    LowerFolds("current_user");
  }

  lemma LowerFolds(name: string)
    requires forall i :: 0 <= i < |name| ==> !('A' <= name[i] <= 'Z')
    ensures Folded(name) == name
  {
  }

  // ---- Triggers -----------------------------------------------------------------------

  datatype Op = Update | Delete | Truncate

  /** When a trigger fires: `OriginOnly` is silent in replica sessions. */
  datatype Firing = OriginOnly | Always | Off

  datatype Trigger = Trigger(op: Op, firing: Firing)

  /** The triggers that raise, by table and name, and whether their function exists. */
  datatype Guards = Guards(function_: bool, triggers: map<(string, string), Trigger>)

  function OpName(op: Op): string {
    match op
    case Update => "update"
    case Delete => "delete"
    case Truncate => "truncate"
  }

  /** `auditAppendOnlyTriggerName` */
  function TriggerName(table: string, op: Op): string {
    table + "_append_only_" + OpName(op)
  }

  lemma TriggerNamesDiffer(table: string, op: Op, other: Op)
    requires op != other
    ensures TriggerName(table, op) != TriggerName(table, other)
  {
    var n := |table + "_append_only_"|;
    assert TriggerName(table, op)[n..] == OpName(op);
    assert TriggerName(table, other)[n..] == OpName(other);
    assert OpName(op)[0] != OpName(other)[0];
  }

  datatype GuardStatement =
    | CreateFunction
    | CreateTrigger(table: string, name: string, op: Op)
    | EnableAlways(table: string, name: string)

  predicate GuardCanRun(g: Guards, tables: set<string>, s: GuardStatement) {
    match s
    case CreateFunction => true
    case CreateTrigger(table, _, _) => g.function_ && table in tables
    case EnableAlways(table, name) => (table, name) in g.triggers
  }

  /** `CREATE OR REPLACE` leaves a trigger that fires in origin sessions; the next statement makes it fire always. */
  function GuardExecute(g: Guards, s: GuardStatement): Guards {
    match s
    case CreateFunction => g.(function_ := true)
    case CreateTrigger(table, name, op) => g.(triggers := g.triggers[(table, name) := Trigger(op, OriginOnly)])
    case EnableAlways(table, name) =>
      if (table, name) in g.triggers
      then g.(triggers := g.triggers[(table, name) := g.triggers[(table, name)].(firing := Always)])
      else g
  }

  const GUARD_EVENTS := [Update, Delete, Truncate]

  function EventStatements(table: string, op: Op): seq<GuardStatement> {
    [CreateTrigger(table, TriggerName(table, op), op), EnableAlways(table, TriggerName(table, op))]
  }

  function TableStatements(table: string, events: seq<Op>): seq<GuardStatement> {
    if events == [] then []
    else TableStatements(table, events[..|events| - 1]) + EventStatements(table, events[|events| - 1])
  }

  function AllTableStatements(tables: seq<string>): seq<GuardStatement> {
    if tables == [] then []
    else AllTableStatements(tables[..|tables| - 1]) + TableStatements(tables[|tables| - 1], GUARD_EVENTS)
  }

  method StatementsOf(table: string) returns (statements: seq<GuardStatement>)
    ensures statements == TableStatements(table, GUARD_EVENTS)
  {
    statements := [];
    for e := 0 to |GUARD_EVENTS|
      invariant statements == TableStatements(table, GUARD_EVENTS[..e])
    {
      var name := TriggerName(table, GUARD_EVENTS[e]);
      assert GUARD_EVENTS[..e + 1][..e] == GUARD_EVENTS[..e];
      statements := statements + [CreateTrigger(table, name, GUARD_EVENTS[e])];
      statements := statements + [EnableAlways(table, name)];
    }
    assert GUARD_EVENTS[..|GUARD_EVENTS|] == GUARD_EVENTS;
  }

  /** `auditAppendOnlyStatements` */
  method AppendOnlyStatements() returns (statements: seq<GuardStatement>)
    ensures statements == InstallProgram()
    ensures |statements| == 13 && statements[0] == CreateFunction
    ensures ArmsFrom(statements, 1, "audit_events") && ArmsFrom(statements, 7, "audit_integrity_checkpoints")
  {
    ProgramReads();
    hide GUARD_EVENTS, TableStatements, ArmsFrom;
    statements := [CreateFunction];
    for t := 0 to |GUARDED_TABLES|
      invariant statements == [CreateFunction] + AllTableStatements(GUARDED_TABLES[..t])
    {
      var more := StatementsOf(GUARDED_TABLES[t]);
      assert GUARDED_TABLES[..t + 1][..t] == GUARDED_TABLES[..t];
      statements := statements + more;
    }
    assert GUARDED_TABLES[..|GUARDED_TABLES|] == GUARDED_TABLES;
  }

  function InstallProgram(): seq<GuardStatement> {
    [CreateFunction] + AllTableStatements(GUARDED_TABLES)
  }

  function GuardAll(g: Guards, tables: set<string>, statements: seq<GuardStatement>): (Guards, bool)
    decreases |statements|
  {
    if statements == [] then (g, true)
    else if !GuardCanRun(g, tables, statements[0]) then (g, false)
    else GuardAll(GuardExecute(g, statements[0]), tables, statements[1..])
  }

  lemma {:induction false} GuardAllConcat(
    g: Guards, tables: set<string>, first: seq<GuardStatement>, second: seq<GuardStatement>)
    requires GuardAll(g, tables, first).1
    ensures GuardAll(g, tables, first + second) == GuardAll(GuardAll(g, tables, first).0, tables, second)
    decreases |first|
  {
    hide GuardCanRun, GuardExecute;
    if first == [] {
      assert first + second == second;
    } else {
      assert (first + second)[1..] == first[1..] + second;
      GuardAllConcat(GuardExecute(g, first[0]), tables, first[1..], second);
    }
  }

  // What the program installs, event by event.

  function Installed(g: Guards, table: string, op: Op): Guards {
    g.(triggers := g.triggers[(table, TriggerName(table, op)) := Trigger(op, Always)])
  }

  function TableInstalled(g: Guards, table: string, events: seq<Op>): Guards {
    if events == [] then g
    else Installed(TableInstalled(g, table, events[..|events| - 1]), table, events[|events| - 1])
  }

  function AllInstalled(g: Guards, tables: seq<string>): Guards {
    if tables == [] then g
    else TableInstalled(AllInstalled(g, tables[..|tables| - 1]), tables[|tables| - 1], GUARD_EVENTS)
  }

  lemma EventInstalls(g: Guards, tables: set<string>, table: string, op: Op)
    requires g.function_ && table in tables
    ensures GuardAll(g, tables, EventStatements(table, op)) == (Installed(g, table, op), true)
  {
    hide TriggerName;
    var l := EventStatements(table, op);
    var created := GuardExecute(g, l[0]);
    assert l[1..] == [l[1]] && l[1..][1..] == [];
    assert GuardAll(g, tables, l) == GuardAll(created, tables, l[1..]);
    assert GuardAll(created, tables, l[1..]) == GuardAll(GuardExecute(created, l[1]), tables, []);
    assert GuardExecute(created, l[1]).triggers == Installed(g, table, op).triggers;
  }

  lemma {:induction false} TableInstalls(g: Guards, tables: set<string>, table: string, events: seq<Op>)
    requires g.function_ && table in tables
    ensures GuardAll(g, tables, TableStatements(table, events)) == (TableInstalled(g, table, events), true)
    ensures TableInstalled(g, table, events).function_
  {
    hide TriggerName, EventStatements, GuardCanRun, GuardExecute;
    if events != [] {
      var front := events[..|events| - 1];
      TableInstalls(g, tables, table, front);
      GuardAllConcat(g, tables, TableStatements(table, front), EventStatements(table, events[|events| - 1]));
      EventInstalls(TableInstalled(g, table, front), tables, table, events[|events| - 1]);
    }
  }

  lemma {:induction false} AllInstall(g: Guards, known: set<string>, tables: seq<string>)
    requires g.function_ && forall table :: table in tables ==> table in known
    ensures GuardAll(g, known, AllTableStatements(tables)) == (AllInstalled(g, tables), true)
    ensures AllInstalled(g, tables).function_
  {
    hide GUARD_EVENTS, TableStatements, GuardCanRun, GuardExecute;
    if tables != [] {
      var front := tables[..|tables| - 1];
      AllInstall(g, known, front);
      GuardAllConcat(g, known, AllTableStatements(front), TableStatements(tables[|tables| - 1], GUARD_EVENTS));
      TableInstalls(AllInstalled(g, front), known, tables[|tables| - 1], GUARD_EVENTS);
    }
  }

  /** A key the events of a table set, or leave. */
  lemma {:induction false} TableInstalledAt(g: Guards, table: string, events: seq<Op>, key: (string, string), op: Op)
    ensures
      var triggers := TableInstalled(g, table, events).triggers;
      && (op in events && key == (table, TriggerName(table, op)) ==>
            key in triggers && triggers[key] == Trigger(op, Always))
      && ((forall e :: e in events ==> key != (table, TriggerName(table, e))) ==>
            (key in triggers <==> key in g.triggers) && (key in triggers ==> triggers[key] == g.triggers[key]))
  {
    hide TriggerName;
    if events != [] {
      var last := events[|events| - 1];
      assert events == events[..|events| - 1] + [last];
      TableInstalledAt(g, table, events[..|events| - 1], key, op);
      if op != last {
        TriggerNamesDiffer(table, op, last);
      }
    }
  }

  /** The table has its three triggers, and they fire in every session. */
  ghost predicate IsArmed(g: Guards, table: string) {
    forall op :: (table, TriggerName(table, op)) in g.triggers
      && g.triggers[(table, TriggerName(table, op))] == Trigger(op, Always)
  }

  lemma EveryOpIsGuarded(op: Op)
    ensures op in GUARD_EVENTS
  {
    assert op == GUARD_EVENTS[0] || op == GUARD_EVENTS[1] || op == GUARD_EVENTS[2];
  }

  lemma TableIsArmed(g: Guards, table: string)
    ensures IsArmed(TableInstalled(g, table, GUARD_EVENTS), table)
    ensures forall other :: other != table && IsArmed(g, other) ==>
      IsArmed(TableInstalled(g, table, GUARD_EVENTS), other)
    ensures forall key: (string, string) :: key.0 != table ==>
      (key in TableInstalled(g, table, GUARD_EVENTS).triggers <==> key in g.triggers)
      && (key in g.triggers ==> TableInstalled(g, table, GUARD_EVENTS).triggers[key] == g.triggers[key])
  {
    hide TriggerName, TableInstalled;
    forall op
      ensures var key := (table, TriggerName(table, op));
        var after := TableInstalled(g, table, GUARD_EVENTS);
        key in after.triggers && after.triggers[key] == Trigger(op, Always)
    {
      EveryOpIsGuarded(op);
      TableInstalledAt(g, table, GUARD_EVENTS, (table, TriggerName(table, op)), op);
    }
    forall key: (string, string) | key.0 != table
      ensures (key in TableInstalled(g, table, GUARD_EVENTS).triggers <==> key in g.triggers)
        && (key in g.triggers ==> TableInstalled(g, table, GUARD_EVENTS).triggers[key] == g.triggers[key])
    {
      TableInstalledAt(g, table, GUARD_EVENTS, key, Update);
    }
  }

  /**
   * From any set of triggers, disabled or replaced ones included, the program
   * runs to its end and leaves both audit tables armed; no other table's
   * triggers change.
   */
  lemma InstallArms(g: Guards, tables: set<string>)
    requires GUARDED_TABLES[0] in tables && GUARDED_TABLES[1] in tables
    ensures
      var r := GuardAll(g, tables, InstallProgram());
      && r.1 && (forall table :: IsGuarded(table) ==> IsArmed(r.0, table))
      && (forall key: (string, string) :: !IsGuarded(key.0) ==>
            (key in r.0.triggers <==> key in g.triggers)
            && (key in g.triggers ==> r.0.triggers[key] == g.triggers[key]))
  {
    hide GUARD_EVENTS, TableStatements, TableInstalled, IsArmed;
    var created := g.(function_ := true);
    var program := InstallProgram();
    assert program[1..] == AllTableStatements(GUARDED_TABLES);
    AllInstall(created, tables, GUARDED_TABLES);
    TableIsArmed(created, GUARDED_TABLES[0]);
    var first := TableInstalled(created, GUARDED_TABLES[0], GUARD_EVENTS);
    TableIsArmed(first, GUARDED_TABLES[1]);
    assert GUARDED_TABLES[..1] == [GUARDED_TABLES[0]] && GUARDED_TABLES[..1][..0] == [];
    assert AllInstalled(created, GUARDED_TABLES[..1]) == first;
    TablesDiffer();
  }

  // ---- A run that stops half-way --------------------------------------------------------

  function OpAt(e: nat): Op {
    if e == 0 then Update else if e == 1 then Delete else Truncate
  }

  /** Table and event of the `k`-th pair of statements. */
  function PairKey(k: nat): (string, string) {
    var table := GUARDED_TABLES[if k < 3 then 0 else 1];
    (table, TriggerName(table, OpAt(k % 3)))
  }

  /** The first statement creates the function; the others are pairs of a create and an enable. */
  function StatementAt(n: nat): GuardStatement {
    if n == 0 then CreateFunction
    else
      var k := (n - 1) / 2;
      if n % 2 == 1 then CreateTrigger(PairKey(k).0, PairKey(k).1, OpAt(k % 3))
      else EnableAlways(PairKey(k).0, PairKey(k).1)
  }

  lemma TableStatementsAre(table: string)
    ensures TableStatements(table, GUARD_EVENTS) ==
      EventStatements(table, Update) + EventStatements(table, Delete) + EventStatements(table, Truncate)
  {
    hide EventStatements;
    var events := GUARD_EVENTS;
    assert events[..2] == [Update, Delete] && events[..2][..1] == [Update] && [Update][..0] == [];
    assert TableStatements(table, [Update]) == EventStatements(table, Update);
    assert TableStatements(table, [Update, Delete]) == EventStatements(table, Update) + EventStatements(table, Delete);
  }

  lemma ProgramIs()
    ensures InstallProgram() ==
      [CreateFunction] + (TableStatements(GUARDED_TABLES[0], GUARD_EVENTS) +
                          TableStatements(GUARDED_TABLES[1], GUARD_EVENTS))
  {
    hide TableStatements, GUARD_EVENTS;
    assert GUARDED_TABLES[..1] == [GUARDED_TABLES[0]] && GUARDED_TABLES[..1][..0] == [];
    assert AllTableStatements(GUARDED_TABLES[..1]) == TableStatements(GUARDED_TABLES[0], GUARD_EVENTS);
  }

  /** The `i`-th statement of a table: an event's create, then its enable. */
  lemma TableStatementAt(table: string, i: nat)
    requires i < 6
    ensures |TableStatements(table, GUARD_EVENTS)| == 6
    ensures TableStatements(table, GUARD_EVENTS)[i] == EventStatements(table, OpAt(i / 2))[i % 2]
  {
    hide TableStatements, TriggerName, GUARD_EVENTS;
    TableStatementsAre(table);
  }

  lemma ProgramAt(n: nat)
    requires n < 13
    ensures |InstallProgram()| == 13 && InstallProgram()[n] == StatementAt(n)
  {
    hide TriggerName, TableStatements, GUARD_EVENTS, OpAt, InstallProgram;
    ProgramIs();
    TableStatementAt(GUARDED_TABLES[0], if 1 <= n < 7 then n - 1 else 0);
    TableStatementAt(GUARDED_TABLES[1], if n >= 7 then n - 7 else 0);
  }

  /** From `n` on, a create and an enable-always for each of the table's three events. */
  predicate ArmsFrom(l: seq<GuardStatement>, n: nat, table: string) {
    && n + 6 <= |l|
    && l[n] == CreateTrigger(table, table + "_append_only_" + "update", Update)
    && l[n + 1] == EnableAlways(table, table + "_append_only_" + "update")
    && l[n + 2] == CreateTrigger(table, table + "_append_only_" + "delete", Delete)
    && l[n + 3] == EnableAlways(table, table + "_append_only_" + "delete")
    && l[n + 4] == CreateTrigger(table, table + "_append_only_" + "truncate", Truncate)
    && l[n + 5] == EnableAlways(table, table + "_append_only_" + "truncate")
  }

  lemma TableArms(table: string)
    ensures |TableStatements(table, GUARD_EVENTS)| == 6 && ArmsFrom(TableStatements(table, GUARD_EVENTS), 0, table)
  {
    TableStatementsAre(table);
    hide TableStatements, GUARD_EVENTS;
  }

  /** The install program as it reads: the function, then the events of one audit table and of the other. */
  lemma ProgramReads()
    ensures
      var l := InstallProgram();
      |l| == 13 && l[0] == CreateFunction && ArmsFrom(l, 1, "audit_events")
      && ArmsFrom(l, 7, "audit_integrity_checkpoints")
  {
    ProgramIs();
    TableArms(GUARDED_TABLES[0]);
    TableArms(GUARDED_TABLES[1]);
    hide TableStatements, GUARD_EVENTS, InstallProgram;
  }

  /** Both audit tables are guarded already, as after an earlier run. */
  ghost predicate BothArmed(g: Guards) {
    g.function_ && IsArmed(g, GUARDED_TABLES[0]) && IsArmed(g, GUARDED_TABLES[1])
  }

  /** What the first `n` statements make of guards that are in place: at most one trigger is as a fresh one. */
  function HalfInstalled(g: Guards, n: nat): Guards {
    if n < 2 || n % 2 == 1 then g
    else
      var k := (n - 2) / 2;
      g.(triggers := g.triggers[PairKey(k) := Trigger(OpAt(k % 3), OriginOnly)])
  }

  lemma PairIsArmed(g: Guards, k: nat)
    requires BothArmed(g)
    ensures PairKey(k) in g.triggers && g.triggers[PairKey(k)] == Trigger(OpAt(k % 3), Always)
  {
    hide TriggerName;
  }

  lemma {:induction false} HalfInstalls(g: Guards, tables: set<string>, n: nat)
    requires BothArmed(g) && GUARDED_TABLES[0] in tables && GUARDED_TABLES[1] in tables
    requires n <= |InstallProgram()|
    ensures GuardAll(g, tables, InstallProgram()[..n]) == (HalfInstalled(g, n), true)
    decreases n
  {
    hide InstallProgram, TriggerName, BothArmed, PairKey, GuardAll, OpAt;
    var l := InstallProgram();
    NothingInstalled(g, tables);
    ProgramAt(0);
    if n > 0 {
      HalfInstalls(g, tables, n - 1);
      ProgramAt(n - 1);
      assert l[..n] == l[..n - 1] + [l[n - 1]];
      GuardAllConcat(g, tables, l[..n - 1], [l[n - 1]]);
      NextInstalls(g, tables, n - 1);
    }
  }

  lemma NothingInstalled(g: Guards, tables: set<string>)
    ensures GuardAll(g, tables, []) == (g, true)
  {
  }

  lemma OneInstalls(g: Guards, tables: set<string>, s: GuardStatement)
    requires GuardCanRun(g, tables, s)
    ensures GuardAll(g, tables, [s]) == (GuardExecute(g, s), true)
  {
    hide GuardCanRun, GuardExecute;
    assert [s][1..] == [];
  }

  lemma NextInstalls(g: Guards, tables: set<string>, n: nat)
    requires BothArmed(g) && GUARDED_TABLES[0] in tables && GUARDED_TABLES[1] in tables && n < 13
    ensures GuardAll(HalfInstalled(g, n), tables, [StatementAt(n)]) == (HalfInstalled(g, n + 1), true)
  {
    hide TriggerName, GuardAll, OpAt, IsArmed;
    assert g.function_;
    if n > 0 {
      var k := (n - 1) / 2;
      PairIsArmed(g, k);
      assert g.triggers == g.triggers[PairKey(k) := Trigger(OpAt(k % 3), Always)];
      if n % 2 == 1 {
        assert (n + 1 - 2) / 2 == k;
      } else {
        assert (n - 2) / 2 == k;
        var fresh_ := g.triggers[PairKey(k) := Trigger(OpAt(k % 3), OriginOnly)];
        assert fresh_[PairKey(k) := Trigger(OpAt(k % 3), Always)] == g.triggers;
      }
    }
    OneInstalls(HalfInstalled(g, n), tables, StatementAt(n));
  }

  // ---- Append-only traces -------------------------------------------------------------

  type Row = string

  /** A session that is not a superuser's: its role, whether it owns the tables, and its replication setting. */
  datatype Session = Session(role: string, owner: bool, replica: bool)

  /** A statement on one table; an update or a delete that touches rows leaves `rows`. */
  datatype Dml =
    | InsertRows(table: string, rows: seq<Row>)
    | Change(table: string, op: Op, rows: seq<Row>)

  type Store = map<string, seq<Row>>

  function RowsOf(store: Store, table: string): seq<Row> {
    if table in store then store[table] else []
  }

  function Needed(d: Dml): Privilege {
    if d.InsertRows? then INSERT
    else
      match d.op
      case Update => UPDATE
      case Delete => DELETE
      case Truncate => TRUNCATE
  }

  predicate MayRun(c: Catalog, s: Session, d: Dml) {
    s.owner || Needed(d) in Effective(c, s.role, d.table)
  }

  predicate Fires(t: Trigger, replica: bool) {
    t.firing == Always || (t.firing == OriginOnly && !replica)
  }

  /** A guard on the table raises for this operation in this session. */
  ghost predicate IsRejected(g: Guards, s: Session, d: Dml) {
    d.Change? && exists name: string ::
      && (d.table, name) in g.triggers && g.triggers[(d.table, name)].op == d.op
      && Fires(g.triggers[(d.table, name)], s.replica)
  }

  /** A statement that is denied or rejected changes nothing. */
  ghost function Perform(c: Catalog, g: Guards, store: Store, s: Session, d: Dml): Store {
    if !MayRun(c, s, d) || IsRejected(g, s, d) then store
    else if d.InsertRows? then store[d.table := RowsOf(store, d.table) + d.rows]
    else store[d.table := d.rows]
  }

  ghost function PerformAll(c: Catalog, g: Guards, store: Store, trace: seq<(Session, Dml)>): Store {
    if trace == [] then store
    else
      var last := trace[|trace| - 1];
      Perform(c, g, PerformAll(c, g, store, trace[..|trace| - 1]), last.0, last.1)
  }

  /**
   * A statement takes effect exactly when its session owns the tables or has
   * the privilege of that name, and no trigger for the operation fires in it.
   */
  lemma PerformsExactly(c: Catalog, g: Guards, store: Store, s: Session, d: Dml)
    ensures
      var rights := Effective(c, s.role, d.table);
      var fires := d.Change? && exists name: string ::
        && (d.table, name) in g.triggers && g.triggers[(d.table, name)].op == d.op
        && (g.triggers[(d.table, name)].firing == Always
            || (g.triggers[(d.table, name)].firing == OriginOnly && !s.replica));
      var may := s.owner || (
        if d.InsertRows? then INSERT in rights
        else if d.op == Update then UPDATE in rights
        else if d.op == Delete then DELETE in rights
        else TRUNCATE in rights);
      Perform(c, g, store, s, d) ==
        if may && !fires then store[d.table := if d.InsertRows? then RowsOf(store, d.table) + d.rows else d.rows]
        else store
  {
    hide Effective;
  }

  lemma ArmedRejects(g: Guards, s: Session, d: Dml)
    requires d.Change? && IsArmed(g, d.table)
    ensures IsRejected(g, s, d)
  {
    assert (d.table, TriggerName(d.table, d.op)) in g.triggers;
  }

  /** The pair of statements for an operation on an audit table. */
  function PairOf(table: string, op: Op): nat {
    (if table == GUARDED_TABLES[0] then 0 else 3) + (if op == Update then 0 else if op == Delete then 1 else 2)
  }

  lemma PairOfIsIts(table: string, op: Op, k: nat)
    requires IsGuarded(table) && k < 6
    ensures PairKey(k) == (table, TriggerName(table, op)) <==> k == PairOf(table, op)
    ensures OpAt(PairOf(table, op) % 3) == op
  {
    hide TriggerName, GUARDED_TABLES;
    GuardedIsOneOfTwo(table);
    TablesDiffer();
    if OpAt(k % 3) != op {
      TriggerNamesDiffer(table, OpAt(k % 3), op);
    }
  }

  /** The table's triggers are the program's own. */
  ghost predicate OnlyOurs(g: Guards, table: string) {
    forall name: string :: (table, name) in g.triggers ==> exists op :: name == TriggerName(table, op)
  }

  /**
   * `CREATE OR REPLACE` makes an armed trigger fire in origin sessions only until
   * the next statement arms it again. When a later run stops after `n`
   * statements, an operation on an audit table is open to a session exactly if
   * it is a replica session and the `n`-th statement created that trigger.
   */
  lemma HalfInstalledIsOpen(
    g: Guards, tables: set<string>, n: nat, s: Session, table: string, op: Op, rows: seq<Row>)
    requires BothArmed(g) && OnlyOurs(g, table) && IsGuarded(table)
    requires GUARDED_TABLES[0] in tables && GUARDED_TABLES[1] in tables && n <= |InstallProgram()|
    ensures IsRejected(GuardAll(g, tables, InstallProgram()[..n]).0, s, Change(table, op, rows)) <==>
      !(s.replica && n == 2 + 2 * PairOf(table, op))
  {
    hide GuardAll, InstallProgram, TriggerName, PairKey, OpAt, PairOf;
    ProgramAt(0);
    HalfInstalls(g, tables, n);
    var after := HalfInstalled(g, n);
    var k: nat := if n < 2 then 0 else (n - 2) / 2;
    if k < 6 {
      PairOfIsIts(table, op, k);
    }
    GuardsOf(g, table, op);
    var key := (table, TriggerName(table, op));
    assert after.triggers[key] == Trigger(op, if n == 2 + 2 * PairOf(table, op) then OriginOnly else Always);
    forall name: string | (table, name) in after.triggers && after.triggers[(table, name)].op == op
      ensures name == TriggerName(table, op)
    {
      PairIsArmed(g, k);
      OnlyItsOwn(g, table, op, name);
    }
  }

  lemma GuardsOf(g: Guards, table: string, op: Op)
    requires BothArmed(g) && IsGuarded(table)
    ensures var key := (table, TriggerName(table, op)); key in g.triggers && g.triggers[key] == Trigger(op, Always)
  {
    hide TriggerName;
    GuardedIsOneOfTwo(table);
  }

  lemma OnlyItsOwn(g: Guards, table: string, op: Op, name: string)
    requires BothArmed(g) && OnlyOurs(g, table) && IsGuarded(table)
    requires (table, name) in g.triggers && g.triggers[(table, name)].op == op
    ensures name == TriggerName(table, op)
  {
    hide TriggerName, BothArmed;
    var other :| name == TriggerName(table, other);
    GuardsOf(g, table, other);
  }

  /**
   * With the triggers in place, no trace of inserts, updates, deletes and
   * truncates, by any non-superuser session (the owner's and replica sessions
   * included, whatever the privileges), does more than add rows to an audit table.
   */
  lemma {:induction false} TriggersKeepAppendOnly(
    c: Catalog, g: Guards, store: Store, trace: seq<(Session, Dml)>, table: string)
    requires IsArmed(g, table)
    ensures RowsOf(store, table) <= RowsOf(PerformAll(c, g, store, trace), table)
  {
    if trace != [] {
      hide IsArmed, IsRejected, MayRun;
      var last := trace[|trace| - 1];
      TriggersKeepAppendOnly(c, g, store, trace[..|trace| - 1], table);
      if last.1.Change? && last.1.table == table {
        ArmedRejects(g, last.0, last.1);
      }
    }
  }

  /** The privileges alone do as much against the application role, even with every trigger gone. */
  lemma {:induction false} PrivilegesKeepAppendOnly(
    c: Catalog, g: Guards, store: Store, trace: seq<(Session, Dml)>, role: string, table: string)
    requires IsGuarded(table) && IsInsertOnly(c, role)
    requires forall step :: step in trace ==> step.0.role == role && !step.0.owner
    ensures RowsOf(store, table) <= RowsOf(PerformAll(c, g, store, trace), table)
  {
    if trace != [] {
      hide IsRejected, IsGuarded, Effective;
      var last := trace[|trace| - 1];
      assert last in trace;
      PrivilegesKeepAppendOnly(c, g, store, trace[..|trace| - 1], role, table);
    }
  }

  // ---- What the apply function does, branch by branch -------------------------------------

  /** What new tables will give a grantee. */
  function DefaultsOf(c: Catalog, who: Grantee): set<Privilege> {
    if who in c.defaults then c.defaults[who] else {}
  }

  /** The name can stand in a statement: a letter or an underscore, then letters, digits and underscores, 63 at most. */
  predicate IsSafe(role: string) {
    && role != "" && |role| <= 63
    && (forall i :: 0 <= i < |role| ==>
          'a' <= role[i] <= 'z' || 'A' <= role[i] <= 'Z' || '0' <= role[i] <= '9' || role[i] == '_')
    && !('0' <= role[0] <= '9')
  }

  /** Everything is as it was, except that the owner's grants to everyone on the two audit tables are gone. */
  ghost predicate OnlyPublicLost(c: Catalog, d: Catalog) {
    && d == c.(grants := d.grants)
    && forall grantor, who, table :: On(d, grantor, who, table) ==
         if grantor == c.server.owner && who == Public && table in {"audit_events", "audit_integrity_checkpoints"}
         then Held({}, {}) else On(c, grantor, who, table)
  }

  /**
   * The grantee uses the schema and its sequences, the present and the coming
   * ones, has DML on every table, the coming ones included, and on the audit
   * tables SELECT and INSERT alone, where the owner's grants to everyone are
   * gone. Nothing else has changed.
   */
  ghost predicate IsServed(c: Catalog, d: Catalog, who: Grantee) {
    && SameFrame(c, d)
    && d.schemaUsers == c.schemaUsers + {who}
    && d.sequenceUsers == c.sequenceUsers + {who}
    && d.sequenceDefaults == c.sequenceDefaults + {who}
    && (forall other :: DefaultsOf(d, other) ==
          DefaultsOf(c, other) + if other == who then {SELECT, INSERT, UPDATE, DELETE} else {})
    && forall grantor, other, table :: On(d, grantor, other, table) ==
         var before := On(c, grantor, other, table);
         if grantor != c.server.owner then before
         else if table in {"audit_events", "audit_integrity_checkpoints"} then
           if other == who then Held({SELECT, INSERT}, {}) else if other == Public then Held({}, {}) else before
         else if other == who && table in c.tables then
           Held(before.can + {SELECT, INSERT, UPDATE, DELETE}, before.mayGrant)
         else before
  }

  lemma SafeExactly(role: string)
    ensures IsRoleName(role) <==> IsSafe(role)
  {
  }

  lemma GuardedAre(table: string)
    ensures IsGuarded(table) <==> table in {"audit_events", "audit_integrity_checkpoints"}
  {
  }

  /** The revokes change the grants alone. */
  lemma RevokesKeepRest(c: Catalog)
    ensures var d := ExecuteAll(c, PublicRevokes()).0; d == c.(grants := d.grants)
  {
    hide Named, CanRun, GUARDED_TABLES;
    var l := PublicRevokes();
    var c1 := Execute(c, l[0]);
    assert l[1..] == [l[1]] && l[1..][1..] == [];
    assert c1 == c.(grants := c1.grants);
    assert Execute(c1, l[1]) == c1.(grants := Execute(c1, l[1]).grants);
  }

  /** Who may use the schema and the sequences after a program, and what new tables will give. */
  lemma {:induction false} ExecuteRest(c: Catalog, statements: seq<Statement>, who: Grantee, p: Privilege)
    requires ExecuteAll(c, statements).1
    ensures
      var d := ExecuteAll(c, statements).0;
      && d.server == c.server
      && (who in d.schemaUsers <==>
            || who in c.schemaUsers
            || exists s :: s in statements && s.GrantSchemaUsage? && Named(c.server, s.to) == Some(who))
      && (who in d.sequenceUsers <==>
            || who in c.sequenceUsers
            || exists s :: s in statements && s.GrantAllSequences? && Named(c.server, s.to) == Some(who))
      && (who in d.sequenceDefaults <==>
            || who in c.sequenceDefaults
            || exists s :: s in statements && s.DefaultSequences? && Named(c.server, s.to) == Some(who))
      && (p in DefaultsOf(d, who) <==>
            || p in DefaultsOf(c, who)
            || exists s :: s in statements && s.DefaultTables? && Named(c.server, s.to) == Some(who)
                 && p in s.privileges)
    decreases |statements|
  {
    hide Named, CanRun;
    if statements != [] {
      var s := statements[0];
      assert statements == [s] + statements[1..];
      ExecuteOneRest(c, s, who, p);
      hide Execute, DefaultsOf;
      ExecuteRest(Execute(c, s), statements[1..], who, p);
    }
  }

  lemma ExecuteOneRest(c: Catalog, s: Statement, who: Grantee, p: Privilege)
    ensures
      var d := Execute(c, s);
      && d.server == c.server
      && (who in d.schemaUsers <==> who in c.schemaUsers || (s.GrantSchemaUsage? && Named(c.server, s.to) == Some(who)))
      && (who in d.sequenceUsers <==>
            who in c.sequenceUsers || (s.GrantAllSequences? && Named(c.server, s.to) == Some(who)))
      && (who in d.sequenceDefaults <==>
            who in c.sequenceDefaults || (s.DefaultSequences? && Named(c.server, s.to) == Some(who)))
      && (p in DefaultsOf(d, who) <==>
            || p in DefaultsOf(c, who)
            || (s.DefaultTables? && Named(c.server, s.to) == Some(who) && p in s.privileges))
  {
    hide Named;
  }

  /** The four grants that are not on tables. */
  lemma FourGrants(role: string)
    ensures forall s :: s in AppGrants(role) ==> s.to == role
    ensures forall s :: s in AppGrants(role) && s.DefaultTables? ==> s.privileges == {SELECT, INSERT, UPDATE, DELETE}
    ensures GrantSchemaUsage(role) in AppGrants(role) && GrantAllSequences(role) in AppGrants(role)
    ensures DefaultTables({SELECT, INSERT, UPDATE, DELETE}, role) in AppGrants(role)
    ensures DefaultSequences(role) in AppGrants(role)
  {
    assert DML == {SELECT, INSERT, UPDATE, DELETE};
    hide GUARDED_TABLES, DML;
    var l := AppGrants(role);
    forall i | 0 <= i < |l|
      ensures l[i].to == role && (l[i].DefaultTables? ==> l[i].privileges == DML)
    {
    }
    assert l[0] in l && l[2] in l && l[7] in l && l[8] in l;
  }

  lemma GrantsRestAt(c: Catalog, role: string, who: Grantee, p: Privilege)
    requires ExecuteAll(c, AppGrants(role)).1
    ensures
      var d, named := ExecuteAll(c, AppGrants(role)).0, Named(c.server, role) == Some(who);
      && (who in d.schemaUsers <==> who in c.schemaUsers || named)
      && (who in d.sequenceUsers <==> who in c.sequenceUsers || named)
      && (who in d.sequenceDefaults <==> who in c.sequenceDefaults || named)
      && (p in DefaultsOf(d, who) <==>
            p in DefaultsOf(c, who) || (named && p in {SELECT, INSERT, UPDATE, DELETE}))
  {
    hide Named, CanRun, ExecuteAll, AppGrants, DefaultsOf;
    FourGrants(role);
    ExecuteRest(c, AppGrants(role), who, p);
    if Named(c.server, role) == Some(who) {
      assert Named(c.server, GrantSchemaUsage(role).to) == Some(who);
      assert Named(c.server, GrantAllSequences(role).to) == Some(who);
      assert Named(c.server, DefaultSequences(role).to) == Some(who);
      assert Named(c.server, DefaultTables({SELECT, INSERT, UPDATE, DELETE}, role).to) == Some(who);
    }
  }

  lemma GrantsRest(c: Catalog, role: string, who: Grantee)
    requires ExecuteAll(c, AppGrants(role)).1 && Named(c.server, role) == Some(who)
    ensures
      var d := ExecuteAll(c, AppGrants(role)).0;
      && d.schemaUsers == c.schemaUsers + {who}
      && d.sequenceUsers == c.sequenceUsers + {who}
      && d.sequenceDefaults == c.sequenceDefaults + {who}
      && forall other :: DefaultsOf(d, other) ==
           DefaultsOf(c, other) + if other == who then {SELECT, INSERT, UPDATE, DELETE} else {}
  {
    hide Named, CanRun, ExecuteAll, AppGrants, DefaultsOf;
    var d := ExecuteAll(c, AppGrants(role)).0;
    forall other
      ensures other in d.schemaUsers <==> other in c.schemaUsers || other == who
      ensures other in d.sequenceUsers <==> other in c.sequenceUsers || other == who
      ensures other in d.sequenceDefaults <==> other in c.sequenceDefaults || other == who
    {
      GrantsRestAt(c, role, other, SELECT);
    }
    forall other, p
      ensures p in DefaultsOf(d, other) <==>
        p in DefaultsOf(c, other) || (other == who && p in {SELECT, INSERT, UPDATE, DELETE})
    {
      GrantsRestAt(c, role, other, p);
    }
  }

  lemma RefusedDoes(c: Catalog, role: string, required: bool)
    requires HasAuditTables(c) && IsRoleName(role) && role !in c.roles
    ensures
      var r := ApplyPrivileges(c, role, required);
      OnlyPublicLost(c, r.0) && r.1 == if required then MissingRole else Skipped
  {
    hide ExecuteAll, IsGuarded, IsRoleName, PublicRevokes, HasAuditTables, CanGrant, On;
    var d := ExecuteAll(c, PublicRevokes()).0;
    RevokesKeepRest(c);
    RevokesRun(c, role, Spot("", Public, ""));
    forall grantor, who, table
      ensures On(d, grantor, who, table) ==
        if grantor == c.server.owner && who == Public && table in {"audit_events", "audit_integrity_checkpoints"}
        then Held({}, {}) else On(c, grantor, who, table)
    {
      RevokesRun(c, role, Spot(grantor, who, table));
      GuardedAre(table);
    }
  }

  lemma AppliedDoes(c: Catalog, role: string, required: bool)
    requires HasAuditTables(c) && IsRoleName(role) && role in c.roles && CanGrant(c, role)
    ensures
      var r := ApplyPrivileges(c, role, required);
      r.1 == Applied && IsServed(c, r.0, Named(c.server, role).value)
  {
    hide ExecuteAll, IsGuarded, IsRoleName, PublicRevokes, HasAuditTables, IsFree, Named, On, AppGrants, DefaultsOf;
    var r, who := ApplyPrivileges(c, role, required), Named(c.server, role).value;
    var revoked := ExecuteAll(c, PublicRevokes()).0;
    RevokesKeepRest(c);
    AppliedCells(c, role, required, Spot("", Public, ""));
    GrantsRest(revoked, role, who);
    SameDefaults(c, revoked);
    hide ApplyPrivileges, CanGrant;
    forall grantor, other, table
      ensures On(r.0, grantor, other, table) ==
        var before := On(c, grantor, other, table);
        if grantor != c.server.owner then before
        else if table in {"audit_events", "audit_integrity_checkpoints"} then
          if other == who then Held({SELECT, INSERT}, {}) else if other == Public then Held({}, {}) else before
        else if other == who && table in c.tables then
          Held(before.can + {SELECT, INSERT, UPDATE, DELETE}, before.mayGrant)
        else before
    {
      AppliedCells(c, role, required, Spot(grantor, other, table));
      GuardedAre(table);
    }
  }

  lemma SameDefaults(c: Catalog, d: Catalog)
    requires d.defaults == c.defaults
    ensures forall who :: DefaultsOf(d, who) == DefaultsOf(c, who)
  {
  }

  lemma WithoutTables(c: Catalog, role: string, required: bool)
    requires !HasAuditTables(c) && IsRoleName(role)
    ensures ApplyPrivileges(c, role, required).1 == StatementFailed
  {
    hide Execute, Named, AppGrants, IsRoleName;
    var l := PublicRevokes();
    ExecuteCells(c, l, Spot("", Public, ""));
    assert l[0] in l && l[1] in l;
  }

  lemma CannotGrant(c: Catalog, role: string, required: bool)
    requires HasAuditTables(c) && IsRoleName(role) && role in c.roles && !CanGrant(c, role)
    ensures ApplyPrivileges(c, role, required).1 == StatementFailed
  {
    hide ExecuteAll, IsRoleName, PublicRevokes, AppGrants, HasAuditTables, CanGrant, CanRun;
    RevokesRun(c, role, Spot("", Public, ""));
    var revoked := ExecuteAll(c, PublicRevokes()).0;
    CanRunGrants(revoked, role);
    ExecuteCells(revoked, AppGrants(role), Spot("", Public, ""));
  }

  lemma BranchByBranch(c: Catalog, role: string, required: bool)
    ensures
      var (d, outcome) := ApplyPrivileges(c, role, required);
      if !IsSafe(role) then d == c && outcome == RefusedName
      else if !({"audit_events", "audit_integrity_checkpoints"} <= c.tables) then outcome == StatementFailed
      else if role !in c.roles then (outcome == if required then MissingRole else Skipped) && OnlyPublicLost(c, d)
      else if CanGrant(c, role) then outcome == Applied && IsServed(c, d, Named(c.server, role).value)
      else outcome == StatementFailed
  {
    hide ExecuteAll, IsRoleName, IsSafe, IsServed, OnlyPublicLost;
    SafeExactly(role);
    if !IsRoleName(role) {
    } else if !HasAuditTables(c) {
      hide ApplyPrivileges;
      WithoutTables(c, role, required);
    } else if role !in c.roles {
      hide ApplyPrivileges;
      RefusedDoes(c, role, required);
    } else if CanGrant(c, role) {
      hide ApplyPrivileges;
      AppliedDoes(c, role, required);
    } else {
      hide ApplyPrivileges;
      CannotGrant(c, role, required);
    }
  }

  // ---- The apply functions ------------------------------------------------------------

  class Database {
    var catalog: Catalog
    var guards: Guards

    constructor (catalog: Catalog, guards: Guards)
      ensures this.catalog == catalog && this.guards == guards
    {
      this.catalog, this.guards := catalog, guards;
    }

    method Unsafe(s: Statement) returns (ok: bool)
      modifies this
      ensures ok <==> CanRun(old(catalog), s)
      ensures guards == old(guards) && catalog == if ok then Execute(old(catalog), s) else old(catalog)
    {
      ok := CanRun(catalog, s);
      if ok {
        catalog := Execute(catalog, s);
      }
    }

    method ExecuteGuard(s: GuardStatement) returns (ok: bool)
      modifies this
      ensures ok <==> GuardCanRun(old(guards), old(catalog).tables, s)
      ensures catalog == old(catalog) && guards == if ok then GuardExecute(old(guards), s) else old(guards)
    {
      ok := GuardCanRun(guards, catalog.tables, s);
      if ok {
        guards := GuardExecute(guards, s);
      }
    }

    method RunStatements(statements: seq<Statement>) returns (ok: bool)
      modifies this
      ensures (catalog, ok) == ExecuteAll(old(catalog), statements) && guards == old(guards)
    {
      hide CanRun, Execute;
      var i := 0;
      assert statements[0..] == statements;
      while i < |statements|
        invariant i <= |statements| && guards == old(guards)
        invariant ExecuteAll(catalog, statements[i..]) == ExecuteAll(old(catalog), statements)
      {
        assert statements[i..][0] == statements[i] && statements[i..][1..] == statements[i + 1..];
        ok := Unsafe(statements[i]);
        if !ok {
          return;
        }
        i := i + 1;
      }
      ok := true;
    }

    /** `applyAuditAppendOnlyGuard` */
    method ApplyAppendOnlyGuard() returns (ok: bool)
      modifies this
      ensures (guards, ok) == GuardAll(old(guards), old(catalog).tables, InstallProgram()) && catalog == old(catalog)
    {
      hide GuardCanRun, GuardExecute, InstallProgram;
      var statements := AppendOnlyStatements();
      var i := 0;
      assert statements[0..] == statements;
      while i < |statements|
        invariant i <= |statements| && catalog == old(catalog)
        invariant GuardAll(guards, catalog.tables, statements[i..])
          == GuardAll(old(guards), old(catalog).tables, statements)
      {
        assert statements[i..][0] == statements[i] && statements[i..][1..] == statements[i + 1..];
        ok := ExecuteGuard(statements[i]);
        if !ok {
          return;
        }
        i := i + 1;
      }
      ok := true;
    }

    /**
     * `applyAuditAppPrivileges`: a name that is not safe is refused and nothing
     * changes; an unknown role fails the release where it is required and is
     * skipped where it is not, with the grants to everyone gone all the same;
     * a known one is served exactly when the statements can be run for it.
     */
    method ApplyAppPrivileges(role: string, required: bool) returns (outcome: Outcome)
      modifies this
      ensures (catalog, outcome) == ApplyPrivileges(old(catalog), role, required) && guards == old(guards)
      ensures !IsSafe(role) ==> outcome == RefusedName && catalog == old(catalog)
      ensures IsSafe(role) ==>
        if !({"audit_events", "audit_integrity_checkpoints"} <= old(catalog).tables) then outcome == StatementFailed
        else if role !in old(catalog).roles then
          (outcome == if required then MissingRole else Skipped) && OnlyPublicLost(old(catalog), catalog)
        else if CanGrant(old(catalog), role) then
          outcome == Applied && IsServed(old(catalog), catalog, Named(old(catalog).server, role).value)
        else outcome == StatementFailed
    {
      hide ExecuteAll, IsRoleName, PublicRevokes, AppGrants, IsSafe, OnlyPublicLost, IsServed, CanGrant, Named;
      BranchByBranch(catalog, role, required);
      if !IsRoleName(role) {
        return RefusedName;
      }
      var revoked := RunStatements(PublicRevokes());
      RolesStay(old(catalog));
      if !revoked {
        return StatementFailed;
      }
      if role !in catalog.roles {
        return if required then MissingRole else Skipped;
      }
      var granted := RunStatements(AppGrants(role));
      return if granted then Applied else StatementFailed;
    }
  }

  lemma RolesStay(c: Catalog)
    ensures ExecuteAll(c, PublicRevokes()).0.roles == c.roles
  {
    ExecuteCells(c, PublicRevokes(), Spot("", Public, ""));
  }
}
