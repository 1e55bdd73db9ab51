/**
 * The rows of one project - its config schema, its environments, their config versions - and what
 * each write path does to them when it runs alone.
 */
module Store {
  import opened Json
  import opened Targeting
  import opened Schema

  datatype EnvId = EnvId(id: int)

  /** current is the number of the version current_version_id points at. */
  datatype EnvRow = EnvRow(current: Option<int>, revision: int)

  datatype VersionRow = VersionRow(values: Values, targeting: RuleMap, schemaVersion: int)

  /**
   * defs lists the definitions the schema row has carried, the one of schema_version i at index
   * i - 1; it is empty until the row is first touched.
   */
  datatype Db = Db(defs: seq<Definition>, envs: map<EnvId, EnvRow>, versions: map<(EnvId, int), VersionRow>)

  /** GetOrInitSchema: the row's history, starting with the empty default definition. */
  function Defs(db: Db): seq<Definition> {
    if db.defs == [] then [[]] else db.defs
  }

  function CurrentDef(db: Db): Definition {
    Defs(db)[|Defs(db)| - 1]
  }

  /** COALESCE(MAX(version), 0) over an environment's rows. */
  ghost function Highest(keys: set<(EnvId, int)>, env: EnvId): (r: int)
    ensures 0 <= r && (r == 0 || (env, r) in keys)
    ensures forall k :: k in keys && k.0 == env ==> k.1 <= r
  {
    if keys == {} then 0
    else
      var k :| k in keys;
      var r := Highest(keys - {k}, env);
      if k.0 == env && k.1 > r then k.1 else r
  }

  ghost function NextNumber(db: Db, env: EnvId): int {
    Highest(db.versions.Keys, env) + 1
  }

  predicate Acceptable(re: Regex, def: Definition, values: Values, targeting: RuleMap) {
    ValidValues(re, def, values) && ValidTargeting(re, def, targeting)
  }

  function Repointed(db: Db, env: EnvId, version: int): map<EnvId, EnvRow>
    requires env in db.envs
  {
    db.envs[env := EnvRow(Some(version), db.envs[env].revision + 1)]
  }

  datatype Refusal = NotFound | Unprocessable | Conflict

  datatype Outcome = Ok(db: Db) | Refused(why: Refusal)

  // ---------------------------------------------------------------- the write paths, run alone

  ghost function PutValues(re: Regex, db: Db, env: EnvId, values: Values, targeting: RuleMap): Outcome {
    if env !in db.envs then Refused(NotFound)
    else if !Acceptable(re, CurrentDef(db), values, targeting) then Refused(Unprocessable)
    else
      var n := NextNumber(db, env);
      Ok(Db(Defs(db), Repointed(db, env, n), db.versions[(env, n) := VersionRow(values, targeting, |Defs(db)|)]))
  }

  /** An environment whose live values a definition rejects. */
  predicate Breaks(re: Regex, db: Db, def: Definition, env: EnvId) {
    && env in db.envs && db.envs[env].current.Some?
    && (env, db.envs[env].current.value) in db.versions
    && !ValidValues(re, def, db.versions[(env, db.envs[env].current.value)].values)
  }

  predicate Storable(re: Regex, def: Definition) {
    ValidDefinition(def) && forall k :: k in FieldsOf(def) ==> SchemaCompiles(re, FieldSchema(FieldsOf(def)[k]))
  }

  ghost function PutSchema(re: Regex, db: Db, def: Definition): Outcome {
    if !Storable(re, def) then Refused(Unprocessable)
    else if exists e :: e in db.envs && Breaks(re, db, def, e) then Refused(Conflict)
    else Ok(db.(defs := Defs(db) + [def]))
  }

  function Rollback(db: Db, env: EnvId, target: int): Outcome {
    if env !in db.envs || (env, target) !in db.versions then Refused(NotFound)
    else Ok(db.(envs := Repointed(db, env, target)))
  }

  function CreateEnv(db: Db, env: EnvId): Outcome {
    if env in db.envs then Refused(Conflict) else Ok(db.(envs := db.envs[env := EnvRow(None, 0)]))
  }

  /**
   * What put-values takes, and what it then does: values and targeting that both pass the current
   * definition become, as posted, a new row under a number above all others of the environment; the
   * environment points at it under the next revision, and every other row is as it was.
   */
  lemma PutExactly(re: Regex, db: Db, env: EnvId, values: Values, targeting: RuleMap)
    ensures var r := PutValues(re, db, env, values, targeting);
            && (r.Ok? <==> env in db.envs && ValidValues(re, CurrentDef(db), values)
                           && ValidTargeting(re, CurrentDef(db), targeting))
            && (r == Refused(NotFound) <==> env !in db.envs)
            && (r == Refused(Unprocessable) <==> env in db.envs && !r.Ok?)
    ensures var r := PutValues(re, db, env, values, targeting);
            r.Ok? ==>
              exists n: int :: NewRow(db, r.db, env, n, VersionRow(values, targeting, |r.db.defs|))
                               && r.db.envs == db.envs[env := EnvRow(Some(n), db.envs[env].revision + 1)]
    ensures var r := PutValues(re, db, env, values, targeting);
            r.Ok? ==> r.db.defs == if db.defs == [] then [[]] else db.defs
  {
    hide ValidValues, ValidTargeting;
    if PutValues(re, db, env, values, targeting).Ok? {
      var db' := PutValues(re, db, env, values, targeting).db;
      assert NewRow(db, db', env, NextNumber(db, env), VersionRow(values, targeting, |db'.defs|));
    }
  }

  /** The only difference between the version rows is a new one, numbered above the others of its environment. */
  predicate NewRow(db: Db, db': Db, env: EnvId, n: int, row: VersionRow) {
    && (env, n) !in db.versions && db'.versions == db.versions[(env, n) := row]
    && (forall k :: k in db.versions && k.0 == env ==> k.1 < n)
  }

  /** Fields with distinct names, each as it should be. */
  predicate StorableFields(re: Regex, def: Definition) {
    && (forall i :: 0 <= i < |def| ==> StorableField(re, def[i]))
    && (forall i, j :: 0 <= i < |def| && 0 <= j < |def| && def[i].name == def[j].name ==> i == j)
  }

  lemma StorableMeans(re: Regex, def: Definition)
    ensures Storable(re, def) <==> StorableFields(re, def)
    ensures StorableFields(re, def) ==> ValidDefinition(def) && forall f :: f in def ==> PatternCompiles(re, f)
  {
    if Storable(re, def) { StorableHasFields(re, def); }
    if StorableFields(re, def) { FieldsAreStorable(re, def); }
  }

  lemma StorableHasFields(re: Regex, def: Definition)
    requires Storable(re, def)
    ensures StorableFields(re, def)
  {
    PatternsCompile(re, def);
    forall i | 0 <= i < |def| ensures StorableField(re, def[i]) {
      assert ValidField(def[i]) && def[i] in def;
    }
    forall i, j | 0 <= i < |def| && 0 <= j < |def| && def[i].name == def[j].name ensures i == j {}
  }

  lemma FieldsAreStorable(re: Regex, def: Definition)
    requires StorableFields(re, def)
    ensures Storable(re, def) && ValidDefinition(def) && forall f :: f in def ==> PatternCompiles(re, f)
  {
    forall i | 0 <= i < |def| ensures ValidField(def[i]) {
      assert StorableField(re, def[i]);
    }
    assert ValidDefinition(def);
    forall f | f in def ensures PatternCompiles(re, f) {
      var i :| 0 <= i < |def| && def[i] == f;
      assert StorableField(re, def[i]);
    }
    PatternsCompile(re, def);
  }

  /**
   * What put-schema takes: fields with distinct names, known types, enum values where due, ranges
   * that are not empty and patterns that compile - and which the live values of every environment
   * pass. It is stored after all the earlier definitions, and nothing else changes.
   */
  lemma SchemaExactly(re: Regex, db: Db, def: Definition)
    ensures var r := PutSchema(re, db, def);
            && (r == Refused(Unprocessable) <==> !StorableFields(re, def))
            && (r == Refused(Conflict)
                <==> StorableFields(re, def)
                     && exists e, n :: LiveAt(db, e, n) && !ValidValues(re, def, db.versions[(e, n)].values))
            && r != Refused(NotFound)
    ensures var r := PutSchema(re, db, def);
            r.Ok? ==> r.db == db.(defs := (if db.defs == [] then [[]] else db.defs) + [def])
  {
    hide ValidValues, Storable, StorableFields;
    StorableMeans(re, def);
    forall e, n | LiveAt(db, e, n) && !ValidValues(re, def, db.versions[(e, n)].values)
      ensures Breaks(re, db, def, e) {}
    if e :| e in db.envs && Breaks(re, db, def, e) { assert LiveAt(db, e, db.envs[e].current.value); }
  }

  predicate LiveAt(db: Db, e: EnvId, n: int) {
    e in db.envs && db.envs[e].current == Some(n) && (e, n) in db.versions
  }

  predicate StorableField(re: Regex, f: Field) {
    && f.name != "" && f.ftype != UnknownField && PatternCompiles(re, f)
    && !(f.ftype == EnumField && f.enumValues == [])
    && !(f.min.Some? && f.max.Some? && f.max.value < f.min.value)
  }

  /** A rollback asks no more than that the row is there, and moves the pointer and the revision only. */
  lemma RollbackExactly(db: Db, env: EnvId, target: int)
    ensures Rollback(db, env, target)
         == if env in db.envs && (env, target) in db.versions
            then Ok(db.(envs := db.envs[env := EnvRow(Some(target), db.envs[env].revision + 1)]))
            else Refused(NotFound)
  {
  }

  /** A new environment starts without a version, at revision 0; one that is there already is a conflict. */
  lemma CreateExactly(db: Db, env: EnvId)
    ensures CreateEnv(db, env)
         == if env in db.envs then Refused(Conflict) else Ok(db.(envs := db.envs[env := EnvRow(None, 0)]))
  {
  }

  // ---------------------------------------------------------------- invariants of the rows

  /** The version numbers of every environment are 1, 2, ... without a gap. */
  predicate Numbered(db: Db) {
    forall k :: k in db.versions ==> k.0 in db.envs && 1 <= k.1 && (k.1 > 1 ==> (k.0, k.1 - 1) in db.versions)
  }

  /** Every row still validates against the definition that carried its pinned schema_version. */
  predicate Pinned(re: Regex, db: Db) {
    forall k :: k in db.versions ==>
      var row := db.versions[k];
      1 <= row.schemaVersion <= |db.defs| && Acceptable(re, db.defs[row.schemaVersion - 1], row.values, row.targeting)
  }

  /** The current version is a row, and there is one as soon as anything was committed. */
  predicate Pointed(db: Db) {
    forall e :: e in db.envs ==>
      && 0 <= db.envs[e].revision
      && (db.envs[e].current.None? <==> db.envs[e].revision == 0)
      && (db.envs[e].current.Some? ==> (e, db.envs[e].current.value) in db.versions)
      && (db.envs[e].current.None? ==> (e, 1) !in db.versions)
  }

  predicate WellKept(re: Regex, db: Db) {
    Numbered(db) && Pinned(re, db) && Pointed(db)
  }

  /** Every environment's live values validate against the project's current definition. */
  predicate ChangeSafe(re: Regex, db: Db) {
    forall e :: e in db.envs ==> !Breaks(re, db, CurrentDef(db), e)
  }

  lemma {:induction false} NumbersAreDense(db: Db, env: EnvId, i: int)
    requires Numbered(db)
    ensures (env, i) in db.versions <==> 1 <= i <= Highest(db.versions.Keys, env)
  {
    if 1 <= i <= Highest(db.versions.Keys, env) { Below(db, env, Highest(db.versions.Keys, env), i); }
  }

  lemma {:induction false} Below(db: Db, env: EnvId, top: int, i: int)
    requires Numbered(db) && (env, top) in db.versions && 1 <= i <= top
    ensures (env, i) in db.versions
    decreases top - i
  {
    if i < top { Below(db, env, top - 1, i); }
  }

  lemma PutKeepsNumbered(re: Regex, db: Db, env: EnvId, values: Values, targeting: RuleMap)
    requires Numbered(db) && Pointed(db) && PutValues(re, db, env, values, targeting).Ok?
    ensures var db' := PutValues(re, db, env, values, targeting).db;
            Numbered(db') && Pointed(db')
  {
    hide Acceptable, NextNumber, Numbered, Pointed;
    var n, row := NextNumber(db, env), VersionRow(values, targeting, |Defs(db)|);
    NextNumbers(db, env);
    RowKeepsNumbered(db, Defs(db), env, n, row);
    RowKeepsPointed(db, Defs(db), env, n, row);
  }

  lemma RowKeepsNumbered(db: Db, defs: seq<Definition>, env: EnvId, n: int, row: VersionRow)
    requires Numbered(db) && env in db.envs && 1 <= n && (n > 1 ==> (env, n - 1) in db.versions)
    ensures Numbered(Db(defs, Repointed(db, env, n), db.versions[(env, n) := row]))
  {
  }

  lemma RowKeepsPointed(db: Db, defs: seq<Definition>, env: EnvId, n: int, row: VersionRow)
    requires Pointed(db) && env in db.envs
    ensures Pointed(Db(defs, Repointed(db, env, n), db.versions[(env, n) := row]))
  {
    var db' := Db(defs, Repointed(db, env, n), db.versions[(env, n) := row]);
    forall e | e in db'.envs && e != env ensures db'.envs[e] == db.envs[e] {}
  }

  lemma NextNumbers(db: Db, env: EnvId)
    requires Numbered(db)
    ensures var n := NextNumber(db, env);
            1 <= n && (n > 1 ==> (env, n - 1) in db.versions)
  {
  }

  lemma PutKeepsPinned(re: Regex, db: Db, env: EnvId, values: Values, targeting: RuleMap)
    requires Pinned(re, db) && PutValues(re, db, env, values, targeting).Ok?
    ensures Pinned(re, PutValues(re, db, env, values, targeting).db)
  {
    hide Acceptable, NextNumber;
    var db' := PutValues(re, db, env, values, targeting).db;
    forall k | k in db.versions ensures db.defs == Defs(db) {}
  }

  lemma PutKeepsChangeSafe(re: Regex, db: Db, env: EnvId, values: Values, targeting: RuleMap)
    requires ChangeSafe(re, db) && PutValues(re, db, env, values, targeting).Ok?
    ensures ChangeSafe(re, PutValues(re, db, env, values, targeting).db)
  {
    hide ValidValues, ValidTargeting, NextNumber;
    var db' := PutValues(re, db, env, values, targeting).db;
    assert CurrentDef(db') == CurrentDef(db);
    forall e | e in db'.envs ensures !Breaks(re, db', CurrentDef(db'), e) {
      assert e != env ==> !Breaks(re, db, CurrentDef(db), e);
    }
  }

  lemma PutKeeps(re: Regex, db: Db, env: EnvId, values: Values, targeting: RuleMap)
    requires WellKept(re, db) && PutValues(re, db, env, values, targeting).Ok?
    ensures WellKept(re, PutValues(re, db, env, values, targeting).db)
    ensures ChangeSafe(re, db) ==> ChangeSafe(re, PutValues(re, db, env, values, targeting).db)
  {
    hide PutValues, Numbered, Pinned, Pointed, ChangeSafe;
    PutKeepsNumbered(re, db, env, values, targeting);
    PutKeepsPinned(re, db, env, values, targeting);
    if ChangeSafe(re, db) { PutKeepsChangeSafe(re, db, env, values, targeting); }
  }

  lemma NewDefinitionKeepsRows(re: Regex, db: Db, def: Definition)
    requires WellKept(re, db)
    ensures WellKept(re, db.(defs := Defs(db) + [def]))
  {
    hide Acceptable;
    var db' := db.(defs := Defs(db) + [def]);
    forall k | k in db.versions
      ensures db'.defs[db.versions[k].schemaVersion - 1] == db.defs[db.versions[k].schemaVersion - 1] {}
  }

  lemma SchemaKeepsChangeSafe(re: Regex, db: Db, def: Definition)
    requires PutSchema(re, db, def).Ok?
    ensures ChangeSafe(re, PutSchema(re, db, def).db)
  {
    hide ValidValues, Storable;
    var db' := PutSchema(re, db, def).db;
    forall e | e in db'.envs ensures !Breaks(re, db', CurrentDef(db'), e) {
      assert !Breaks(re, db, def, e);
    }
  }

  lemma RollbackKeepsRows(re: Regex, db: Db, env: EnvId, target: int)
    requires WellKept(re, db) && Rollback(db, env, target).Ok?
    ensures WellKept(re, Rollback(db, env, target).db)
  {
    hide Numbered, Pinned;
    BackToOne(db, env, target);
    assert Pinned(re, Rollback(db, env, target).db) by { RowsStayPinned(re, db, Repointed(db, env, target)); }
    assert Numbered(Rollback(db, env, target).db) by { RowsStayNumbered(db, env, target); }
  }

  lemma RowsStayPinned(re: Regex, db: Db, envs: map<EnvId, EnvRow>)
    requires Pinned(re, db)
    ensures Pinned(re, db.(envs := envs))
  {
    hide Acceptable;
  }

  lemma RowsStayNumbered(db: Db, env: EnvId, target: int)
    requires Numbered(db) && Rollback(db, env, target).Ok?
    ensures Numbered(Rollback(db, env, target).db)
  {
  }

  /** A rollback keeps change-safety exactly when its target fits the current definition. */
  lemma RollbackKeepsChangeSafe(re: Regex, db: Db, env: EnvId, target: int)
    requires ChangeSafe(re, db) && Rollback(db, env, target).Ok?
    ensures ChangeSafe(re, Rollback(db, env, target).db)
            <==> ValidValues(re, CurrentDef(db), db.versions[(env, target)].values)
  {
    hide ValidValues;
    var db' := Rollback(db, env, target).db;
    assert CurrentDef(db') == CurrentDef(db);
    forall e | e in db'.envs && e != env ensures !Breaks(re, db', CurrentDef(db'), e) {
      assert !Breaks(re, db, CurrentDef(db), e);
    }
    assert env in db'.envs;
  }

  lemma BackToOne(db: Db, env: EnvId, target: int)
    requires Numbered(db) && (env, target) in db.versions
    ensures (env, 1) in db.versions
  {
    Below(db, env, target, 1);
  }

  // ---------------------------------------------------------------- the programs

  class Repo {
    var defs: seq<Definition>
    var envs: map<EnvId, EnvRow>
    var versions: map<(EnvId, int), VersionRow>

    ghost function Rows(): Db
      reads this
    {
      Db(defs, envs, versions)
    }

    constructor ()
      ensures Rows() == Db([], map[], map[])
    {
      defs, envs, versions := [], map[], map[];
    }

    method GetOrInitSchema()
      modifies this`defs
      ensures defs == Defs(old(Rows()))
    {
      if defs == [] {
        defs := [[]];
      }
    }

    method LockProjectSchema() returns (def: Definition, schemaVersion: int)
      requires defs != []
      ensures def == CurrentDef(Rows()) && schemaVersion == |defs|
    {
      return defs[|defs| - 1], |defs|;
    }

    method NextVersionNumber(env: EnvId) returns (n: int)
      ensures n == NextNumber(Rows(), env)
    {
      var max := 0;
      var keys := versions.Keys;
      while keys != {}
        invariant forall k :: k in keys ==> k in versions
        invariant 0 <= max && (max == 0 || (env, max) in versions)
        invariant forall k :: k in versions && k !in keys && k.0 == env ==> k.1 <= max
        decreases |keys|
      {
        var k :| k in keys;
        if k.0 == env && k.1 > max {
          max := k.1;
        }
        keys := keys - {k};
      }
      n := max + 1;
    }

    /** UNIQUE (environment_id, version) refuses a number that is taken. */
    method InsertVersion(env: EnvId, n: int, row: VersionRow) returns (ok: bool)
      modifies this`versions
      ensures ok <==> (env, n) !in old(versions)
      ensures versions == if ok then old(versions)[(env, n) := row] else old(versions)
    {
      ok := (env, n) !in versions;
      if ok {
        versions := versions[(env, n) := row];
      }
    }

    /** Repoints the environment and bumps its delivery revision in one update. */
    method SetCurrentVersion(env: EnvId, version: int) returns (revision: int)
      requires env in envs
      modifies this`envs
      ensures envs == Repointed(old(Rows()), env, version) && revision == old(envs[env].revision) + 1
    {
      revision := envs[env].revision + 1;
      envs := envs[env := EnvRow(Some(version), revision)];
    }

    method CurrentVersion(env: EnvId) returns (row: Option<VersionRow>)
      requires env in envs
      ensures row == if envs[env].current.Some? && (env, envs[env].current.value) in versions
                     then Some(versions[(env, envs[env].current.value)]) else None
    {
      if envs[env].current.None? || (env, envs[env].current.value) !in versions {
        return None;
      }
      return Some(versions[(env, envs[env].current.value)]);
    }

    /** handlePutValues in one transaction: what fails leaves no trace. */
    method HandlePutValues(re: Regex, env: EnvId, values: Values, targeting: RuleMap) returns (refused: Option<Refusal>)
      modifies this
      ensures match PutValues(re, old(Rows()), env, values, targeting)
              case Ok(db) => refused == None && Rows() == db
              case Refused(why) => refused == Some(why) && Rows() == old(Rows())
    {
      hide ValidValues, ValidTargeting, Highest;
      if env !in envs {
        return Some(NotFound);
      }
      var before := defs;
      GetOrInitSchema();
      var def, schemaVersion := LockProjectSchema();
      var valuesOk := ValidateValues(re, def, values);
      var targetingOk := Validate(re, def, targeting);
      if !valuesOk || !targetingOk {
        defs := before;
        return Some(Unprocessable);
      }
      var n := NextVersionNumber(env);
      NextIsFree(Rows(), env);
      var inserted := InsertVersion(env, n, VersionRow(values, targeting, schemaVersion));
      var _ := SetCurrentVersion(env, n);
      return None;
    }

    /** The change-safety loop of handlePutSchema, over the environments in whatever order they are listed. */
    method FirstBroken(re: Regex, def: Definition) returns (broken: Option<EnvId>)
      ensures broken.Some? ==> Breaks(re, Rows(), def, broken.value)
      ensures broken.None? ==> forall e :: e in envs ==> !Breaks(re, Rows(), def, e)
    {
      hide ValidValues;
      var todo := envs.Keys;
      while todo != {}
        invariant forall e :: e in todo ==> e in envs
        invariant forall e :: e in envs && e !in todo ==> !Breaks(re, Rows(), def, e)
        decreases |todo|
      {
        var e :| e in todo;
        var row := CurrentVersion(e);
        if row.Some? {
          var ok := ValidateValues(re, def, row.value.values);
          if !ok {
            return Some(e);
          }
        }
        todo := todo - {e};
      }
      return None;
    }

    method HandlePutSchema(re: Regex, def: Definition) returns (refused: Option<Refusal>)
      modifies this
      ensures match PutSchema(re, old(Rows()), def)
              case Ok(db) => refused == None && Rows() == db
              case Refused(why) => refused == Some(why) && Rows() == old(Rows())
    {
      hide ValidValues;
      var wellFormed := ValidateDefinition(def);
      var doc := JsonSchemaDoc(def);
      if !wellFormed || !DocCompiles(re, doc) {
        return Some(Unprocessable);
      }
      var before := defs;
      GetOrInitSchema();
      var broken := FirstBroken(re, def);
      if broken.Some? {
        assert Breaks(re, old(Rows()), def, broken.value);
        defs := before;
        return Some(Conflict);
      }
      assert forall e :: e in envs ==> (Breaks(re, old(Rows()), def, e) <==> Breaks(re, Rows(), def, e));
      defs := defs + [def];
      return None;
    }

    method HandleRollback(env: EnvId, target: int) returns (refused: Option<Refusal>)
      modifies this
      ensures match Rollback(old(Rows()), env, target)
              case Ok(db) => refused == None && Rows() == db
              case Refused(why) => refused == Some(why) && Rows() == old(Rows())
    {
      if env !in envs || (env, target) !in versions {
        return Some(NotFound);
      }
      var _ := SetCurrentVersion(env, target);
      return None;
    }
  }

  /** MAX + 1 is never taken, so the unique constraint is no bar to a writer who is alone. */
  lemma NextIsFree(db: Db, env: EnvId)
    ensures (env, NextNumber(db, env)) !in db.versions
  {
  }
}
