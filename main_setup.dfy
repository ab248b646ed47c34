/** Start-up of the current service (catweazle/main.py): the list of foreman backends
    built from the configuration, with at most one realm provider, and the admin user
    created on first start. The backend list is specified as intended (`SetupSpec`, with
    `ssl_ca` passed to every backend); `SetupAsWritten` is the code as it stands, whose
    constructor call misses that argument. */
module MainSetup {
  import opened Base
  import opened Mongo
  import opened CrudForeman
  import CrudCommon

  // ---------------------------------------------------------------- foreman backends

  /** One `foreman` configuration section (`ConfigForeman`), its networks already parsed. */
  datatype ForemanConfig = ForemanConfig(url: string, sslCrt: Option<string>, sslKey: Option<string>,
                                         dnsForwardEnable: bool, dnsArpaEnable: bool, dnsArpaZones: seq<Zone>,
                                         realmEnable: bool, realmName: Option<string>)

  /** A named section, in the order the configuration dictionary yields it. */
  datatype Section = Section(name: string, config: ForemanConfig)

  /** The backend a section configures: its name, flags, zones and realm name as given. */
  function BackendOf(s: Section): Settings {
    Settings(s.name, s.config.url, s.config.dnsArpaEnable, (set z | z in s.config.dnsArpaZones),
             s.config.dnsForwardEnable, s.config.realmEnable, s.config.realmName)
  }

  /** Two different sections enable the realm. */
  predicate TwoRealms(sections: seq<Section>) {
    exists i, j :: 0 <= i < j < |sections| && sections[i].config.realmEnable && sections[j].config.realmEnable
  }

  /** What start-up is meant to make of the `foreman` setting (the corrected behaviour,
      every `CrudForeman` given its `ssl_ca`): no backends when it is absent, a fatal exit
      when two sections enable the realm, otherwise one backend per section, in order. */
  function SetupSpec(foreman: Option<seq<Section>>): (r: Result<seq<Settings>>)
    ensures r.Err? ==> r.error == Uncaught(SystemExit)
  {
    if foreman.None? then Ok([])
    else if TwoRealms(foreman.value) then Err(Uncaught(SystemExit))
    else Ok(seq(|foreman.value|, k requires 0 <= k < |foreman.value| => BackendOf(foreman.value[k])))
  }

  /** `setup_foreman_backend`, corrected: one pass over the sections with a flag for a
      realm seen, each backend built with all its arguments. */
  method SetupForemanBackend(foreman: Option<seq<Section>>) returns (r: Result<seq<Settings>>)
    ensures r == SetupSpec(foreman)
  {
    var backends: seq<Settings> := [];
    var realm := false;
    if foreman.None? || foreman.value == [] {
      if foreman.Some? {
        assert !TwoRealms(foreman.value);
        var empty := seq(|foreman.value|, k requires 0 <= k < |foreman.value| => BackendOf(foreman.value[k]));
        assert empty == [];
      }
      return Ok(backends);
    }
    var sections := foreman.value;
    var i := 0;
    while i < |sections|
      invariant 0 <= i <= |sections|
      invariant |backends| == i && forall k :: 0 <= k < i ==> backends[k] == BackendOf(sections[k])
      invariant realm <==> exists k :: 0 <= k < i && sections[k].config.realmEnable
      invariant !TwoRealms(sections[..i])
    {
      if realm && sections[i].config.realmEnable {
        var k :| 0 <= k < i && sections[k].config.realmEnable;
        assert TwoRealms(sections) by {
          assert k < i && sections[k].config.realmEnable && sections[i].config.realmEnable;
        }
        return Err(Uncaught(SystemExit));
      }
      if sections[i].config.realmEnable {
        realm := true;
      }
      var pre := sections[..i + 1];
      assert !TwoRealms(pre) by {
        forall a, b | 0 <= a < b < i + 1 && pre[a].config.realmEnable
          ensures !pre[b].config.realmEnable
        {
          if b < i {
            assert sections[..i][a] == pre[a] && sections[..i][b] == pre[b];
          }
        }
      }
      backends := backends + [BackendOf(sections[i])];
      i := i + 1;
    }
    assert sections[..i] == sections;
    assert backends == seq(|sections|, k requires 0 <= k < |sections| => BackendOf(sections[k]));
    r := Ok(backends);
  }

  /** The start-up result has at most one realm provider, and every backend carries the
      flags, zones and realm name of its section unchanged. */
  lemma SetupAtMostOneRealm(foreman: Option<seq<Section>>)
    requires SetupSpec(foreman).Ok?
    ensures var bs := SetupSpec(foreman).value;
            (foreman.None? ==> bs == []) &&
            (foreman.Some? ==>
               |bs| == |foreman.value| &&
               forall k :: 0 <= k < |bs| ==>
                 bs[k].name == foreman.value[k].name && bs[k].url == foreman.value[k].config.url &&
                 bs[k].arpaEnable == foreman.value[k].config.dnsArpaEnable &&
                 bs[k].forwardEnable == foreman.value[k].config.dnsForwardEnable &&
                 bs[k].realmEnable == foreman.value[k].config.realmEnable &&
                 bs[k].realmName == foreman.value[k].config.realmName &&
                 (forall z :: z in bs[k].zones <==> z in foreman.value[k].config.dnsArpaZones)) &&
            forall i, j :: 0 <= i < j < |bs| && bs[i].realmEnable ==> !bs[j].realmEnable
  {
  }

  /** A second realm section is fatal wherever it comes. */
  lemma SetupSecondRealmFatal(foreman: seq<Section>, i: nat, j: nat)
    requires i < j < |foreman| && foreman[i].config.realmEnable && foreman[j].config.realmEnable
    ensures SetupSpec(Some(foreman)) == Err(Uncaught(SystemExit))
  {
  }

  /** `setup_foreman_backend` as written: the `CrudForeman(...)` call leaves out
      `ssl_ca`, a parameter without a default, so the first section of a non-empty
      setting raises `TypeError` before any backend is appended. */
  function SetupAsWritten(foreman: Option<seq<Section>>): (r: Result<seq<Settings>>)
    ensures r.Err? ==> r.error == Uncaught(TypeError)
  {
    if foreman.None? || foreman.value == [] then Ok([])
    else Err(Uncaught(TypeError))
  }

  /** As written, start-up never builds a backend and never reaches the realm check's
      fatal exit: it agrees with the intended `SetupSpec` only when there is nothing to
      build, and any section at all makes it fail. */
  lemma SetupAsWrittenBuildsNothing(foreman: Option<seq<Section>>)
    ensures SetupAsWritten(foreman) != Err(Uncaught(SystemExit))
    ensures SetupAsWritten(foreman).Ok? ==> SetupAsWritten(foreman).value == []
    ensures SetupAsWritten(foreman) == SetupSpec(foreman) <==> foreman.None? || foreman.value == []
  {
    if foreman.Some? && foreman.value == [] {
      var empty := seq(|foreman.value|, k requires 0 <= k < |foreman.value| => BackendOf(foreman.value[k]));
      assert empty == [];
      assert !TwoRealms(foreman.value);
    }
  }

  // ---------------------------------------------------------------- the admin user

  const AdminFilter: Filter := map["id" := Literal(Str("admin"))]

  /** The admin user's record (`ModelV2UserPost` plus id and backend); the password hash
      stands for the random password after hashing. */
  function AdminRecord(passwordHash: string): Doc {
    map["admin" := Bool(true), "email" := Str("admin@example.com"), "name" := Str("admin"),
        "password" := Str(passwordHash), "id" := Str("admin"), "backend" := Str("internal")]
  }

  /** `setup_admin_user`: look the admin up; create it only when it is not found. */
  function SetupAdminSpec(env: Env, st: Store, passwordHash: string): (Outcome, Store) {
    var (got, st1) := CrudCommon.GetSpec(env, st, AdminFilter, Some(["_id"]));
    if got.Ok? then (Pass, st1)
    else if got.error != ResourceNotFound then (Fail(got.error), st1)
    else
      var (made, st2) := CrudCommon.CreateSpec(env, st1, AdminRecord(passwordHash), Some(["_id"]));
      (if made.Err? then Fail(made.error) else Pass, st2)
  }

  method SetupAdminUser(users: CrudCommon.CrudMongo, passwordHash: string) returns (r: Outcome)
    requires users.coll.Valid()
    modifies users.coll
    ensures users.coll.Valid()
    ensures (r, users.coll.store) == SetupAdminSpec(users.coll.env, old(users.coll.store), passwordHash)
  {
    var got := users.Get(AdminFilter, Some(["_id"]));
    if got.Ok? {
      return Pass;
    }
    if got.error != ResourceNotFound {
      return Fail(got.error);
    }
    var made := users.Create(AdminRecord(passwordHash), Some(["_id"]));
    r := if made.Err? then Fail(made.error) else Pass;
  }

  /** An existing admin is left as it is; a missing one is created as the last document,
      an admin with the internal backend; a store that cannot be reached creates nothing. */
  lemma SetupAdminCreatesIfAbsent(env: Env, st: Store, passwordHash: string)
    requires StoreValid(st)
    ensures var (r, st1) := SetupAdminSpec(env, st, passwordHash);
            (((exists j :: 0 <= j < |st.docs| && Matches(st.docs[j], AdminFilter, env.regex)) && !env.fails(st.trips)) ==>
               r == Pass && st1.docs == st.docs) &&
            (env.fails(st.trips) ==> r == Fail(BackendError) && st1.docs == st.docs) &&
            (r.Pass? && st1.docs != st.docs ==>
               |st1.docs| == |st.docs| + 1 && st1.docs[..|st.docs|] == st.docs &&
               Get(st1.docs[|st.docs|], "id") == Str("admin") && Get(st1.docs[|st.docs|], "admin") == Bool(true) &&
               Get(st1.docs[|st.docs|], "backend") == Str("internal"))
  {
    CrudCommon.GetErrors(env, st, AdminFilter, Some(["_id"]));
    if !env.fails(st.trips) {
      CrudCommon.GetFindsFirst(env, st, AdminFilter, Some(["_id"]));
    }
    var (got, st1) := CrudCommon.GetSpec(env, st, AdminFilter, Some(["_id"]));
    if got == Err(ResourceNotFound) {
      assert StoreValid(st1);
      var data := AdminRecord(passwordHash);
      assert SetupAdminSpec(env, st, passwordHash).1 == CrudCommon.CreateSpec(env, st1, data, Some(["_id"])).1;
      CrudCommon.CreateOutcome(env, st1, data, Some(["_id"]));
      assert "id" in data && "admin" in data && "backend" in data && IdKey !in data;
    }
  }
}
