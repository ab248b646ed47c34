/** The current registration endpoints (catweazle/controller/api/v2/instances.py): an
    instance is stored first and then announced to every foreman backend in list order;
    the first backend failure rolls the registration back through the delete endpoint. */
module ControllerV2 {
  import opened Base
  import opened Mongo
  import opened Http
  import opened CrudForeman
  import CrudMixins
  import CrudInstances

  // ---------------------------------------------------------------- the caller

  /** What the authorization gate knows of a request: whether a user could be found (and
      otherwise the error it raised), whether that user is an admin, the permissions
      granted to it, and the client's address. */
  datatype Caller = Caller(identity: Outcome, admin: bool, granted: set<string>, host: string)

  /** `require_user`. */
  function RequireUser(c: Caller): Outcome {
    c.identity
  }

  /** `require_permission`: an admin passes, anyone else needs the permission itself. */
  function RequirePermission(c: Caller, permission: string): (r: Outcome)
    ensures r.Pass? <==> c.identity.Pass? && (c.admin || permission in c.granted)
    ensures c.identity.Fail? ==> r == c.identity
    ensures r.Fail? && c.identity.Pass? ==> r.error == PermError
  {
    if c.identity.Fail? then c.identity
    else if c.admin || permission in c.granted then Pass
    else Fail(PermError)
  }

  /** `fields.discard(f)` on the requested set, as the list handed to the store. */
  function Discard(fields: seq<string>, f: string): (r: seq<string>)
    ensures forall x :: x in r <==> x in fields && x != f
  {
    if fields == [] then []
    else (if fields[0] == f then [] else [fields[0]]) + Discard(fields[1..], f)
  }

  // ---------------------------------------------------------------- the fan-out

  /** The two loops over the backends: announcing an instance and withdrawing it. */
  datatype Phase = Register | Unregister

  /** One backend's turn. Registering runs `create_dns`, then `create_realm` (whose
      password is dropped); any failure ends the loop. Withdrawing runs `delete_dns` and
      `delete_realm` and swallows `BackendError` from each; other errors end the loop. */
  function StepOp(phase: Phase, s: Settings, respond: Responder, log: seq<Entry>, fqdn: Option<string>, ip: Option<string>)
    : (Outcome, seq<Entry>)
  {
    match phase
    case Register =>
      var (d, log1) := CreateDnsOp(s, respond, log, fqdn, ip);
      if d.Fail? then (d, log1)
      else
        var (otp, log2) := CreateRealmOp(s, respond, log1, fqdn);
        (CrudForeman.Drop(otp), log2)
    case Unregister =>
      var (d, log1) := DeleteDnsOp(s, respond, log, fqdn, ip);
      if d.Fail? && d.error != BackendError then (d, log1)
      else
        var (e, log2) := DeleteRealmOp(s, respond, log1, fqdn);
        (if e.Fail? && e.error != BackendError then e else Pass, log2)
  }

  lemma DnsExtends(s: Settings, respond: Responder, log: seq<Entry>, fqdn: Option<string>, ip: Option<string>)
    ensures log <= CreateDnsOp(s, respond, log, fqdn, ip).1
    ensures log <= DeleteDnsOp(s, respond, log, fqdn, ip).1
  {
    ArpaExtends(s, respond, log, fqdn, ip);
    var log1 := CreateArpaOp(s, respond, log, fqdn, ip).1;
    assert log1 <= CreateForwardOp(s, respond, log1, fqdn, ip).1;
    var log2 := DeleteArpaOp(s, respond, log, fqdn, ip).1;
    assert log2 <= DeleteForwardOp(s, respond, log2, fqdn).1;
  }

  /** The PTR steps only append requests. */
  lemma ArpaExtends(s: Settings, respond: Responder, log: seq<Entry>, fqdn: Option<string>, ip: Option<string>)
    ensures log <= CreateArpaOp(s, respond, log, fqdn, ip).1
    ensures log <= DeleteArpaOp(s, respond, log, fqdn, ip).1
  {
    if s.arpaEnable && ParseIp(ip).Ok? {
      var a := ParseIp(ip).value;
      assert log <= PostOp(s, respond, log, "/dns/", PtrBody(fqdn, a)).1;
      assert log <= DeleteOp(s, respond, log, PtrPath(a)).1;
    }
  }

  /** A turn only appends requests, and withdrawing never fails with `BackendError`. */
  lemma StepExtends(phase: Phase, s: Settings, respond: Responder, log: seq<Entry>, fqdn: Option<string>, ip: Option<string>)
    ensures log <= StepOp(phase, s, respond, log, fqdn, ip).1
    ensures phase == Unregister && StepOp(phase, s, respond, log, fqdn, ip).0.Fail? ==>
            StepOp(phase, s, respond, log, fqdn, ip).0.error != BackendError
  {
    DnsExtends(s, respond, log, fqdn, ip);
    match phase
    case Register =>
      var log1 := CreateDnsOp(s, respond, log, fqdn, ip).1;
      assert log1 <= CreateRealmOp(s, respond, log1, fqdn).1;
    case Unregister =>
      var log1 := DeleteDnsOp(s, respond, log, fqdn, ip).1;
      assert log1 <= DeleteRealmOp(s, respond, log1, fqdn).1;
  }

  /** The loop over the backends in list order, up to the first failure. */
  function FanOut(phase: Phase, confs: seq<Settings>, respond: Responder, log: seq<Entry>,
                  fqdn: Option<string>, ip: Option<string>): (Outcome, seq<Entry>)
    decreases |confs|
  {
    if confs == [] then (Pass, log)
    else
      var (r, log1) := FanOut(phase, confs[..|confs| - 1], respond, log, fqdn, ip);
      if r.Fail? then (r, log1) else StepOp(phase, confs[|confs| - 1], respond, log1, fqdn, ip)
  }

  /** The loop after `k + 1` backends is the loop after `k` followed by backend `k`'s turn. */
  lemma FanOutSnoc(phase: Phase, confs: seq<Settings>, k: nat, respond: Responder, log: seq<Entry>,
                   fqdn: Option<string>, ip: Option<string>)
    requires k < |confs|
    ensures var (r, log1) := FanOut(phase, confs[..k], respond, log, fqdn, ip);
            FanOut(phase, confs[..k + 1], respond, log, fqdn, ip) ==
              if r.Fail? then (r, log1) else StepOp(phase, confs[k], respond, log1, fqdn, ip)
  {
    assert confs[..k + 1][..k] == confs[..k];
  }

  /** Requests are only ever appended. */
  lemma {:induction false} FanOutExtends(phase: Phase, confs: seq<Settings>, respond: Responder, log: seq<Entry>,
                                         fqdn: Option<string>, ip: Option<string>)
    ensures log <= FanOut(phase, confs, respond, log, fqdn, ip).1
    decreases |confs|
  {
    if confs != [] {
      FanOutExtends(phase, confs[..|confs| - 1], respond, log, fqdn, ip);
      var log1 := FanOut(phase, confs[..|confs| - 1], respond, log, fqdn, ip).1;
      StepExtends(phase, confs[|confs| - 1], respond, log1, fqdn, ip);
    }
  }

  /** Once a prefix of the backends has failed, the later ones are never contacted. */
  lemma {:induction false} FanOutStops(phase: Phase, confs: seq<Settings>, k: nat, respond: Responder, log: seq<Entry>,
                                       fqdn: Option<string>, ip: Option<string>)
    requires k <= |confs|
    requires FanOut(phase, confs[..k], respond, log, fqdn, ip).0.Fail?
    ensures FanOut(phase, confs, respond, log, fqdn, ip) == FanOut(phase, confs[..k], respond, log, fqdn, ip)
    decreases |confs| - k
  {
    if k < |confs| {
      var init := confs[..|confs| - 1];
      assert init[..k] == confs[..k];
      FanOutStops(phase, init, k, respond, log, fqdn, ip);
    } else {
      assert confs[..k] == confs;
    }
  }

  /** A failed loop failed at one backend: every earlier one passed, and that backend's
      turn is the whole loop's outcome and its last requests. */
  lemma {:induction false} FanOutFirstFailure(phase: Phase, confs: seq<Settings>, respond: Responder, log: seq<Entry>,
                                              fqdn: Option<string>, ip: Option<string>)
    requires FanOut(phase, confs, respond, log, fqdn, ip).0.Fail?
    ensures exists k :: 0 <= k < |confs| &&
              FanOut(phase, confs[..k], respond, log, fqdn, ip).0 == Pass &&
              FanOut(phase, confs, respond, log, fqdn, ip) ==
                StepOp(phase, confs[k], respond, FanOut(phase, confs[..k], respond, log, fqdn, ip).1, fqdn, ip)
    decreases |confs|
  {
    var init := confs[..|confs| - 1];
    var (r, log1) := FanOut(phase, init, respond, log, fqdn, ip);
    if r.Fail? {
      FanOutFirstFailure(phase, init, respond, log, fqdn, ip);
      var k :| 0 <= k < |init| &&
               FanOut(phase, init[..k], respond, log, fqdn, ip).0 == Pass &&
               FanOut(phase, init, respond, log, fqdn, ip) ==
                 StepOp(phase, init[k], respond, FanOut(phase, init[..k], respond, log, fqdn, ip).1, fqdn, ip);
      assert init[..k] == confs[..k] && init[k] == confs[k];
    } else {
      assert init == confs[..|confs| - 1];
    }
  }

  /** Every prefix of a loop that passed passed too, with an earlier part of its log. */
  lemma {:induction false} FanOutPrefix(phase: Phase, confs: seq<Settings>, k: nat, respond: Responder, log: seq<Entry>,
                                        fqdn: Option<string>, ip: Option<string>)
    requires k <= |confs|
    requires FanOut(phase, confs, respond, log, fqdn, ip).0 == Pass
    ensures FanOut(phase, confs[..k], respond, log, fqdn, ip).0 == Pass
    ensures FanOut(phase, confs[..k], respond, log, fqdn, ip).1 <= FanOut(phase, confs, respond, log, fqdn, ip).1
    decreases |confs|
  {
    if k == |confs| {
      assert confs[..k] == confs;
    } else {
      var init := confs[..|confs| - 1];
      var (r, log1) := FanOut(phase, init, respond, log, fqdn, ip);
      StepExtends(phase, confs[|confs| - 1], respond, log1, fqdn, ip);
      assert init[..k] == confs[..k];
      FanOutPrefix(phase, init, k, respond, log, fqdn, ip);
    }
  }

  /** A loop that passed gave every backend its full turn, in list order: the requests of
      backend `k` follow those of the backends before it. */
  lemma FanOutVisitsAll(phase: Phase, confs: seq<Settings>, k: nat, respond: Responder, log: seq<Entry>,
                        fqdn: Option<string>, ip: Option<string>)
    requires k < |confs|
    requires FanOut(phase, confs, respond, log, fqdn, ip).0 == Pass
    ensures FanOut(phase, confs[..k], respond, log, fqdn, ip).0 == Pass
    ensures FanOut(phase, confs[..k + 1], respond, log, fqdn, ip) ==
            StepOp(phase, confs[k], respond, FanOut(phase, confs[..k], respond, log, fqdn, ip).1, fqdn, ip)
    ensures FanOut(phase, confs[..k + 1], respond, log, fqdn, ip).1 <= FanOut(phase, confs, respond, log, fqdn, ip).1
  {
    FanOutPrefix(phase, confs, k, respond, log, fqdn, ip);
    FanOutPrefix(phase, confs, k + 1, respond, log, fqdn, ip);
    FanOutSnoc(phase, confs, k, respond, log, fqdn, ip);
  }

  /** Withdrawing cannot fail on backend errors: when the address parses (or no backend
      manages reverse zones) every backend is contacted whatever it replies. */
  lemma {:induction false} UnregisterPasses(confs: seq<Settings>, respond: Responder, log: seq<Entry>,
                                            fqdn: Option<string>, ip: Option<string>)
    requires ParseIp(ip).Ok? || forall k :: 0 <= k < |confs| ==> !confs[k].arpaEnable
    ensures FanOut(Unregister, confs, respond, log, fqdn, ip).0 == Pass
    decreases |confs|
  {
    if confs != [] {
      var init := confs[..|confs| - 1];
      assert forall k :: 0 <= k < |init| ==> init[k] == confs[k];
      UnregisterPasses(init, respond, log, fqdn, ip);
      var log1 := FanOut(Unregister, init, respond, log, fqdn, ip).1;
      var s := confs[|confs| - 1];
      var (d, log2) := DeleteDnsOp(s, respond, log1, fqdn, ip);
      assert d.Fail? ==> d.error == BackendError;
    }
  }

  // ---------------------------------------------------------------- the endpoints

  /** Everything an endpoint depends on but does not change: the store's behaviour, the
      domain suffix of new names, the remote's replies and the backends' settings. */
  datatype Deployment = Deployment(env: Env, suffix: string, respond: Responder, confs: seq<Settings>)

  /** The instance store and the log of requests sent to the backends. */
  datatype State = State(store: Store, log: seq<Entry>)

  /** `delete`: `INSTANCE:DELETE`, then the record's name and address, then every backend,
      then the record. */
  function DeleteSpec(dep: Deployment, c: Caller, s: State, id: string): (Result<()>, State) {
    var p := RequirePermission(c, "INSTANCE:DELETE");
    if p.Fail? then (Err(p.error), s)
    else
      var (got, st1) := CrudInstances.GetSpec(dep.env, s.store, id, Some(["fqdn", "ip_address"]));
      match got
      case Err(e) => (Err(e), State(st1, s.log))
      case Ok(x) =>
        var (f, log1) := FanOut(Unregister, dep.confs, dep.respond, s.log, x.fqdn, x.ipAddress);
        if f.Fail? then (Err(f.error), State(st1, log1))
        else
          var (d, st2) := CrudInstances.DeleteSpec(dep.env, st1, id);
          (d, State(st2, log1))
  }

  /** `create`: `INSTANCE:POST`, the store record, then every backend; on a
      `BackendError` the registration is rolled back by `delete` and the error raised
      again, unless the rollback itself raises. */
  function CreateSpec(dep: Deployment, c: Caller, s: State, id: string, payload: CrudInstances.InstancePost,
                      fields: seq<string>): (Result<CrudInstances.Instance>, State)
  {
    var p := RequirePermission(c, "INSTANCE:POST");
    if p.Fail? then (Err(p.error), s)
    else
      var (made, st1) := CrudInstances.CreateSpec(dep.env, s.store, dep.suffix, id, payload, Some(fields));
      match made
      case Err(e) => (Err(e), State(st1, s.log))
      case Ok(x) =>
        var (f, log1) := FanOut(Register, dep.confs, dep.respond, s.log, x.fqdn, x.ipAddress);
        if f.Pass? then (Ok(x), State(st1, log1))
        else if f.error != BackendError then (Err(f.error), State(st1, log1))
        else
          var (d, s2) := DeleteSpec(dep, c, State(st1, log1), id);
          (if d.Err? then Err(d.error) else Err(BackendError), s2)
  }

  /** The record without its one-time password. */
  function WithoutOtp(x: CrudInstances.Instance): (r: CrudInstances.Instance)
    ensures r.ipaOtp.None?
    ensures r.(ipaOtp := x.ipaOtp) == x
  {
    x.(ipaOtp := None)
  }

  function HideOtp(r: Result<CrudInstances.Instance>): Result<CrudInstances.Instance> {
    if r.Ok? then Ok(WithoutOtp(r.value)) else r
  }

  /** `get` as written: a user's requested fields lose `ipa_otp`; a caller without a
      session may read its own record, recognised by its client address. */
  function GetAsWritten(dep: Deployment, c: Caller, st: Store, id: string, fields: seq<string>)
    : (Result<CrudInstances.Instance>, Store)
  {
    var u := RequireUser(c);
    if u.Pass? then CrudInstances.GetSpec(dep.env, st, id, Some(Discard(fields, "ipa_otp")))
    else if u.error != SessionCredentialError then (Err(u.error), st)
    else
      var (probe, st1) := CrudInstances.GetSpec(dep.env, st, id, Some(["id", "ip_address"]));
      match probe
      case Err(e) => (Err(e), st1)
      case Ok(x) =>
        if x.ipAddress != Some(c.host) then (Err(SessionCredentialError), st1)
        else CrudInstances.GetSpec(dep.env, st1, id, Some(fields))
  }

  /** `get` with the password withheld from users whatever fields they ask for. */
  function GetSpec(dep: Deployment, c: Caller, st: Store, id: string, fields: seq<string>)
    : (Result<CrudInstances.Instance>, Store)
  {
    var (r, st1) := GetAsWritten(dep, c, st, id, fields);
    (if RequireUser(c).Pass? then HideOtp(r) else r, st1)
  }

  /** The filters and ordering of a `search` request, with the endpoint's defaults
      (`sort = "id"`, `ascending`, page 0, 10 per page) filled in by the caller. */
  datatype SearchParams = SearchParams(id: Option<string>, indicator: Option<string>, ip: Option<string>,
                                       fqdn: Option<string>, sort: string, sortOrder: string, page: nat, limit: nat)

  function StripOtp(xs: seq<CrudInstances.Instance>): (r: seq<CrudInstances.Instance>)
    ensures |r| == |xs| && forall k :: 0 <= k < |xs| ==> r[k] == WithoutOtp(xs[k])
  {
    if xs == [] then [] else [WithoutOtp(xs[0])] + StripOtp(xs[1..])
  }

  /** The page size the endpoint's query declaration admits (`ge=10, le=1000`). */
  predicate LimitAdmitted(limit: nat) {
    10 <= limit <= 1000
  }

  /** `search` as written: a page size outside 10..1000 refused by the framework, then
      users only, `ipa_otp` dropped from the requested fields. */
  function SearchAsWritten(dep: Deployment, c: Caller, st: Store, q: SearchParams, fields: seq<string>)
    : (Result<CrudInstances.InstanceMulti>, Store)
  {
    var u := RequireUser(c);
    if !LimitAdmitted(q.limit) then (Err(RequestValidation), st)
    else if u.Fail? then (Err(u.error), st)
    else CrudInstances.SearchSpec(dep.env, st, q.id, q.indicator, q.ip, q.fqdn, Some(Discard(fields, "ipa_otp")),
                                  Some(q.sort), Some(q.sortOrder), Some(q.page), Some(q.limit))
  }

  /** `search` with the password withheld from every record. */
  function SearchSpec(dep: Deployment, c: Caller, st: Store, q: SearchParams, fields: seq<string>)
    : (Result<CrudInstances.InstanceMulti>, Store)
  {
    var (r, st1) := SearchAsWritten(dep, c, st, q, fields);
    match r
    case Err(e) => (Err(e), st1)
    case Ok(m) => (Ok(CrudInstances.InstanceMulti(StripOtp(m.result), m.resultSize)), st1)
  }

  /** `update`: `INSTANCE:POST`, then the metadata write. */
  function UpdateSpec(dep: Deployment, c: Caller, st: Store, id: string, payload: CrudInstances.InstancePut,
                      fields: seq<string>): (Result<CrudInstances.Instance>, Store)
  {
    var p := RequirePermission(c, "INSTANCE:POST");
    if p.Fail? then (Err(p.error), st)
    else CrudInstances.UpdateSpec(dep.env, st, id, payload, Some(fields))
  }

  // ---------------------------------------------------------------- properties of the endpoints

  /** The store comes first: when it refuses the record (a duplicate, a lost connection,
      an exhausted host range) no backend hears of the instance. */
  lemma CreateStoreFirst(dep: Deployment, c: Caller, s: State, id: string, payload: CrudInstances.InstancePost,
                         fields: seq<string>)
    requires CrudInstances.CreateSpec(dep.env, s.store, dep.suffix, id, payload, Some(fields)).0.Err?
    ensures var (r, s1) := CreateSpec(dep, c, s, id, payload, fields);
            r.Err? && s1.log == s.log &&
            (RequirePermission(c, "INSTANCE:POST").Pass? ==>
               r.error == CrudInstances.CreateSpec(dep.env, s.store, dep.suffix, id, payload, Some(fields)).0.error)
  {
  }

  /** A registration that succeeds returns the record the store made, keeps it, and has
      given every backend its turn; the realm's one-time password is not written. */
  lemma CreateSucceeds(dep: Deployment, c: Caller, s: State, id: string, payload: CrudInstances.InstancePost,
                       fields: seq<string>)
    requires CreateSpec(dep, c, s, id, payload, fields).0.Ok?
    ensures var (made, st1) := CrudInstances.CreateSpec(dep.env, s.store, dep.suffix, id, payload, Some(fields));
            var (r, s1) := CreateSpec(dep, c, s, id, payload, fields);
            RequirePermission(c, "INSTANCE:POST") == Pass && made.Ok? && r.value == made.value && s1.store == st1 &&
            FanOut(Register, dep.confs, dep.respond, s.log, made.value.fqdn, made.value.ipAddress) == (Pass, s1.log)
  {
  }

  /** On a `BackendError` some backend `k` failed after all before it had passed, no
      later backend was asked to register, and the rollback through `delete` starts from
      where backend `k` left the log; the caller sees `BackendError` unless the rollback
      itself raised. */
  lemma CreateRollsBack(dep: Deployment, c: Caller, s: State, id: string, payload: CrudInstances.InstancePost,
                        fields: seq<string>)
    requires RequirePermission(c, "INSTANCE:POST").Pass?
    requires CrudInstances.CreateSpec(dep.env, s.store, dep.suffix, id, payload, Some(fields)).0.Ok?
    requires var x := CrudInstances.CreateSpec(dep.env, s.store, dep.suffix, id, payload, Some(fields)).0.value;
             FanOut(Register, dep.confs, dep.respond, s.log, x.fqdn, x.ipAddress).0 == Fail(BackendError)
    ensures var (made, st1) := CrudInstances.CreateSpec(dep.env, s.store, dep.suffix, id, payload, Some(fields));
            var x := made.value;
            var (f, log1) := FanOut(Register, dep.confs, dep.respond, s.log, x.fqdn, x.ipAddress);
            var (d, s2) := DeleteSpec(dep, c, State(st1, log1), id);
            (exists k :: 0 <= k < |dep.confs| &&
               FanOut(Register, dep.confs[..k], dep.respond, s.log, x.fqdn, x.ipAddress).0 == Pass &&
               (f, log1) == StepOp(Register, dep.confs[k], dep.respond,
                                   FanOut(Register, dep.confs[..k], dep.respond, s.log, x.fqdn, x.ipAddress).1,
                                   x.fqdn, x.ipAddress)) &&
            CreateSpec(dep, c, s, id, payload, fields) == (Err(if d.Err? then d.error else BackendError), s2)
  {
    var x := CrudInstances.CreateSpec(dep.env, s.store, dep.suffix, id, payload, Some(fields)).0.value;
    FanOutFirstFailure(Register, dep.confs, dep.respond, s.log, x.fqdn, x.ipAddress);
  }

  /** Other errors of a backend turn (an address that does not parse, a realm reply
      without a password, a body that is not JSON) escape without any rollback: the
      record stays in the store. */
  lemma CreateOtherErrorKeepsRecord(dep: Deployment, c: Caller, s: State, id: string, payload: CrudInstances.InstancePost,
                                    fields: seq<string>)
    requires RequirePermission(c, "INSTANCE:POST").Pass?
    requires CrudInstances.CreateSpec(dep.env, s.store, dep.suffix, id, payload, Some(fields)).0.Ok?
    requires var x := CrudInstances.CreateSpec(dep.env, s.store, dep.suffix, id, payload, Some(fields)).0.value;
             var f := FanOut(Register, dep.confs, dep.respond, s.log, x.fqdn, x.ipAddress).0;
             f.Fail? && f.error != BackendError
    ensures var st1 := CrudInstances.CreateSpec(dep.env, s.store, dep.suffix, id, payload, Some(fields)).1;
            var (r, s1) := CreateSpec(dep, c, s, id, payload, fields);
            r.Err? && r.error != BackendError && s1.store == st1
  {
  }

  /** The rollback asks for `INSTANCE:DELETE` again: a caller allowed to register but not
      to delete gets `PermError`, and the new record stays in the store after a backend
      failed. */
  lemma RollbackNeedsDeletePermission(dep: Deployment, c: Caller, s: State, id: string,
                                      payload: CrudInstances.InstancePost, fields: seq<string>)
    requires StoreValid(s.store)
    requires c.identity == Pass && !c.admin && "INSTANCE:POST" in c.granted && "INSTANCE:DELETE" !in c.granted
    requires CrudInstances.CreateSpec(dep.env, s.store, dep.suffix, id, payload, Some(fields)).0.Ok?
    requires var x := CrudInstances.CreateSpec(dep.env, s.store, dep.suffix, id, payload, Some(fields)).0.value;
             FanOut(Register, dep.confs, dep.respond, s.log, x.fqdn, x.ipAddress).0 == Fail(BackendError)
    ensures var (r, s1) := CreateSpec(dep, c, s, id, payload, fields);
            r == Err(PermError) && |s1.store.docs| == |s.store.docs| + 1 &&
            s1.store.docs[..|s.store.docs|] == s.store.docs &&
            Get(s1.store.docs[|s.store.docs|], "id") == Str(id)
  {
    CrudInstances.CreateStoresRecord(dep.env, s.store, dep.suffix, id, payload, Some(fields));
  }

  /** `delete` is best effort: once it has read the record, and when the stored address
      parses (or no backend keeps reverse zones), the loop passes whatever the backends
      reply, so each gets its full turn (`FanOutVisitsAll`), and then the record is
      deleted. */
  lemma DeleteBestEffort(dep: Deployment, c: Caller, s: State, id: string)
    requires RequirePermission(c, "INSTANCE:DELETE").Pass?
    requires CrudInstances.GetSpec(dep.env, s.store, id, Some(["fqdn", "ip_address"])).0.Ok?
    requires var x := CrudInstances.GetSpec(dep.env, s.store, id, Some(["fqdn", "ip_address"])).0.value;
             ParseIp(x.ipAddress).Ok? || forall k :: 0 <= k < |dep.confs| ==> !dep.confs[k].arpaEnable
    ensures var (got, st1) := CrudInstances.GetSpec(dep.env, s.store, id, Some(["fqdn", "ip_address"]));
            var x := got.value;
            var (f, log1) := FanOut(Unregister, dep.confs, dep.respond, s.log, x.fqdn, x.ipAddress);
            var (d, st2) := CrudInstances.DeleteSpec(dep.env, st1, id);
            f == Pass && DeleteSpec(dep, c, s, id) == (d, State(st2, log1))
  {
    var x := CrudInstances.GetSpec(dep.env, s.store, id, Some(["fqdn", "ip_address"])).0.value;
    UnregisterPasses(dep.confs, dep.respond, s.log, x.fqdn, x.ipAddress);
  }

  /** An instance that cannot be read is not deleted anywhere: no backend request, and
      the read's error (`ResourceNotFound` for an unknown id) reaches the caller. */
  lemma DeleteUnknown(dep: Deployment, c: Caller, s: State, id: string)
    requires RequirePermission(c, "INSTANCE:DELETE").Pass?
    requires CrudInstances.GetSpec(dep.env, s.store, id, Some(["fqdn", "ip_address"])).0.Err?
    ensures var (got, st1) := CrudInstances.GetSpec(dep.env, s.store, id, Some(["fqdn", "ip_address"]));
            DeleteSpec(dep, c, s, id) == (Err(got.error), State(st1, s.log))
  {
  }

  /** Users never receive the one-time password, whatever fields they ask for. */
  lemma GetHidesOtp(dep: Deployment, c: Caller, st: Store, id: string, fields: seq<string>)
    requires RequireUser(c).Pass?
    ensures var r := GetSpec(dep, c, st, id, fields).0;
            r.Ok? ==> r.value.ipaOtp.None?
    ensures var r := GetAsWritten(dep, c, st, id, fields).0;
            GetSpec(dep, c, st, id, fields).0.Ok? <==> r.Ok?
  {
  }

  /** The correction changes nothing unless the field list is left empty: a non-empty
      list without `ipa_otp` already leaves the password out. */
  lemma GetCorrectionAgrees(dep: Deployment, c: Caller, st: Store, id: string, fields: seq<string>)
    requires RequireUser(c).Pass? && Discard(fields, "ipa_otp") != []
    ensures GetSpec(dep, c, st, id, fields) == GetAsWritten(dep, c, st, id, fields)
  {
    var fs := Discard(fields, "ipa_otp");
    if CrudInstances.GetSpec(dep.env, st, id, Some(fs)).0.Ok? {
      CrudInstances.GetOmitsOtp(dep.env, st, id, fs);
    }
  }

  /** As written, a user who asks for `ipa_otp` alone is handed the whole record, the
      password included: the discard leaves no field, and no field means no projection. */
  lemma GetLeaksOtp(dep: Deployment, c: Caller, st: Store, id: string, x: CrudInstances.Instance, v: Value)
    requires RequireUser(c).Pass?
    requires !dep.env.fails(st.trips)
    requires FirstMatch(st.docs, CrudInstances.IdFilter(id), dep.env.regex).Some?
    requires st.docs[FirstMatch(st.docs, CrudInstances.IdFilter(id), dep.env.regex).value] ==
             CrudInstances.ToDoc(x)[IdKey := v]
    ensures GetAsWritten(dep, c, st, id, ["ipa_otp"]).0 == Ok(x)
    ensures GetSpec(dep, c, st, id, ["ipa_otp"]).0 == Ok(WithoutOtp(x))
  {
    assert Discard(["ipa_otp"], "ipa_otp") == [];
    CrudInstances.GetReadsStored(dep.env, st, id, x, v);
  }

  /** A caller without a session is answered only when its client address is the
      address stored for the instance; another failure of the gate is passed on. */
  lemma GetAnonymous(dep: Deployment, c: Caller, st: Store, id: string, fields: seq<string>)
    requires RequireUser(c).Fail?
    ensures var (probe, st1) := CrudInstances.GetSpec(dep.env, st, id, Some(["id", "ip_address"]));
            var r := GetSpec(dep, c, st, id, fields).0;
            (c.identity.error != SessionCredentialError ==> GetSpec(dep, c, st, id, fields) == (Err(c.identity.error), st)) &&
            (r.Ok? ==> c.identity.error == SessionCredentialError && probe.Ok? && probe.value.ipAddress == Some(c.host) &&
                       GetSpec(dep, c, st, id, fields) == CrudInstances.GetSpec(dep.env, st1, id, Some(fields)))
  {
  }

  /** Search results never carry the one-time password; as written, asking for
      `ipa_otp` alone searches whole records. */
  lemma SearchHidesOtp(dep: Deployment, c: Caller, st: Store, q: SearchParams, fields: seq<string>)
    ensures var r := SearchSpec(dep, c, st, q, fields).0;
            r.Ok? ==> forall k :: 0 <= k < |r.value.result| ==> r.value.result[k].ipaOtp.None?
    ensures RequireUser(c).Pass? && LimitAdmitted(q.limit) ==>
            SearchAsWritten(dep, c, st, q, ["ipa_otp"]) ==
            CrudInstances.SearchSpec(dep.env, st, q.id, q.indicator, q.ip, q.fqdn, None,
                                     Some(q.sort), Some(q.sortOrder), Some(q.page), Some(q.limit))
  {
    assert Discard(["ipa_otp"], "ipa_otp") == [];
    CrudInstances.SearchNoFields(dep.env, st, q.id, q.indicator, q.ip, q.fqdn,
                                 Some(q.sort), Some(q.sortOrder), Some(q.page), Some(q.limit));
  }

  /** A page size outside 10..1000 is refused before anything else, the store untouched;
      then a caller without a user is refused; so a search that succeeds had both. */
  lemma SearchLimitChecked(dep: Deployment, c: Caller, st: Store, q: SearchParams, fields: seq<string>)
    ensures !LimitAdmitted(q.limit) ==> SearchSpec(dep, c, st, q, fields) == (Err(RequestValidation), st)
    ensures LimitAdmitted(q.limit) && RequireUser(c).Fail? ==>
            SearchSpec(dep, c, st, q, fields) == (Err(RequireUser(c).error), st)
    ensures SearchSpec(dep, c, st, q, fields).0.Ok? ==> LimitAdmitted(q.limit) && RequireUser(c).Pass?
  {
  }

  /** As written, a user whose search asks for `ipa_otp` alone is handed whole records,
      the password included; the corrected search withholds it. */
  lemma SearchLeaksOtp(dep: Deployment, c: Caller, st: Store, q: SearchParams, x: CrudInstances.Instance, v: Value)
    requires RequireUser(c).Pass?
    requires !dep.env.fails(st.trips) && !dep.env.fails(st.trips + 1)
    requires q.page == 0 && LimitAdmitted(q.limit) && st.docs == [CrudInstances.ToDoc(x)[IdKey := v]]
    requires Matches(st.docs[0], CrudInstances.SearchFilter(q.id, q.indicator, q.ip, q.fqdn), dep.env.regex)
    ensures SearchAsWritten(dep, c, st, q, ["ipa_otp"]).0 == Ok(CrudInstances.InstanceMulti([x], 1))
    ensures SearchSpec(dep, c, st, q, ["ipa_otp"]).0 == Ok(CrudInstances.InstanceMulti([WithoutOtp(x)], 1))
  {
    SearchHidesOtp(dep, c, st, q, ["ipa_otp"]);
    CrudInstances.SearchReadsStored(dep.env, st, q.id, q.indicator, q.ip, q.fqdn, q.sort, q.sortOrder, q.limit, x, v);
    assert SearchAsWritten(dep, c, st, q, ["ipa_otp"]).0 == Ok(CrudInstances.InstanceMulti([x], 1));
    assert StripOtp([x]) == [WithoutOtp(x)];
  }

  /** `update` needs `INSTANCE:POST` and then changes the metadata of the record only. */
  lemma UpdateMetaOnly(dep: Deployment, c: Caller, st: Store, id: string, payload: CrudInstances.InstancePut,
                       fields: seq<string>)
    ensures RequirePermission(c, "INSTANCE:POST").Fail? ==>
            UpdateSpec(dep, c, st, id, payload, fields) == (Err(RequirePermission(c, "INSTANCE:POST").error), st)
    ensures UpdateSpec(dep, c, st, id, payload, fields).0.Ok? ==>
            var i := FirstMatch(st.docs, CrudInstances.IdFilter(id), dep.env.regex).value;
            var st1 := UpdateSpec(dep, c, st, id, payload, fields).1;
            FirstMatch(st.docs, CrudInstances.IdFilter(id), dep.env.regex).Some? &&
            |st1.docs| == |st.docs| && (forall j :: 0 <= j < |st.docs| && j != i ==> st1.docs[j] == st.docs[j]) &&
            (forall k :: k != "meta" ==> (k in st1.docs[i] <==> k in st.docs[i]) &&
                                         (k in st.docs[i] ==> st1.docs[i][k] == st.docs[i][k]))
  {
    if UpdateSpec(dep, c, st, id, payload, fields).0.Ok? {
      CrudInstances.UpdateWritesMetaOnly(dep.env, st, id, payload, Some(fields));
    }
  }

  // ---------------------------------------------------------------- the controller

  class Controller {
    const instances: CrudInstances.Instances
    const backends: seq<Foreman>
    const remote: Remote

    constructor (instances: CrudInstances.Instances, backends: seq<Foreman>, remote: Remote)
      requires forall k :: 0 <= k < |backends| ==> backends[k].remote == remote
      ensures this.instances == instances && this.backends == backends && this.remote == remote
    {
      this.instances := instances;
      this.backends := backends;
      this.remote := remote;
    }

    /** Every backend talks through the shared remote. */
    ghost predicate Valid()
      reads instances.crud.coll
    {
      instances.Valid() && forall k :: 0 <= k < |backends| ==> backends[k].remote == remote
    }

    function Confs(): (r: seq<Settings>)
      ensures |r| == |backends| && forall k :: 0 <= k < |backends| ==> r[k] == backends[k].Conf()
    {
      seq(|backends|, k requires 0 <= k < |backends| => backends[k].Conf())
    }

    function Deploy(): Deployment {
      Deployment(instances.crud.coll.env, instances.domainSuffix, remote.respond, Confs())
    }

    /** One backend's turn of either loop. */
    method Turn(phase: Phase, i: nat, fqdn: Option<string>, ip: Option<string>) returns (r: Outcome)
      requires Valid() && i < |backends|
      modifies remote
      ensures (r, remote.log) == StepOp(phase, Confs()[i], remote.respond, old(remote.log), fqdn, ip)
    {
      var b := backends[i];
      if phase == Register {
        var d := b.CreateDns(fqdn, ip);
        if d.Fail? {
          return d;
        }
        var otp := b.CreateRealm(fqdn);
        r := CrudForeman.Drop(otp);
      } else {
        var d := b.DeleteDns(fqdn, ip);
        if d.Fail? && d.error != BackendError {
          return d;
        }
        var e := b.DeleteRealm(fqdn);
        r := if e.Fail? && e.error != BackendError then e else Pass;
      }
    }

    /** The loop of `create` over the backends (`Register`), and that of `delete`, which
        swallows `BackendError` (`Unregister`). */
    method Each(phase: Phase, fqdn: Option<string>, ip: Option<string>) returns (r: Outcome)
      requires Valid()
      modifies remote
      ensures (r, remote.log) == FanOut(phase, Confs(), remote.respond, old(remote.log), fqdn, ip)
    {
      var i := 0;
      while i < |backends|
        invariant 0 <= i <= |backends|
        invariant (Pass, remote.log) == FanOut(phase, Confs()[..i], remote.respond, old(remote.log), fqdn, ip)
      {
        FanOutSnoc(phase, Confs(), i, remote.respond, old(remote.log), fqdn, ip);
        r := Turn(phase, i, fqdn, ip);
        if r.Fail? {
          FanOutStops(phase, Confs(), i + 1, remote.respond, old(remote.log), fqdn, ip);
          return;
        }
        i := i + 1;
      }
      assert Confs()[..i] == Confs();
      r := Pass;
    }

    method Delete(c: Caller, id: string) returns (r: Result<()>)
      requires Valid()
      modifies instances.crud.coll, remote
      ensures Valid()
      ensures (r, State(instances.crud.coll.store, remote.log)) ==
              DeleteSpec(Deploy(), c, State(old(instances.crud.coll.store), old(remote.log)), id)
    {
      var p := RequirePermission(c, "INSTANCE:DELETE");
      if p.Fail? {
        return Err(p.error);
      }
      var got := instances.Get(id, Some(["fqdn", "ip_address"]));
      if got.Err? {
        return Err(got.error);
      }
      var f := Each(Unregister, got.value.fqdn, got.value.ipAddress);
      if f.Fail? {
        return Err(f.error);
      }
      r := instances.Delete(id);
    }

    method Create(c: Caller, id: string, payload: CrudInstances.InstancePost, fields: seq<string>)
      returns (r: Result<CrudInstances.Instance>)
      requires Valid()
      modifies instances.crud.coll, remote
      ensures Valid()
      ensures (r, State(instances.crud.coll.store, remote.log)) ==
              CreateSpec(Deploy(), c, State(old(instances.crud.coll.store), old(remote.log)), id, payload, fields)
    {
      var p := RequirePermission(c, "INSTANCE:POST");
      if p.Fail? {
        return Err(p.error);
      }
      var made := instances.Create(id, payload, Some(fields));
      if made.Err? {
        return Err(made.error);
      }
      var x := made.value;
      var f := Each(Register, x.fqdn, x.ipAddress);
      if f.Pass? {
        return Ok(x);
      }
      if f.error != BackendError {
        return Err(f.error);
      }
      var d := Delete(c, id);
      r := if d.Err? then Err(d.error) else Err(BackendError);
    }

    method Get(c: Caller, id: string, fields: seq<string>) returns (r: Result<CrudInstances.Instance>)
      requires Valid()
      modifies instances.crud.coll
      ensures Valid()
      ensures (r, instances.crud.coll.store) == GetSpec(Deploy(), c, old(instances.crud.coll.store), id, fields)
    {
      var u := RequireUser(c);
      if u.Pass? {
        var got := instances.Get(id, Some(Discard(fields, "ipa_otp")));
        return HideOtp(got);
      }
      if u.error != SessionCredentialError {
        return Err(u.error);
      }
      var probe := instances.Get(id, Some(["id", "ip_address"]));
      if probe.Err? {
        return Err(probe.error);
      }
      if probe.value.ipAddress != Some(c.host) {
        return Err(SessionCredentialError);
      }
      r := instances.Get(id, Some(fields));
    }

    method Search(c: Caller, q: SearchParams, fields: seq<string>) returns (r: Result<CrudInstances.InstanceMulti>)
      requires Valid()
      modifies instances.crud.coll
      ensures Valid()
      ensures (r, instances.crud.coll.store) == SearchSpec(Deploy(), c, old(instances.crud.coll.store), q, fields)
    {
      if !LimitAdmitted(q.limit) {
        return Err(RequestValidation);
      }
      var u := RequireUser(c);
      if u.Fail? {
        return Err(u.error);
      }
      var found := instances.Search(q.id, q.indicator, q.ip, q.fqdn, Some(Discard(fields, "ipa_otp")),
                                    Some(q.sort), Some(q.sortOrder), Some(q.page), Some(q.limit));
      if found.Err? {
        return Err(found.error);
      }
      r := Ok(CrudInstances.InstanceMulti(StripOtp(found.value.result), found.value.resultSize));
    }

    method Update(c: Caller, id: string, payload: CrudInstances.InstancePut, fields: seq<string>)
      returns (r: Result<CrudInstances.Instance>)
      requires Valid()
      modifies instances.crud.coll
      ensures Valid()
      ensures (r, instances.crud.coll.store) == UpdateSpec(Deploy(), c, old(instances.crud.coll.store), id, payload, fields)
    {
      var p := RequirePermission(c, "INSTANCE:POST");
      if p.Fail? {
        return Err(p.error);
      }
      r := instances.Update(id, payload, Some(fields));
    }
  }
}
