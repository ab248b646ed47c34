/** The legacy registration endpoints (catweazle/controller/instances.py): an instance is
    stored first, then announced to every foreman backend, then to every AWS Route 53
    backend, and finally given a realm password by the one realm backend, if any; an
    application error anywhere in that sequence rolls the registration back through the
    delete endpoint and is reported as a generic `BackEndError`. */
module ControllerLegacy {
  import opened Base
  import opened Mongo
  import opened Http
  import M = ModelsInstances
  import F = ModelsForemanProxy
  import A = ModelsAwsRoute53
  import CrudForeman

  // ---------------------------------------------------------------- the request

  /** What an endpoint reads from a request: the instance id of the path, the answer of
      the authorization gate `aa.require(request, x)` for every `x`, the client's
      address, the query parameters, and the body as it comes out of JSON decoding,
      schema validation and `.get('data')` (or the error one of them raised). */
  datatype Request = Request(instance: string, require: string -> Outcome, remote: string,
                             query: map<string, string>, body: Result<Doc>)

  /** `request.query.get(key, None)`. */
  function Query(req: Request, key: string): (r: Option<string>)
    ensures r.Some? <==> key in req.query
    ensures r.Some? ==> r.value == req.query[key]
  {
    if key in req.query then Some(req.query[key]) else None
  }

  // ---------------------------------------------------------------- reading the record

  /** The two fields the backends are told about, as Python hands them on: a text stays a
      text, any other stored value is taken as `None`. */
  datatype Args = Args(fqdn: Option<string>, ip: Option<string>)

  function Text(doc: Doc, key: string): (r: Option<string>)
    ensures r.Some? <==> key in doc && doc[key].Str?
    ensures r.Some? ==> doc[key] == Str(r.value)
  {
    if key in doc && doc[key].Str? then Some(doc[key].s) else None
  }

  /** `record['data']['fqdn']` and `record['data']['ip_address']`, read where the
      endpoints read them: a backend loop that runs at all reads both, the realm step
      only the name; a missing key is a `KeyError`. */
  function ArgsOf(doc: Doc, loops: bool, realm: bool): (r: Result<Args>)
    ensures r.Err? <==> (loops && ("fqdn" !in doc || "ip_address" !in doc)) || (realm && "fqdn" !in doc)
    ensures r.Err? ==> r.error == Uncaught(KeyError)
    ensures r.Ok? ==> r.value == Args(Text(doc, "fqdn"), Text(doc, "ip_address"))
  {
    if (loops && ("fqdn" !in doc || "ip_address" !in doc)) || (realm && "fqdn" !in doc) then Err(Uncaught(KeyError))
    else Ok(Args(Text(doc, "fqdn"), Text(doc, "ip_address")))
  }

  // ---------------------------------------------------------------- the backend loops

  /** One configured DNS backend of either kind. */
  datatype Backend = Foreman(proxy: F.Proxy) | Aws(route53: A.Route53)

  /** The loops of `post` (announcing) and of `delete` (withdrawing). */
  datatype Phase = Register | Unregister

  /** `except ForemanConnError: log`: the one error `delete` swallows. */
  function Swallow(o: Outcome): (r: Outcome)
    ensures r.Pass? <==> o.Pass? || o.error == ForemanConnError
    ensures r.Fail? ==> r == o
  {
    if o.Fail? && o.error == ForemanConnError then Pass else o
  }

  /** One backend's turn: `create_dns` or `create` when announcing, `delete_dns` or
      `delete` with `ForemanConnError` swallowed when withdrawing. */
  function TurnOp(phase: Phase, b: Backend, respond: Responder, log: seq<Entry>, args: Args)
    : (Outcome, seq<Entry>)
  {
    match b
    case Foreman(p) =>
      if phase == Register then F.CreateDnsOp(p, respond, log, args.fqdn, args.ip)
      else
        var (d, log1) := F.DeleteDnsOp(p, respond, log, args.fqdn, args.ip);
        (Swallow(d), log1)
    case Aws(a) =>
      if phase == Register then A.CreateOp(a, respond, log, args.fqdn, args.ip)
      else
        var (d, log1) := A.DeleteOp(a, respond, log, args.fqdn, args.ip);
        (Swallow(d), log1)
  }

  /** A turn only appends requests. */
  lemma TurnExtends(phase: Phase, b: Backend, respond: Responder, log: seq<Entry>, args: Args)
    ensures log <= TurnOp(phase, b, respond, log, args).1
  {
    match b
    case Foreman(p) =>
      F.DnsFailures(p, respond, log, args.fqdn, args.ip);
    case Aws(a) =>
      A.ChangesExtend(a, respond, log, args.fqdn, args.ip);
  }

  /** The backends in list order, up to the first error that is not swallowed. */
  function FanOut(phase: Phase, bs: seq<Backend>, respond: Responder, log: seq<Entry>, args: Args)
    : (Outcome, seq<Entry>)
    decreases |bs|
  {
    if bs == [] then (Pass, log)
    else
      var (r, log1) := FanOut(phase, bs[..|bs| - 1], respond, log, args);
      if r.Fail? then (r, log1) else TurnOp(phase, bs[|bs| - 1], respond, log1, args)
  }

  /** The loop after `k + 1` backends is the loop after `k` followed by backend `k`'s turn. */
  lemma FanOutSnoc(phase: Phase, bs: seq<Backend>, k: nat, respond: Responder, log: seq<Entry>, args: Args)
    requires k < |bs|
    ensures var (r, log1) := FanOut(phase, bs[..k], respond, log, args);
            FanOut(phase, bs[..k + 1], respond, log, args) ==
              if r.Fail? then (r, log1) else TurnOp(phase, bs[k], respond, log1, args)
  {
    assert bs[..k + 1][..k] == bs[..k];
  }

  /** Once a prefix of the backends has failed, the later ones are never contacted. */
  lemma {:induction false} FanOutStops(phase: Phase, bs: seq<Backend>, k: nat, respond: Responder, log: seq<Entry>,
                                       args: Args)
    requires k <= |bs|
    requires FanOut(phase, bs[..k], respond, log, args).0.Fail?
    ensures FanOut(phase, bs, respond, log, args) == FanOut(phase, bs[..k], respond, log, args)
    decreases |bs| - k
  {
    if k < |bs| {
      var init := bs[..|bs| - 1];
      assert init[..k] == bs[..k];
      FanOutStops(phase, init, k, respond, log, args);
    } else {
      assert bs[..k] == bs;
    }
  }

  /** Requests are only ever appended. */
  lemma {:induction false} FanOutExtends(phase: Phase, bs: seq<Backend>, respond: Responder, log: seq<Entry>, args: Args)
    ensures log <= FanOut(phase, bs, respond, log, args).1
    decreases |bs|
  {
    if bs != [] {
      FanOutExtends(phase, bs[..|bs| - 1], respond, log, args);
      var log1 := FanOut(phase, bs[..|bs| - 1], respond, log, args).1;
      TurnExtends(phase, bs[|bs| - 1], respond, log1, args);
    }
  }

  /** Two loops one after the other are one loop over both lists: the second list is
      reached only when the whole first list passed, and starts from its log. */
  lemma {:induction false} FanOutAppend(phase: Phase, xs: seq<Backend>, ys: seq<Backend>, respond: Responder,
                                        log: seq<Entry>, args: Args)
    ensures var (r, log1) := FanOut(phase, xs, respond, log, args);
            FanOut(phase, xs + ys, respond, log, args) ==
              if r.Fail? then (r, log1) else FanOut(phase, ys, respond, log1, args)
    decreases |ys|
  {
    if ys == [] {
      assert xs + ys == xs;
    } else {
      var init := ys[..|ys| - 1];
      assert (xs + ys)[..|xs + ys| - 1] == xs + init;
      assert (xs + ys)[|xs + ys| - 1] == ys[|ys| - 1];
      FanOutAppend(phase, xs, init, respond, log, args);
    }
  }

  /** Withdrawing never stops at a foreman backend that answers with an error status:
      when the stored address parses, every backend gets its turn whatever it replies. */
  lemma {:induction false} UnregisterPasses(bs: seq<Backend>, respond: Responder, log: seq<Entry>, args: Args)
    requires CrudForeman.ParseIp(args.ip).Ok?
    ensures FanOut(Unregister, bs, respond, log, args).0 == Pass
    decreases |bs|
  {
    if bs != [] {
      UnregisterPasses(bs[..|bs| - 1], respond, log, args);
      var log1 := FanOut(Unregister, bs[..|bs| - 1], respond, log, args).1;
      match bs[|bs| - 1]
      case Foreman(p) =>
        F.DnsFailures(p, respond, log1, args.fqdn, args.ip);
      case Aws(a) =>
        A.CreateNeverFailsOnReplies(a, respond, log1, args.fqdn, args.ip);
    }
  }

  // ---------------------------------------------------------------- the endpoints

  /** Everything an endpoint depends on but does not change: the store's behaviour and
      settings, the remote's replies, the foreman backends, the AWS backends, the realm
      backend if there is one, and the `indicator_regex` match on instance ids. */
  datatype Deployment = Deployment(env: Env, conf: M.Conf, respond: Responder, foremans: seq<F.Proxy>,
                                   aws: seq<A.Route53>, realm: Option<F.Proxy>, nameOk: string -> bool)

  function ForemanBackends(dep: Deployment): (r: seq<Backend>)
    ensures |r| == |dep.foremans| && forall k :: 0 <= k < |dep.foremans| ==> r[k] == Foreman(dep.foremans[k])
  {
    seq(|dep.foremans|, k requires 0 <= k < |dep.foremans| => Foreman(dep.foremans[k]))
  }

  function AwsBackends(dep: Deployment): (r: seq<Backend>)
    ensures |r| == |dep.aws| && forall k :: 0 <= k < |dep.aws| ==> r[k] == Aws(dep.aws[k])
  {
    seq(|dep.aws|, k requires 0 <= k < |dep.aws| => Aws(dep.aws[k]))
  }

  /** The backend loops visit the foreman backends first, then the AWS backends. */
  function Backends(dep: Deployment): (r: seq<Backend>)
    ensures |r| == |dep.foremans| + |dep.aws|
    ensures forall k :: 0 <= k < |dep.foremans| ==> r[k] == Foreman(dep.foremans[k])
    ensures forall k :: 0 <= k < |dep.aws| ==> r[|dep.foremans| + k] == Aws(dep.aws[k])
  {
    ForemanBackends(dep) + AwsBackends(dep)
  }

  /** The instance store and the log of requests sent to the backends. */
  datatype State = State(store: Store, log: seq<Entry>)

  /** `delete`: `INSTANCE:DELETE`, the record, every DNS backend, the realm backend, and
      then the record itself; `ForemanConnError` from a backend is logged and skipped. */
  function DeleteSpec(dep: Deployment, req: Request, s: State): (Result<()>, State) {
    var p := req.require("INSTANCE:DELETE");
    if p.Fail? then (Err(p.error), s)
    else
      var (got, st1) := M.GetSpec(dep.env, dep.conf, s.store, req.instance, None);
      match got
      case Err(e) => (Err(e), State(st1, s.log))
      case Ok(doc) =>
        match ArgsOf(doc, |Backends(dep)| > 0, dep.realm.Some?)
        case Err(e) => (Err(e), State(st1, s.log))
        case Ok(args) =>
          var (f, log1) := FanOut(Unregister, Backends(dep), dep.respond, s.log, args);
          if f.Fail? then (Err(f.error), State(st1, log1))
          else
            var (e, log2) := if dep.realm.Some? then F.DeleteRealmOp(dep.realm.value, dep.respond, log1, args.fqdn)
                             else (Pass, log1);
            if Swallow(e).Fail? then (Err(e.error), State(st1, log2))
            else
              var (d, st2) := M.DeleteSpec(dep.env, st1, req.instance);
              (d, State(st2, log2))
  }

  /** The rollback of `post`: `delete` on the same request, then `BackEndError`, unless
      the rollback itself raised. */
  function RollbackSpec(dep: Deployment, req: Request, s: State): (Result<Doc>, State) {
    var (d, s2) := DeleteSpec(dep, req, s);
    (Err(if d.Err? then d.error else BackEndError), s2)
  }

  /** An application error of the backend sequence is rolled back; anything else
      escapes as it is and leaves the record in place. */
  function Failed(dep: Deployment, req: Request, s: State, e: Error): (Result<Doc>, State) {
    if IsBaseError(e) then RollbackSpec(dep, req, s) else (Err(e), s)
  }

  /** The realm step of `post`: the backend's password is written into the record,
      whose new state is the endpoint's answer. */
  function RealmSpec(dep: Deployment, req: Request, s: State, doc: Doc, fqdn: Option<string>): (Result<Doc>, State) {
    if dep.realm.None? then (Ok(doc), s)
    else
      var (otp, log1) := F.CreateRealmOp(dep.realm.value, dep.respond, s.log, fqdn);
      match otp
      case Err(e) => Failed(dep, req, State(s.store, log1), e)
      case Ok(pw) =>
        var (w, st1) := M.SetIpaOtpSpec(dep.env, dep.conf, s.store, req.instance, Some(pw));
        match w
        case Err(e) => Failed(dep, req, State(st1, log1), e)
        case Ok(doc1) => (Ok(doc1), State(st1, log1))
  }

  /** `post`: `INSTANCE:POST`, the request body, the id against `indicator_regex`, the
      store record, then every foreman backend, every AWS backend and the realm backend. */
  function PostSpec(dep: Deployment, req: Request, s: State): (Result<Doc>, State) {
    var p := req.require("INSTANCE:POST");
    if p.Fail? then (Err(p.error), s)
    else if req.body.Err? then (Err(req.body.error), s)
    else if !("dns_indicator" in req.body.value && req.body.value["dns_indicator"].Str?) then
      (Err(Uncaught(ValidationError)), s)
    else if !dep.nameOk(req.instance) then (Err(InvalidName), s)
    else
      var (made, st1) := M.CreateSpec(dep.env, dep.conf, s.store, req.instance, req.body.value);
      match made
      case Err(e) => (Err(e), State(st1, s.log))
      case Ok(doc) =>
        match ArgsOf(doc, |Backends(dep)| > 0, dep.realm.Some?)
        case Err(e) => (Err(e), State(st1, s.log))
        case Ok(args) =>
          var (f, log1) := FanOut(Register, Backends(dep), dep.respond, s.log, args);
          if f.Fail? then Failed(dep, req, State(st1, log1), f.error)
          else RealmSpec(dep, req, State(st1, log1), doc, args.fqdn)
  }

  /** `get`: a refusal of the gate that is a `ModelError` is overridden when the caller's
      address is the address stored for the instance; a missing instance re-raises the
      refusal. */
  function GetSpec(dep: Deployment, req: Request, st: Store): (Result<Doc>, Store) {
    var a := req.require(req.instance);
    if a.Fail? && !IsModelError(a.error) then (Err(a.error), st)
    else if a.Fail? then
      var (probe, st1) := M.GetSpec(dep.env, dep.conf, st, req.instance, Some("id,ip_address"));
      match probe
      case Err(e) => (Err(if e == ResourceNotFound then a.error else e), st1)
      case Ok(doc) =>
        if "ip_address" !in doc then (Err(Uncaught(KeyError)), st1)
        else if doc["ip_address"] != Str(req.remote) then (Err(a.error), st1)
        else M.GetSpec(dep.env, dep.conf, st1, req.instance, Query(req, "fields"))
    else M.GetSpec(dep.env, dep.conf, st, req.instance, Query(req, "fields"))
  }

  /** `search`: the query parameters handed to the store unchanged; there is no
      authorization step. */
  function SearchSpec(dep: Deployment, req: Request, st: Store): (Result<seq<Doc>>, Store) {
    M.SearchSpec(dep.env, dep.conf, st, Query(req, "instances"), Query(req, "dns_indicator"), Query(req, "fqdn"),
                 Query(req, "ip_address"), Query(req, "fields"), Query(req, "sort"), Query(req, "page"),
                 Query(req, "limit"))
  }

  // ---------------------------------------------------------------- properties of the endpoints

  /** The foreman backends' loop and the AWS backends' loop, one after the other: an AWS
      backend is contacted only after every foreman backend has passed. */
  lemma BackendsInOrder(dep: Deployment, phase: Phase, respond: Responder, log: seq<Entry>, args: Args)
    ensures var (r, log1) := FanOut(phase, ForemanBackends(dep), respond, log, args);
            FanOut(phase, Backends(dep), respond, log, args) ==
              if r.Fail? then (r, log1) else FanOut(phase, AwsBackends(dep), respond, log1, args)
  {
    FanOutAppend(phase, ForemanBackends(dep), AwsBackends(dep), respond, log, args);
  }

  /** `post` refuses before touching the store or any backend when the gate refuses
      `INSTANCE:POST`, when the body cannot be read, or when the instance id does not
      match `indicator_regex`. */
  lemma PostChecksFirst(dep: Deployment, req: Request, s: State)
    ensures req.require("INSTANCE:POST").Fail? ==>
            PostSpec(dep, req, s) == (Err(req.require("INSTANCE:POST").error), s)
    ensures req.require("INSTANCE:POST").Pass? && req.body.Ok? && "dns_indicator" in req.body.value &&
            req.body.value["dns_indicator"].Str? && !dep.nameOk(req.instance) ==>
            PostSpec(dep, req, s) == (Err(InvalidName), s)
  {
  }

  /** The store comes first: when it refuses the record (a duplicate, a lost connection,
      the number range used up), no backend hears of the instance. */
  lemma PostStoreFirst(dep: Deployment, req: Request, s: State)
    requires req.require("INSTANCE:POST").Pass? && req.body.Ok?
    requires "dns_indicator" in req.body.value && req.body.value["dns_indicator"].Str? && dep.nameOk(req.instance)
    requires M.CreateSpec(dep.env, dep.conf, s.store, req.instance, req.body.value).0.Err?
    ensures var (made, st1) := M.CreateSpec(dep.env, dep.conf, s.store, req.instance, req.body.value);
            PostSpec(dep, req, s) == (Err(made.error), State(st1, s.log))
  {
  }

  /** A registration that succeeds stored the record, gave every backend its turn
      (foreman backends first), and, with a realm backend, answers with the record after
      the realm's password was written into it. */
  lemma PostSucceeds(dep: Deployment, req: Request, s: State)
    requires PostSpec(dep, req, s).0.Ok?
    ensures req.require("INSTANCE:POST").Pass? && req.body.Ok? && dep.nameOk(req.instance)
    ensures "dns_indicator" in req.body.value && req.body.value["dns_indicator"].Str?
    ensures var (made, st1) := M.CreateSpec(dep.env, dep.conf, s.store, req.instance, req.body.value);
            var args := ArgsOf(made.value, |Backends(dep)| > 0, dep.realm.Some?);
            var (f, log1) := FanOut(Register, Backends(dep), dep.respond, s.log, args.value);
            var (r, s1) := PostSpec(dep, req, s);
            made.Ok? && args.Ok? && f == Pass &&
            (dep.realm.None? ==> r.value == made.value && s1 == State(st1, log1)) &&
            (dep.realm.Some? ==>
               var (otp, log2) := F.CreateRealmOp(dep.realm.value, dep.respond, log1, args.value.fqdn);
               otp.Ok? && s1.log == log2 &&
               (r, s1.store) == M.SetIpaOtpSpec(dep.env, dep.conf, st1, req.instance, Some(otp.value)))
  {
    var (made, st1) := M.CreateSpec(dep.env, dep.conf, s.store, req.instance, req.body.value);
    assert made.Ok?;
    var args := ArgsOf(made.value, |Backends(dep)| > 0, dep.realm.Some?);
    assert args.Ok?;
    var (f, log1) := FanOut(Register, Backends(dep), dep.respond, s.log, args.value);
    assert f.Pass?;
    assert PostSpec(dep, req, s) == RealmSpec(dep, req, State(st1, log1), made.value, args.value.fqdn);
    RealmSucceeds(dep, req, State(st1, log1), made.value, args.value.fqdn);
  }

  /** The realm step succeeds only when the realm backend handed out a password and the
      store took it. */
  lemma RealmSucceeds(dep: Deployment, req: Request, s: State, doc: Doc, fqdn: Option<string>)
    requires RealmSpec(dep, req, s, doc, fqdn).0.Ok?
    ensures var (r, s1) := RealmSpec(dep, req, s, doc, fqdn);
            (dep.realm.None? ==> r.value == doc && s1 == s) &&
            (dep.realm.Some? ==>
               var (otp, log2) := F.CreateRealmOp(dep.realm.value, dep.respond, s.log, fqdn);
               otp.Ok? && s1.log == log2 &&
               (r, s1.store) == M.SetIpaOtpSpec(dep.env, dep.conf, s.store, req.instance, Some(otp.value)))
  {
  }

  /** An application error (`BaseError`) of a DNS backend rolls the registration back
      through `delete` on the same request, which starts where the failed backend left
      the log; the caller then sees the generic `BackEndError`, not the backend's error,
      unless the rollback raised its own. */
  lemma PostRollsBack(dep: Deployment, req: Request, s: State)
    requires req.require("INSTANCE:POST").Pass? && req.body.Ok?
    requires "dns_indicator" in req.body.value && req.body.value["dns_indicator"].Str? && dep.nameOk(req.instance)
    requires M.CreateSpec(dep.env, dep.conf, s.store, req.instance, req.body.value).0.Ok?
    requires var doc := M.CreateSpec(dep.env, dep.conf, s.store, req.instance, req.body.value).0.value;
             var args := ArgsOf(doc, |Backends(dep)| > 0, dep.realm.Some?);
             args.Ok? &&
             var f := FanOut(Register, Backends(dep), dep.respond, s.log, args.value).0;
             f.Fail? && IsBaseError(f.error)
    ensures var (made, st1) := M.CreateSpec(dep.env, dep.conf, s.store, req.instance, req.body.value);
            var args := ArgsOf(made.value, |Backends(dep)| > 0, dep.realm.Some?).value;
            var (f, log1) := FanOut(Register, Backends(dep), dep.respond, s.log, args);
            var (d, s2) := DeleteSpec(dep, req, State(st1, log1));
            PostSpec(dep, req, s) == (Err(if d.Err? then d.error else BackEndError), s2)
  {
  }

  /** The realm step is inside the same `try`: a realm backend that fails with an
      application error, or a password that cannot be written, rolls back too. */
  lemma PostRealmRollsBack(dep: Deployment, req: Request, s: State, doc: Doc, fqdn: Option<string>)
    requires dep.realm.Some?
    requires var (otp, log1) := F.CreateRealmOp(dep.realm.value, dep.respond, s.log, fqdn);
             (otp.Err? && IsBaseError(otp.error)) ||
             (otp.Ok? && var w := M.SetIpaOtpSpec(dep.env, dep.conf, s.store, req.instance, Some(otp.value)).0;
                         w.Err? && IsBaseError(w.error))
    ensures var (otp, log1) := F.CreateRealmOp(dep.realm.value, dep.respond, s.log, fqdn);
            var st1 := if otp.Ok? then M.SetIpaOtpSpec(dep.env, dep.conf, s.store, req.instance, Some(otp.value)).1
                       else s.store;
            RealmSpec(dep, req, s, doc, fqdn) == RollbackSpec(dep, req, State(st1, log1))
  {
  }

  /** Errors from outside the application's hierarchy (an address that does not parse, a
      realm reply without a password) escape as they are: no rollback, and the record
      stays in the store. */
  lemma PostOtherErrorKeepsRecord(dep: Deployment, req: Request, s: State)
    requires req.require("INSTANCE:POST").Pass? && req.body.Ok?
    requires "dns_indicator" in req.body.value && req.body.value["dns_indicator"].Str? && dep.nameOk(req.instance)
    requires M.CreateSpec(dep.env, dep.conf, s.store, req.instance, req.body.value).0.Ok?
    requires var doc := M.CreateSpec(dep.env, dep.conf, s.store, req.instance, req.body.value).0.value;
             var args := ArgsOf(doc, |Backends(dep)| > 0, dep.realm.Some?);
             args.Ok? &&
             var f := FanOut(Register, Backends(dep), dep.respond, s.log, args.value).0;
             f.Fail? && !IsBaseError(f.error)
    ensures var (made, st1) := M.CreateSpec(dep.env, dep.conf, s.store, req.instance, req.body.value);
            var args := ArgsOf(made.value, |Backends(dep)| > 0, dep.realm.Some?).value;
            var (f, log1) := FanOut(Register, Backends(dep), dep.respond, s.log, args);
            PostSpec(dep, req, s) == (Err(f.error), State(st1, log1))
  {
  }

  /** `delete` is best effort: once it has read the record, and when the stored address
      parses, no backend reply can stop it; every DNS backend and the realm backend get
      their turn and the record is deleted. */
  lemma DeleteBestEffort(dep: Deployment, req: Request, s: State)
    requires req.require("INSTANCE:DELETE").Pass?
    requires M.GetSpec(dep.env, dep.conf, s.store, req.instance, None).0.Ok?
    requires var doc := M.GetSpec(dep.env, dep.conf, s.store, req.instance, None).0.value;
             var args := ArgsOf(doc, |Backends(dep)| > 0, dep.realm.Some?);
             args.Ok? && CrudForeman.ParseIp(args.value.ip).Ok?
    ensures var (got, st1) := M.GetSpec(dep.env, dep.conf, s.store, req.instance, None);
            var args := ArgsOf(got.value, |Backends(dep)| > 0, dep.realm.Some?).value;
            var (f, log1) := FanOut(Unregister, Backends(dep), dep.respond, s.log, args);
            var log2 := if dep.realm.Some? then F.DeleteRealmOp(dep.realm.value, dep.respond, log1, args.fqdn).1 else log1;
            var (d, st2) := M.DeleteSpec(dep.env, st1, req.instance);
            f == Pass && DeleteSpec(dep, req, s) == (d, State(st2, log2))
  {
    var doc := M.GetSpec(dep.env, dep.conf, s.store, req.instance, None).0.value;
    var args := ArgsOf(doc, |Backends(dep)| > 0, dep.realm.Some?).value;
    UnregisterPasses(Backends(dep), dep.respond, s.log, args);
  }

  /** An instance that cannot be read is not withdrawn anywhere: no backend request, and
      the read's error reaches the caller. */
  lemma DeleteUnknown(dep: Deployment, req: Request, s: State)
    requires req.require("INSTANCE:DELETE").Pass?
    requires M.GetSpec(dep.env, dep.conf, s.store, req.instance, None).0.Err?
    ensures var (got, st1) := M.GetSpec(dep.env, dep.conf, s.store, req.instance, None);
            DeleteSpec(dep, req, s) == (Err(got.error), State(st1, s.log))
  {
  }

  /** `get` answers a caller the gate refused with a `ModelError` only when the caller's
      address is the stored one; the gate's own error comes back for an unknown
      instance, for another address, and always when it is not a `ModelError`. */
  lemma GetAddressOverride(dep: Deployment, req: Request, st: Store)
    requires req.require(req.instance).Fail?
    ensures var a := req.require(req.instance);
            var (probe, st1) := M.GetSpec(dep.env, dep.conf, st, req.instance, Some("id,ip_address"));
            var r := GetSpec(dep, req, st).0;
            (!IsModelError(a.error) ==> GetSpec(dep, req, st) == (Err(a.error), st)) &&
            (IsModelError(a.error) && probe == Err(ResourceNotFound) ==> r == Err(a.error)) &&
            (IsModelError(a.error) && probe.Ok? && "ip_address" in probe.value ==>
               GetSpec(dep, req, st) ==
                 if probe.value["ip_address"] == Str(req.remote)
                 then M.GetSpec(dep.env, dep.conf, st1, req.instance, Query(req, "fields"))
                 else (Err(a.error), st1)) &&
            (r.Ok? ==> IsModelError(a.error) && probe.Ok? && "ip_address" in probe.value &&
                       probe.value["ip_address"] == Str(req.remote))
  {
  }

  /** `search` has no authorization step: the gate's answers do not matter. */
  lemma SearchOpen(dep: Deployment, req: Request, require: string -> Outcome, st: Store)
    ensures SearchSpec(dep, req.(require := require), st) == SearchSpec(dep, req, st)
  {
  }

  // ---------------------------------------------------------------- the controller

  /** The controller. The authorization gate is part of each request (`Request.require`);
      the backends all talk through one remote. */
  class Instances {
    const foremans: seq<F.ForemanProxy>
    const aws: seq<A.AwsRoute53>
    const realm: Option<F.ForemanProxy>
    const instances: M.Instances
    const nameOk: string -> bool
    const remote: Remote

    constructor (foremans: seq<F.ForemanProxy>, aws: seq<A.AwsRoute53>, realm: Option<F.ForemanProxy>,
                 instances: M.Instances, nameOk: string -> bool, remote: Remote)
      ensures this.foremans == foremans && this.aws == aws && this.realm == realm
      ensures this.instances == instances && this.nameOk == nameOk && this.remote == remote
    {
      this.foremans := foremans;
      this.aws := aws;
      this.realm := realm;
      this.instances := instances;
      this.nameOk := nameOk;
      this.remote := remote;
    }

    /** The store is valid, every backend talks through the shared remote, and every AWS
        backend's zone table is well formed. */
    ghost predicate Valid()
      reads instances.coll
    {
      instances.Valid() &&
      (forall k :: 0 <= k < |foremans| ==> foremans[k].remote == remote) &&
      (forall k :: 0 <= k < |aws| ==> aws[k].remote == remote && aws[k].Valid()) &&
      (realm.Some? ==> realm.value.remote == remote)
    }

    function ForemanConfs(): (r: seq<F.Proxy>)
      ensures |r| == |foremans| && forall k :: 0 <= k < |foremans| ==> r[k] == foremans[k].Conf()
    {
      seq(|foremans|, k requires 0 <= k < |foremans| => foremans[k].Conf())
    }

    function AwsConfs(): (r: seq<A.Route53>)
      ensures |r| == |aws| && forall k :: 0 <= k < |aws| ==> r[k] == aws[k].Conf()
    {
      seq(|aws|, k requires 0 <= k < |aws| => aws[k].Conf())
    }

    function Deploy(): Deployment {
      Deployment(instances.coll.env, instances.Settings(), remote.respond, ForemanConfs(), AwsConfs(),
                 if realm.Some? then Some(realm.value.Conf()) else None, nameOk)
    }

    /** Foreman backend `k`'s turn. */
    method ForemanTurn(phase: Phase, k: nat, args: Args) returns (r: Outcome)
      requires Valid() && k < |foremans|
      modifies remote
      ensures (r, remote.log) == TurnOp(phase, Foreman(foremans[k].Conf()), remote.respond, old(remote.log), args)
    {
      var b := foremans[k];
      if phase == Register {
        r := b.CreateDns(args.fqdn, args.ip);
      } else {
        var d := b.DeleteDns(args.fqdn, args.ip);
        r := Swallow(d);
      }
    }

    /** AWS backend `k`'s turn. */
    method AwsTurn(phase: Phase, k: nat, args: Args) returns (r: Outcome)
      requires Valid() && k < |aws|
      modifies remote
      ensures (r, remote.log) == TurnOp(phase, Aws(aws[k].Conf()), remote.respond, old(remote.log), args)
    {
      var b := aws[k];
      if phase == Register {
        r := b.Create(args.fqdn, args.ip);
      } else {
        var d := b.Delete(args.fqdn, args.ip);
        r := Swallow(d);
      }
    }

    /** The loop over the foreman backends, the first part of `bs`. */
    method ForemanLoop(phase: Phase, args: Args, ghost bs: seq<Backend>) returns (r: Outcome)
      requires Valid() && |bs| == |foremans| + |aws|
      requires forall k :: 0 <= k < |foremans| ==> bs[k] == Foreman(foremans[k].Conf())
      modifies remote
      ensures r.Pass? ==> (Pass, remote.log) == FanOut(phase, bs[..|foremans|], remote.respond, old(remote.log), args)
      ensures r.Fail? ==> (r, remote.log) == FanOut(phase, bs, remote.respond, old(remote.log), args)
    {
      var i := 0;
      while i < |foremans|
        invariant 0 <= i <= |foremans|
        invariant (Pass, remote.log) == FanOut(phase, bs[..i], remote.respond, old(remote.log), args)
      {
        FanOutSnoc(phase, bs, i, remote.respond, old(remote.log), args);
        r := ForemanTurn(phase, i, args);
        if r.Fail? {
          FanOutStops(phase, bs, i + 1, remote.respond, old(remote.log), args);
          return;
        }
        i := i + 1;
      }
      r := Pass;
    }

    /** The loop over the AWS backends, the rest of `bs`, after the foreman loop passed. */
    method AwsLoop(phase: Phase, args: Args, ghost bs: seq<Backend>, ghost log0: seq<Entry>) returns (r: Outcome)
      requires Valid() && |bs| == |foremans| + |aws|
      requires forall k :: 0 <= k < |aws| ==> bs[|foremans| + k] == Aws(aws[k].Conf())
      requires (Pass, remote.log) == FanOut(phase, bs[..|foremans|], remote.respond, log0, args)
      modifies remote
      ensures (r, remote.log) == FanOut(phase, bs, remote.respond, log0, args)
    {
      var i := |foremans|;
      while i < |foremans| + |aws|
        invariant |foremans| <= i <= |bs|
        invariant (Pass, remote.log) == FanOut(phase, bs[..i], remote.respond, log0, args)
      {
        FanOutSnoc(phase, bs, i, remote.respond, log0, args);
        assert bs[i] == Aws(aws[i - |foremans|].Conf());
        r := AwsTurn(phase, i - |foremans|, args);
        if r.Fail? {
          FanOutStops(phase, bs, i + 1, remote.respond, log0, args);
          return;
        }
        i := i + 1;
      }
      assert bs[..i] == bs;
      r := Pass;
    }

    /** The two loops of `post` and of `delete`. */
    method Each(phase: Phase, args: Args) returns (r: Outcome)
      requires Valid()
      modifies remote
      ensures (r, remote.log) == FanOut(phase, Backends(Deploy()), remote.respond, old(remote.log), args)
    {
      ghost var bs := Backends(Deploy());
      r := ForemanLoop(phase, args, bs);
      if r.Pass? {
        r := AwsLoop(phase, args, bs, old(remote.log));
      }
    }

    method Delete(req: Request) returns (r: Result<()>)
      requires Valid()
      modifies instances.coll, remote
      ensures Valid()
      ensures (r, State(instances.coll.store, remote.log)) ==
              DeleteSpec(Deploy(), req, State(old(instances.coll.store), old(remote.log)))
    {
      var p := req.require("INSTANCE:DELETE");
      if p.Fail? {
        return Err(p.error);
      }
      var got := instances.Get(req.instance, None);
      if got.Err? {
        return Err(got.error);
      }
      var args := ArgsOf(got.value, |foremans| + |aws| > 0, realm.Some?);
      if args.Err? {
        return Err(args.error);
      }
      var f := Each(Unregister, args.value);
      if f.Fail? {
        return Err(f.error);
      }
      if realm.Some? {
        var e := realm.value.DeleteRealm(args.value.fqdn);
        if Swallow(e).Fail? {
          return Err(e.error);
        }
      }
      r := instances.Delete(req.instance);
    }

    /** The rollback of `post`. */
    method Rollback(req: Request) returns (r: Result<Doc>)
      requires Valid()
      modifies instances.coll, remote
      ensures Valid()
      ensures (r, State(instances.coll.store, remote.log)) ==
              RollbackSpec(Deploy(), req, State(old(instances.coll.store), old(remote.log)))
    {
      var d := Delete(req);
      r := Err(if d.Err? then d.error else BackEndError);
    }

    method Post(req: Request) returns (r: Result<Doc>)
      requires Valid()
      modifies instances.coll, remote
      ensures Valid()
      ensures (r, State(instances.coll.store, remote.log)) ==
              PostSpec(Deploy(), req, State(old(instances.coll.store), old(remote.log)))
    {
      var p := req.require("INSTANCE:POST");
      if p.Fail? {
        return Err(p.error);
      }
      if req.body.Err? {
        return Err(req.body.error);
      }
      var payload := req.body.value;
      if !("dns_indicator" in payload && payload["dns_indicator"].Str?) {
        return Err(Uncaught(ValidationError));
      }
      if !nameOk(req.instance) {
        return Err(InvalidName);
      }
      var made := instances.Create(req.instance, payload);
      if made.Err? {
        return Err(made.error);
      }
      var args := ArgsOf(made.value, |foremans| + |aws| > 0, realm.Some?);
      if args.Err? {
        return Err(args.error);
      }
      var f := Each(Register, args.value);
      if f.Fail? {
        if IsBaseError(f.error) {
          r := Rollback(req);
        } else {
          r := Err(f.error);
        }
        return;
      }
      r := Enrol(req, made.value, args.value.fqdn);
    }

    /** The realm step of `post`, once every DNS backend has passed. */
    method Enrol(req: Request, doc: Doc, fqdn: Option<string>) returns (r: Result<Doc>)
      requires Valid()
      modifies instances.coll, remote
      ensures Valid()
      ensures (r, State(instances.coll.store, remote.log)) ==
              RealmSpec(Deploy(), req, State(old(instances.coll.store), old(remote.log)), doc, fqdn)
    {
      if realm.None? {
        return Ok(doc);
      }
      var otp := realm.value.CreateRealm(fqdn);
      if otp.Err? {
        if IsBaseError(otp.error) {
          r := Rollback(req);
        } else {
          r := Err(otp.error);
        }
        return;
      }
      var w := instances.SetIpaOtp(req.instance, Some(otp.value));
      if w.Err? && IsBaseError(w.error) {
        r := Rollback(req);
      } else {
        r := w;
      }
    }

    method Get(req: Request) returns (r: Result<Doc>)
      requires Valid()
      modifies instances.coll
      ensures Valid()
      ensures (r, instances.coll.store) == GetSpec(Deploy(), req, old(instances.coll.store))
    {
      var a := req.require(req.instance);
      if a.Fail? {
        if !IsModelError(a.error) {
          return Err(a.error);
        }
        var probe := instances.Get(req.instance, Some("id,ip_address"));
        if probe.Err? {
          return Err(if probe.error == ResourceNotFound then a.error else probe.error);
        }
        if "ip_address" !in probe.value {
          return Err(Uncaught(KeyError));
        }
        if probe.value["ip_address"] != Str(req.remote) {
          return Err(a.error);
        }
      }
      r := instances.Get(req.instance, Query(req, "fields"));
    }

    method Search(req: Request) returns (r: Result<seq<Doc>>)
      requires Valid()
      modifies instances.coll
      ensures Valid()
      ensures (r, instances.coll.store) == SearchSpec(Deploy(), req, old(instances.coll.store))
    {
      r := instances.Search(Query(req, "instances"), Query(req, "dns_indicator"), Query(req, "fqdn"),
                            Query(req, "ip_address"), Query(req, "fields"), Query(req, "sort"), Query(req, "page"),
                            Query(req, "limit"));
    }
  }
}
