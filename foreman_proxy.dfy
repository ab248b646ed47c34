/** The legacy foreman smart-proxy client (catweazle/models/foreman_proxy.py): the same
    DNS and realm requests as the current client, except that a dry run sends nothing, a
    reply other than 200 is a `ForemanConnError`, and realm support is decided by the
    caller, not by a flag of the backend. */
module ModelsForemanProxy {
  import opened Base
  import opened IPv4
  import opened Http
  import opened Strings
  import CrudForeman

  type Zone = CrudForeman.Zone

  /** The settings of one backend, as its constructor stores them. */
  datatype Proxy = Proxy(name: string, dryRun: bool, url: string, arpaEnable: bool, zones: set<Zone>,
                         forwardEnable: bool, realm: Option<string>)

  // ---------------------------------------------------------------- the reverse zones

  /** What `ip_network` makes of a text it accepts: an IPv4 network, or an IPv6 one. No
      IPv4 address is `in` an IPv6 network, so such a zone never decides anything. */
  datatype IpNetwork = V4(zone: Zone) | V6

  /** The constructor's loop over the space-separated zone texts: empty texts are
      skipped, every other one is read by `network` (`ip_network`, whose refusal raises
      `ValueError`). An IPv6 network is accepted and then holds no address of this
      model, so only the IPv4 zones are kept. */
  function ZoneSet(tokens: seq<string>, network: string -> Option<IpNetwork>): (r: Result<set<Zone>>)
    ensures r.Ok? <==> forall k :: 0 <= k < |tokens| && tokens[k] != "" ==> network(tokens[k]).Some?
    ensures r.Err? ==> r.error == Uncaught(ValueError)
    ensures r.Ok? ==> forall z :: z in r.value <==>
                        exists k :: 0 <= k < |tokens| && tokens[k] != "" && network(tokens[k]) == Some(V4(z))
    decreases |tokens|
  {
    if tokens == [] then Ok({})
    else
      var init := tokens[..|tokens| - 1];
      assert forall k :: 0 <= k < |init| ==> init[k] == tokens[k];
      var t := tokens[|tokens| - 1];
      match ZoneSet(init, network)
      case Err(e) => Err(e)
      case Ok(zs) =>
        if t != "" && network(t).None? then Err(Uncaught(ValueError))
        else Ok(zs + Added(t, network))
  }

  /** The zones one text adds: none when it is empty or an IPv6 network. */
  function Added(t: string, network: string -> Option<IpNetwork>): set<Zone> {
    if t != "" && network(t).Some? && network(t).value.V4? then {network(t).value.zone} else {}
  }

  /** One more zone text read: skipped when empty, otherwise its network read and an
      IPv4 one added. */
  lemma ZoneSetStep(tokens: seq<string>, i: nat, network: string -> Option<IpNetwork>, acc: set<Zone>)
    requires i < |tokens| && ZoneSet(tokens, network).Ok? && ZoneSet(tokens[..i], network) == Ok(acc)
    ensures tokens[i] != "" ==> network(tokens[i]).Some?
    ensures ZoneSet(tokens[..i + 1], network) == Ok(acc + Added(tokens[i], network))
  {
    var t := tokens[i];
    assert t != "" ==> network(t).Some?;
    var pre := tokens[..i + 1];
    assert pre[..|pre| - 1] == tokens[..i];
    assert pre[|pre| - 1] == t;
    assert pre != [];
  }

  /** A configuration mixing an IPv4 and an IPv6 network (`"10.0.0.0/8 fd00::/8"`) is
      read without error, and only the IPv4 zone can ever hold an address. */
  lemma MixedFamiliesRead(a: string, b: string, z: Zone, network: string -> Option<IpNetwork>)
    requires a != "" && b != "" && network(a) == Some(V4(z)) && network(b) == Some(V6)
    ensures ZoneSet([a, b], network) == Ok({z})
  {
    assert [a][..0] == [];
    assert Added(a, network) == {z};
    assert ZoneSet([a], network).value == {} + {z} == {z};
    assert [a, b][..1] == [a];
    assert Added(b, network) == {};
    assert ZoneSet([a, b], network).value == {z} + {} == {z};
  }

  /** The zones of a configuration text. */
  function ZonesOf(text: string, network: string -> Option<IpNetwork>): Result<set<Zone>> {
    ZoneSet(Split(text, ' '), network)
  }

  // ---------------------------------------------------------------- specifications

  /** `request_post`: nothing in a dry run; otherwise a status other than 200 is
      `ForemanConnError`, a body that is not JSON is swallowed as `None` (aiohttp's client
      error), and a JSON body that does not decode raises `JSONDecodeError` uncaught. */
  function PostOp(p: Proxy, respond: Responder, log: seq<Entry>, path: string, body: Body)
    : (Result<Option<map<string, string>>>, seq<Entry>)
  {
    if p.dryRun then (Ok(None), log)
    else
      var (resp, log1) := SendOp(respond, log, Entry(p.name, Post(p.url + path, body)));
      if resp.status != 200 then (Err(ForemanConnError), log1)
      else if Undecodable(resp) then (Err(Uncaught(JsonDecodeError)), log1)
      else (Ok(resp.json), log1)
  }

  /** `request_delete`. */
  function DeleteOp(p: Proxy, respond: Responder, log: seq<Entry>, path: string): (Outcome, seq<Entry>) {
    if p.dryRun then (Pass, log)
    else
      var (resp, log1) := SendOp(respond, log, Entry(p.name, Delete(p.url + path)));
      (if resp.status != 200 then Fail(ForemanConnError) else Pass, log1)
  }

  function Drop<T>(r: Result<T>): Outcome {
    if r.Ok? then Pass else Fail(r.error)
  }

  /** `create_arpa_dns`: the address is parsed even in a dry run. */
  function CreateArpaOp(p: Proxy, respond: Responder, log: seq<Entry>, fqdn: Option<string>, ip: Option<string>)
    : (Outcome, seq<Entry>)
  {
    if !p.arpaEnable then (Pass, log)
    else match CrudForeman.ParseIp(ip)
      case Err(e) => (Fail(e), log)
      case Ok(a) =>
        if CrudForeman.Responsible(p.zones, a) then
          var (r, log1) := PostOp(p, respond, log, "/dns/", CrudForeman.PtrBody(fqdn, a));
          (Drop(r), log1)
        else (Pass, log)
  }

  /** `create_forward_dns`. */
  function CreateForwardOp(p: Proxy, respond: Responder, log: seq<Entry>, fqdn: Option<string>, ip: Option<string>)
    : (Outcome, seq<Entry>)
  {
    if !p.forwardEnable then (Pass, log)
    else
      var (r, log1) := PostOp(p, respond, log, "/dns/", DnsRecord(fqdn, ip, "A"));
      (Drop(r), log1)
  }

  /** `create_dns`: the PTR step, then the A step. */
  function CreateDnsOp(p: Proxy, respond: Responder, log: seq<Entry>, fqdn: Option<string>, ip: Option<string>)
    : (Outcome, seq<Entry>)
  {
    var (r, log1) := CreateArpaOp(p, respond, log, fqdn, ip);
    if r.Fail? then (r, log1) else CreateForwardOp(p, respond, log1, fqdn, ip)
  }

  /** `delete_arpa_dns`. */
  function DeleteArpaOp(p: Proxy, respond: Responder, log: seq<Entry>, fqdn: Option<string>, ip: Option<string>)
    : (Outcome, seq<Entry>)
  {
    if !p.arpaEnable then (Pass, log)
    else match CrudForeman.ParseIp(ip)
      case Err(e) => (Fail(e), log)
      case Ok(a) =>
        if CrudForeman.Responsible(p.zones, a) then DeleteOp(p, respond, log, CrudForeman.PtrPath(a)) else (Pass, log)
  }

  /** `delete_forward_dns`. */
  function DeleteForwardOp(p: Proxy, respond: Responder, log: seq<Entry>, fqdn: Option<string>)
    : (Outcome, seq<Entry>)
  {
    if !p.forwardEnable then (Pass, log) else DeleteOp(p, respond, log, CrudForeman.APath(fqdn))
  }

  /** `delete_dns`: the PTR step, then the A step. */
  function DeleteDnsOp(p: Proxy, respond: Responder, log: seq<Entry>, fqdn: Option<string>, ip: Option<string>)
    : (Outcome, seq<Entry>)
  {
    var (r, log1) := DeleteArpaOp(p, respond, log, fqdn, ip);
    if r.Fail? then (r, log1) else DeleteForwardOp(p, respond, log1, fqdn)
  }

  /** The password a dry run hands out. */
  const DryRunPassword := "dry_run_dummy_pw"

  function RealmPath(p: Proxy): string {
    "/realm/" + PyStr(p.realm)
  }

  /** `create_realm`: the password of the reply; a reply without a JSON body fails on
      `None['randompassword']` with `TypeError`, one without the key with `KeyError`,
      one whose JSON does not decode already in `request_post`. */
  function CreateRealmOp(p: Proxy, respond: Responder, log: seq<Entry>, fqdn: Option<string>)
    : (Result<string>, seq<Entry>)
  {
    if p.dryRun then (Ok(DryRunPassword), log)
    else
      var (r, log1) := PostOp(p, respond, log, RealmPath(p), RealmHost(fqdn));
      match r
      case Err(e) => (Err(e), log1)
      case Ok(None) => (Err(Uncaught(TypeError)), log1)
      case Ok(Some(json)) =>
        if "randompassword" in json then (Ok(json["randompassword"]), log1)
        else (Err(Uncaught(KeyError)), log1)
  }

  /** `delete_realm`. */
  function DeleteRealmOp(p: Proxy, respond: Responder, log: seq<Entry>, fqdn: Option<string>)
    : (Outcome, seq<Entry>)
  {
    DeleteOp(p, respond, log, RealmPath(p) + "/" + PyStr(fqdn))
  }

  // ---------------------------------------------------------------- the class

  class ForemanProxy {
    const name: string
    const dryRun: bool
    const url: string
    const arpaEnable: bool
    const zones: set<Zone>
    const forwardEnable: bool
    const realm: Option<string>
    const remote: Remote

    function Conf(): Proxy {
      Proxy(name, dryRun, url, arpaEnable, zones, forwardEnable, realm)
    }

    /** The constructor reads the zone texts one by one; a text `network` refuses stops
        the service from starting, so the configuration must list readable zones. */
    constructor (remote: Remote, name: string, dryRun: bool, url: string, arpaEnable: bool, arpaZones: string,
                 network: string -> Option<IpNetwork>, forwardEnable: bool, realm: Option<string>)
      requires ZonesOf(arpaZones, network).Ok?
      ensures Conf() == Proxy(name, dryRun, url, arpaEnable, ZonesOf(arpaZones, network).value, forwardEnable, realm)
      ensures this.remote == remote
    {
      var tokens := Split(arpaZones, ' ');
      var acc: set<Zone> := {};
      var i := 0;
      while i < |tokens|
        invariant 0 <= i <= |tokens|
        invariant ZoneSet(tokens[..i], network) == Ok(acc)
      {
        ZoneSetStep(tokens, i, network, acc);
        ghost var next := acc + Added(tokens[i], network);
        if tokens[i] != "" && network(tokens[i]).value.V4? {
          acc := acc + {network(tokens[i]).value.zone};
        }
        assert acc == next;
        i := i + 1;
      }
      assert tokens[..i] == tokens;
      this.name := name;
      this.dryRun := dryRun;
      this.url := url;
      this.arpaEnable := arpaEnable;
      this.zones := acc;
      this.forwardEnable := forwardEnable;
      this.realm := realm;
      this.remote := remote;
    }

    method RequestPost(path: string, body: Body) returns (r: Result<Option<map<string, string>>>)
      modifies remote
      ensures (r, remote.log) == PostOp(Conf(), remote.respond, old(remote.log), path, body)
    {
      if dryRun {
        return Ok(None);
      }
      var resp := remote.Send(Entry(name, Post(url + path, body)));
      if resp.status != 200 {
        return Err(ForemanConnError);
      }
      if Undecodable(resp) {
        return Err(Uncaught(JsonDecodeError));
      }
      r := Ok(resp.json);
    }

    method RequestDelete(path: string) returns (r: Outcome)
      modifies remote
      ensures (r, remote.log) == DeleteOp(Conf(), remote.respond, old(remote.log), path)
    {
      if dryRun {
        return Pass;
      }
      var resp := remote.Send(Entry(name, Delete(url + path)));
      r := if resp.status != 200 then Fail(ForemanConnError) else Pass;
    }

    /** `arpa_responsible`: stops at the first zone holding the address. */
    method ArpaResponsible(ip: Address) returns (r: bool)
      ensures r <==> CrudForeman.Responsible(zones, ip)
    {
      var todo := zones;
      while todo != {}
        invariant todo <= zones
        invariant forall z :: z in zones - todo ==> !InNetwork(ip, z)
        decreases todo
      {
        var z :| z in todo;
        if InNetwork(ip, z) {
          return true;
        }
        todo := todo - {z};
      }
      r := false;
    }

    method CreateArpaDns(fqdn: Option<string>, ip: Option<string>) returns (r: Outcome)
      modifies remote
      ensures (r, remote.log) == CreateArpaOp(Conf(), remote.respond, old(remote.log), fqdn, ip)
    {
      if !arpaEnable {
        return Pass;
      }
      var parsed := CrudForeman.ParseIp(ip);
      if parsed.Err? {
        return Fail(parsed.error);
      }
      var responsible := ArpaResponsible(parsed.value);
      if responsible {
        var posted := RequestPost("/dns/", CrudForeman.PtrBody(fqdn, parsed.value));
        r := Drop(posted);
      } else {
        r := Pass;
      }
    }

    method CreateForwardDns(fqdn: Option<string>, ip: Option<string>) returns (r: Outcome)
      modifies remote
      ensures (r, remote.log) == CreateForwardOp(Conf(), remote.respond, old(remote.log), fqdn, ip)
    {
      if !forwardEnable {
        return Pass;
      }
      var posted := RequestPost("/dns/", DnsRecord(fqdn, ip, "A"));
      r := Drop(posted);
    }

    method CreateDns(fqdn: Option<string>, ip: Option<string>) returns (r: Outcome)
      modifies remote
      ensures (r, remote.log) == CreateDnsOp(Conf(), remote.respond, old(remote.log), fqdn, ip)
    {
      r := CreateArpaDns(fqdn, ip);
      if r.Pass? {
        r := CreateForwardDns(fqdn, ip);
      }
    }

    method DeleteArpaDns(fqdn: Option<string>, ip: Option<string>) returns (r: Outcome)
      modifies remote
      ensures (r, remote.log) == DeleteArpaOp(Conf(), remote.respond, old(remote.log), fqdn, ip)
    {
      if !arpaEnable {
        return Pass;
      }
      var parsed := CrudForeman.ParseIp(ip);
      if parsed.Err? {
        return Fail(parsed.error);
      }
      var responsible := ArpaResponsible(parsed.value);
      if responsible {
        r := RequestDelete(CrudForeman.PtrPath(parsed.value));
      } else {
        r := Pass;
      }
    }

    method DeleteForwardDns(fqdn: Option<string>) returns (r: Outcome)
      modifies remote
      ensures (r, remote.log) == DeleteForwardOp(Conf(), remote.respond, old(remote.log), fqdn)
    {
      if !forwardEnable {
        return Pass;
      }
      r := RequestDelete(CrudForeman.APath(fqdn));
    }

    method DeleteDns(fqdn: Option<string>, ip: Option<string>) returns (r: Outcome)
      modifies remote
      ensures (r, remote.log) == DeleteDnsOp(Conf(), remote.respond, old(remote.log), fqdn, ip)
    {
      r := DeleteArpaDns(fqdn, ip);
      if r.Pass? {
        r := DeleteForwardDns(fqdn);
      }
    }

    method CreateRealm(fqdn: Option<string>) returns (r: Result<string>)
      modifies remote
      ensures (r, remote.log) == CreateRealmOp(Conf(), remote.respond, old(remote.log), fqdn)
    {
      if dryRun {
        return Ok(DryRunPassword);
      }
      var data := RequestPost(RealmPath(Conf()), RealmHost(fqdn));
      if data.Err? {
        return Err(data.error);
      }
      if data.value.None? {
        return Err(Uncaught(TypeError));
      }
      if "randompassword" !in data.value.value {
        return Err(Uncaught(KeyError));
      }
      r := Ok(data.value.value["randompassword"]);
    }

    method DeleteRealm(fqdn: Option<string>) returns (r: Outcome)
      modifies remote
      ensures (r, remote.log) == DeleteRealmOp(Conf(), remote.respond, old(remote.log), fqdn)
    {
      r := RequestDelete(RealmPath(Conf()) + "/" + PyStr(fqdn));
    }
  }

  // ---------------------------------------------------------------- properties

  /** A dry run never contacts the remote and never fails on its replies: every step
      passes, except the PTR steps on an address that does not parse, and the realm
      password is the dummy one. */
  lemma DryRunSendsNothing(p: Proxy, respond: Responder, log: seq<Entry>, fqdn: Option<string>, ip: Option<string>)
    requires p.dryRun
    ensures CreateDnsOp(p, respond, log, fqdn, ip).1 == log
    ensures DeleteDnsOp(p, respond, log, fqdn, ip).1 == log
    ensures CreateRealmOp(p, respond, log, fqdn) == (Ok(DryRunPassword), log)
    ensures DeleteRealmOp(p, respond, log, fqdn) == (Pass, log)
    ensures CreateDnsOp(p, respond, log, fqdn, ip).0.Fail? ==>
            p.arpaEnable && CrudForeman.ParseIp(ip).Err? && CreateDnsOp(p, respond, log, fqdn, ip).0.error == Uncaught(ValueError)
    ensures DeleteDnsOp(p, respond, log, fqdn, ip).0.Fail? ==>
            p.arpaEnable && CrudForeman.ParseIp(ip).Err? && DeleteDnsOp(p, respond, log, fqdn, ip).0.error == Uncaught(ValueError)
  {
  }

  /** The DNS steps only append requests, and they fail in three ways only: a reply other
      than 200 (`ForemanConnError`), a POST reply that does not decode (`JSONDecodeError`,
      creation only), or an address that does not parse when reverse DNS is on
      (`ValueError`). */
  lemma DnsFailures(p: Proxy, respond: Responder, log: seq<Entry>, fqdn: Option<string>, ip: Option<string>)
    ensures log <= CreateDnsOp(p, respond, log, fqdn, ip).1
    ensures log <= DeleteDnsOp(p, respond, log, fqdn, ip).1
    ensures var r := CreateDnsOp(p, respond, log, fqdn, ip).0;
            r.Fail? ==> r.error == ForemanConnError || r.error == Uncaught(JsonDecodeError) ||
                        (p.arpaEnable && CrudForeman.ParseIp(ip).Err? && r.error == Uncaught(ValueError))
    ensures var r := DeleteDnsOp(p, respond, log, fqdn, ip).0;
            r.Fail? ==> r.error == ForemanConnError ||
                        (p.arpaEnable && CrudForeman.ParseIp(ip).Err? && r.error == Uncaught(ValueError))
  {
    CreateDnsFailures(p, respond, log, fqdn, ip);
    DeleteDnsFailures(p, respond, log, fqdn, ip);
  }

  /** `create_dns` half of `DnsFailures`, step by step. */
  lemma CreateDnsFailures(p: Proxy, respond: Responder, log: seq<Entry>, fqdn: Option<string>, ip: Option<string>)
    ensures log <= CreateDnsOp(p, respond, log, fqdn, ip).1
    ensures var r := CreateDnsOp(p, respond, log, fqdn, ip).0;
            r.Fail? ==> r.error == ForemanConnError || r.error == Uncaught(JsonDecodeError) ||
                        (p.arpaEnable && CrudForeman.ParseIp(ip).Err? && r.error == Uncaught(ValueError))
  {
    var (r1, log1) := CreateArpaOp(p, respond, log, fqdn, ip);
    if p.arpaEnable && CrudForeman.ParseIp(ip).Ok? {
      PostFailures(p, respond, log, "/dns/", CrudForeman.PtrBody(fqdn, CrudForeman.ParseIp(ip).value));
    }
    assert log <= log1;
    if r1.Pass? {
      PostFailures(p, respond, log1, "/dns/", DnsRecord(fqdn, ip, "A"));
    }
  }

  /** `delete_dns` half of `DnsFailures`, step by step. */
  lemma DeleteDnsFailures(p: Proxy, respond: Responder, log: seq<Entry>, fqdn: Option<string>, ip: Option<string>)
    ensures log <= DeleteDnsOp(p, respond, log, fqdn, ip).1
    ensures var r := DeleteDnsOp(p, respond, log, fqdn, ip).0;
            r.Fail? ==> r.error == ForemanConnError ||
                        (p.arpaEnable && CrudForeman.ParseIp(ip).Err? && r.error == Uncaught(ValueError))
  {
    var (r1, log1) := DeleteArpaOp(p, respond, log, fqdn, ip);
    assert log <= log1;
    if r1.Pass? {
      assert log1 <= DeleteForwardOp(p, respond, log1, fqdn).1;
    }
  }

  /** A POST only appends, and fails only with `ForemanConnError` or an uncaught
      `JSONDecodeError`. */
  lemma PostFailures(p: Proxy, respond: Responder, log: seq<Entry>, path: string, body: Body)
    ensures log <= PostOp(p, respond, log, path, body).1
    ensures var r := PostOp(p, respond, log, path, body).0;
            r.Err? ==> r.error == ForemanConnError || r.error == Uncaught(JsonDecodeError)
  {
  }

  /** Outside a dry run every request goes to the backend's URL followed by the path,
      and a reply other than 200 is a `ForemanConnError`; a 200 POST reply fails only when
      its body does not decode, and then with `JSONDecodeError`. */
  lemma RequestStatus(p: Proxy, respond: Responder, log: seq<Entry>, path: string, body: Body)
    requires !p.dryRun
    ensures var (r, log1) := PostOp(p, respond, log, path, body);
            var e := Entry(p.name, Post(p.url + path, body));
            log1 == log + [e] &&
            (r == Err(ForemanConnError) <==> respond(|log|, e).status != 200) &&
            (r == Err(Uncaught(JsonDecodeError)) <==> respond(|log|, e).status == 200 && Undecodable(respond(|log|, e))) &&
            (r.Err? ==> r.error == ForemanConnError || r.error == Uncaught(JsonDecodeError)) &&
            (r.Ok? ==> r.value == respond(|log|, e).json)
    ensures var (r, log1) := DeleteOp(p, respond, log, path);
            var e := Entry(p.name, Delete(p.url + path));
            log1 == log + [e] && (r == Fail(ForemanConnError) <==> respond(|log|, e).status != 200) &&
            (r.Fail? ==> r.error == ForemanConnError)
  {
  }

  /** `create_dns` for a stored address text, outside a dry run: the PTR record goes out
      exactly when reverse DNS is on and a zone holds the address, the A record exactly
      when forward DNS is on and the PTR step passed, the PTR record first; a step passes
      on a 200 reply that decodes, fails with `ForemanConnError` on any other status and
      with `JSONDecodeError` on a body that does not decode. */
  lemma CreateDnsRequests(p: Proxy, respond: Responder, log: seq<Entry>, fqdn: Option<string>, a: Address)
    requires !p.dryRun
    ensures var ip := Some(ToText(a));
            var (r, log1) := CreateDnsOp(p, respond, log, fqdn, ip);
            var ptr := Entry(p.name, Post(p.url + "/dns/", CrudForeman.PtrBody(fqdn, a)));
            var fwd := Entry(p.name, Post(p.url + "/dns/", DnsRecord(fqdn, ip, "A")));
            var sendsPtr := p.arpaEnable && CrudForeman.Responsible(p.zones, a);
            var ptrOk := !sendsPtr || (respond(|log|, ptr).status == 200 && !Undecodable(respond(|log|, ptr)));
            var sendsA := p.forwardEnable && ptrOk;
            log1 == log + (if sendsPtr then [ptr] else []) + (if sendsA then [fwd] else []) &&
            (r.Fail? ==> r.error == ForemanConnError || r.error == Uncaught(JsonDecodeError)) &&
            (r == Pass <==> ptrOk && (!sendsA || (respond(|log1| - 1, fwd).status == 200 && !Undecodable(respond(|log1| - 1, fwd)))))
  {
    ParseToText(a);
    var ip := Some(ToText(a));
    var (r1, log1) := CreateArpaOp(p, respond, log, fqdn, ip);
    if r1.Pass? && p.forwardEnable {
      var fwd := Entry(p.name, Post(p.url + "/dns/", DnsRecord(fqdn, ip, "A")));
      assert CreateDnsOp(p, respond, log, fqdn, ip).1 == log1 + [fwd];
    }
  }

  /** `delete_dns` mirrors `create_dns` with DELETE requests to
      `/dns/<reverse pointer>/PTR` and `/dns/<fqdn>/A`. */
  lemma DeleteDnsRequests(p: Proxy, respond: Responder, log: seq<Entry>, fqdn: Option<string>, a: Address)
    requires !p.dryRun
    ensures var ip := Some(ToText(a));
            var (r, log1) := DeleteDnsOp(p, respond, log, fqdn, ip);
            var ptr := Entry(p.name, Delete(p.url + CrudForeman.PtrPath(a)));
            var fwd := Entry(p.name, Delete(p.url + CrudForeman.APath(fqdn)));
            var sendsPtr := p.arpaEnable && CrudForeman.Responsible(p.zones, a);
            var ptrOk := !sendsPtr || respond(|log|, ptr).status == 200;
            var sendsA := p.forwardEnable && ptrOk;
            log1 == log + (if sendsPtr then [ptr] else []) + (if sendsA then [fwd] else []) &&
            (r.Fail? ==> r.error == ForemanConnError) &&
            (r == Pass <==> ptrOk && (!sendsA || respond(|log1| - 1, fwd).status == 200))
  {
    DeleteDnsLog(p, respond, log, fqdn, a);
    DeleteDnsOutcome(p, respond, log, fqdn, a);
  }

  /** The requests `delete_dns` sends for a stored address text. */
  lemma DeleteDnsLog(p: Proxy, respond: Responder, log: seq<Entry>, fqdn: Option<string>, a: Address)
    requires !p.dryRun
    ensures var ptr := Entry(p.name, Delete(p.url + CrudForeman.PtrPath(a)));
            var fwd := Entry(p.name, Delete(p.url + CrudForeman.APath(fqdn)));
            var sendsPtr := p.arpaEnable && CrudForeman.Responsible(p.zones, a);
            var ptrOk := !sendsPtr || respond(|log|, ptr).status == 200;
            var sendsA := p.forwardEnable && ptrOk;
            DeleteDnsOp(p, respond, log, fqdn, Some(ToText(a))).1 ==
              log + (if sendsPtr then [ptr] else []) + (if sendsA then [fwd] else [])
  {
    var ip := Some(ToText(a));
    DeleteArpaRequests(p, respond, log, fqdn, a);
    var log1 := DeleteArpaOp(p, respond, log, fqdn, ip).1;
    if DeleteArpaOp(p, respond, log, fqdn, ip).0.Pass? && p.forwardEnable {
      assert DeleteDnsOp(p, respond, log, fqdn, ip).1 == log1 + [Entry(p.name, Delete(p.url + CrudForeman.APath(fqdn)))];
    }
  }

  /** How `delete_dns` ends for a stored address text: a failing reply of either step is
      a `ForemanConnError`. */
  lemma DeleteDnsOutcome(p: Proxy, respond: Responder, log: seq<Entry>, fqdn: Option<string>, a: Address)
    requires !p.dryRun
    ensures var ptr := Entry(p.name, Delete(p.url + CrudForeman.PtrPath(a)));
            var fwd := Entry(p.name, Delete(p.url + CrudForeman.APath(fqdn)));
            var sendsPtr := p.arpaEnable && CrudForeman.Responsible(p.zones, a);
            var ptrOk := !sendsPtr || respond(|log|, ptr).status == 200;
            var log1 := log + (if sendsPtr then [ptr] else []);
            var r := DeleteDnsOp(p, respond, log, fqdn, Some(ToText(a))).0;
            (r.Fail? ==> r.error == ForemanConnError) &&
            (r == Pass <==> ptrOk && (!p.forwardEnable || respond(|log1|, fwd).status == 200))
  {
    var ip := Some(ToText(a));
    DeleteArpaRequests(p, respond, log, fqdn, a);
    var (r1, log1) := DeleteArpaOp(p, respond, log, fqdn, ip);
    if r1.Pass? && p.forwardEnable {
      RequestStatus(p, respond, log1, CrudForeman.APath(fqdn), DnsRecord(fqdn, ip, "A"));
      assert DeleteDnsOp(p, respond, log, fqdn, ip) == DeleteOp(p, respond, log1, CrudForeman.APath(fqdn));
    }
  }

  /** The PTR deletion for a stored address text: one DELETE exactly when reverse DNS is
      on and a zone holds the address; it passes exactly when that request (if any) gets
      a 200. */
  lemma DeleteArpaRequests(p: Proxy, respond: Responder, log: seq<Entry>, fqdn: Option<string>, a: Address)
    requires !p.dryRun
    ensures var (r, log1) := DeleteArpaOp(p, respond, log, fqdn, Some(ToText(a)));
            var ptr := Entry(p.name, Delete(p.url + CrudForeman.PtrPath(a)));
            var sendsPtr := p.arpaEnable && CrudForeman.Responsible(p.zones, a);
            log1 == log + (if sendsPtr then [ptr] else []) &&
            (r.Fail? ==> r.error == ForemanConnError) &&
            (r == Pass <==> !sendsPtr || respond(|log|, ptr).status == 200)
  {
    ParseToText(a);
    assert CrudForeman.ParseIp(Some(ToText(a))) == Ok(a);
  }

  /** `create_realm` outside a dry run: one POST of the host name to
      `/realm/<realm>`, answered with the reply's password. */
  lemma CreateRealmRequests(p: Proxy, respond: Responder, log: seq<Entry>, fqdn: Option<string>)
    requires !p.dryRun
    ensures var (r, log1) := CreateRealmOp(p, respond, log, fqdn);
            var e := Entry(p.name, Post(p.url + "/realm/" + PyStr(p.realm), RealmHost(fqdn)));
            var resp := respond(|log|, e);
            log1 == log + [e] &&
            (r.Ok? <==> resp.status == 200 && resp.json.Some? && "randompassword" in resp.json.value) &&
            (r.Ok? ==> r.value == resp.json.value["randompassword"]) &&
            (resp.status != 200 ==> r == Err(ForemanConnError)) &&
            (resp.status == 200 && resp.json.None? ==>
               r == Err(Uncaught(if resp.malformed then JsonDecodeError else TypeError)))
  {
    assert p.url + RealmPath(p) == p.url + "/realm/" + PyStr(p.realm);
  }

  /** `delete_realm` outside a dry run: one DELETE of `/realm/<realm>/<fqdn>`. */
  lemma DeleteRealmRequests(p: Proxy, respond: Responder, log: seq<Entry>, fqdn: Option<string>)
    requires !p.dryRun
    ensures var (r, log1) := DeleteRealmOp(p, respond, log, fqdn);
            var e := Entry(p.name, Delete(p.url + "/realm/" + PyStr(p.realm) + "/" + PyStr(fqdn)));
            log1 == log + [e] && (r == Pass <==> respond(|log|, e).status == 200)
  {
    assert p.url + (RealmPath(p) + "/" + PyStr(fqdn)) == p.url + "/realm/" + PyStr(p.realm) + "/" + PyStr(fqdn);
  }
}
