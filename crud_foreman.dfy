/** The current foreman smart-proxy client (catweazle/crud/foreman.py): which DNS and
    realm requests one backend sends for an instance, decided by its enable flags, its
    reverse zones and the address. */
module CrudForeman {
  import opened Base
  import opened IPv4
  import opened Http

  /** A reverse zone: a valid CIDR network. */
  type Zone = n: Network | ValidNetwork(n) witness Network(0, 0)

  /** The settings of one backend, as its constructor stores them. */
  datatype Settings = Settings(name: string, url: string, arpaEnable: bool, zones: set<Zone>,
                               forwardEnable: bool, realmEnable: bool, realmName: Option<string>)

  /** `arpa_responsible`: some zone of the backend contains the address. */
  predicate Responsible(zones: set<Zone>, ip: Address) {
    exists z :: z in zones && InNetwork(ip, z)
  }

  /** Responsibility is a prefix match against some zone (section 3.1 of RFC 4632). */
  lemma ResponsibleIffPrefix(zones: set<Zone>, ip: Address)
    ensures Responsible(zones, ip) <==>
            exists z :: z in zones && ToNat(ip) / BlockSize(z) == z.base / BlockSize(z)
  {
    forall z | z in zones {
      InNetworkIffPrefix(ip, z);
    }
  }

  // ---------------------------------------------------------------- specifications

  function PostEntry(s: Settings, path: string, body: Body): Entry {
    Entry(s.name, Post(s.url + path, body))
  }

  function DeleteEntry(s: Settings, path: string): Entry {
    Entry(s.name, Delete(s.url + path))
  }

  /** `request_post`: any status but 200 is `BackendError`; otherwise httpx's `resp.json()`,
      which raises `JSONDecodeError` only for a body that is not JSON text and otherwise
      yields the body's value (`None` here when that value is not an object). */
  function PostOp(s: Settings, respond: Responder, log: seq<Entry>, path: string, body: Body)
    : (Result<Option<map<string, string>>>, seq<Entry>)
  {
    var (resp, log1) := SendOp(respond, log, PostEntry(s, path, body));
    if resp.status != 200 then (Err(BackendError), log1)
    else if Undecodable(resp) then (Err(Uncaught(JsonDecodeError)), log1)
    else (Ok(resp.json), log1)
  }

  /** `request_delete`: any status but 200 is `BackendError`. */
  function DeleteOp(s: Settings, respond: Responder, log: seq<Entry>, path: string): (Outcome, seq<Entry>) {
    var (resp, log1) := SendOp(respond, log, DeleteEntry(s, path));
    (if resp.status != 200 then Fail(BackendError) else Pass, log1)
  }

  /** `ipaddress.IPv4Address(ip_address)`: `ValueError` for anything but dotted decimal. */
  function ParseIp(ip: Option<string>): Result<Address> {
    if ip.None? then Err(Uncaught(ValueError))
    else match ParseAddress(ip.value)
      case None => Err(Uncaught(ValueError))
      case Some(a) => Ok(a)
  }

  function PtrBody(fqdn: Option<string>, a: Address): Body {
    DnsRecord(fqdn, Some(ReversePointer(a)), "PTR")
  }

  function PtrPath(a: Address): string {
    "/dns/" + ReversePointer(a) + "/PTR"
  }

  function APath(fqdn: Option<string>): string {
    "/dns/" + PyStr(fqdn) + "/A"
  }

  function RealmPath(s: Settings): string {
    "/realm/" + PyStr(s.realmName)
  }

  function Drop<T>(r: Result<T>): Outcome {
    if r.Ok? then Pass else Fail(r.error)
  }

  /** `create_arpa_dns`. */
  function CreateArpaOp(s: Settings, respond: Responder, log: seq<Entry>, fqdn: Option<string>, ip: Option<string>)
    : (Outcome, seq<Entry>)
  {
    if !s.arpaEnable then (Pass, log)
    else match ParseIp(ip)
      case Err(e) => (Fail(e), log)
      case Ok(a) =>
        if Responsible(s.zones, a) then
          var (r, log1) := PostOp(s, respond, log, "/dns/", PtrBody(fqdn, a));
          (Drop(r), log1)
        else (Pass, log)
  }

  /** `create_forward_dns`. */
  function CreateForwardOp(s: Settings, respond: Responder, log: seq<Entry>, fqdn: Option<string>, ip: Option<string>)
    : (Outcome, seq<Entry>)
  {
    if !s.forwardEnable then (Pass, log)
    else
      var (r, log1) := PostOp(s, respond, log, "/dns/", DnsRecord(fqdn, ip, "A"));
      (Drop(r), log1)
  }

  /** `create_dns`: the PTR step, then the A step. */
  function CreateDnsOp(s: Settings, respond: Responder, log: seq<Entry>, fqdn: Option<string>, ip: Option<string>)
    : (Outcome, seq<Entry>)
  {
    var (r, log1) := CreateArpaOp(s, respond, log, fqdn, ip);
    if r.Fail? then (r, log1) else CreateForwardOp(s, respond, log1, fqdn, ip)
  }

  /** `delete_arpa_dns`. */
  function DeleteArpaOp(s: Settings, respond: Responder, log: seq<Entry>, fqdn: Option<string>, ip: Option<string>)
    : (Outcome, seq<Entry>)
  {
    if !s.arpaEnable then (Pass, log)
    else match ParseIp(ip)
      case Err(e) => (Fail(e), log)
      case Ok(a) => if Responsible(s.zones, a) then DeleteOp(s, respond, log, PtrPath(a)) else (Pass, log)
  }

  /** `delete_forward_dns`. */
  function DeleteForwardOp(s: Settings, respond: Responder, log: seq<Entry>, fqdn: Option<string>)
    : (Outcome, seq<Entry>)
  {
    if !s.forwardEnable then (Pass, log) else DeleteOp(s, respond, log, APath(fqdn))
  }

  /** `delete_dns`: the PTR step, then the A step. */
  function DeleteDnsOp(s: Settings, respond: Responder, log: seq<Entry>, fqdn: Option<string>, ip: Option<string>)
    : (Outcome, seq<Entry>)
  {
    var (r, log1) := DeleteArpaOp(s, respond, log, fqdn, ip);
    if r.Fail? then (r, log1) else DeleteForwardOp(s, respond, log1, fqdn)
  }

  /** `create_realm`: `None` when realm support is off, otherwise the one-time password
      from the reply (`TypeError` when the reply is not an object, `KeyError` when it has
      no password). */
  function CreateRealmOp(s: Settings, respond: Responder, log: seq<Entry>, fqdn: Option<string>)
    : (Result<Option<string>>, seq<Entry>)
  {
    if !s.realmEnable then (Ok(None), log)
    else
      var (r, log1) := PostOp(s, respond, log, RealmPath(s), RealmHost(fqdn));
      match r
      case Err(e) => (Err(e), log1)
      case Ok(None) => (Err(Uncaught(TypeError)), log1)
      case Ok(Some(json)) =>
        if "randompassword" in json then (Ok(Some(json["randompassword"])), log1)
        else (Err(Uncaught(KeyError)), log1)
  }

  /** `delete_realm`. */
  function DeleteRealmOp(s: Settings, respond: Responder, log: seq<Entry>, fqdn: Option<string>)
    : (Outcome, seq<Entry>)
  {
    if !s.realmEnable then (Pass, log) else DeleteOp(s, respond, log, RealmPath(s) + "/" + PyStr(fqdn))
  }

  // ---------------------------------------------------------------- the class

  class Foreman {
    const name: string
    const url: string
    const arpaEnable: bool
    const zones: set<Zone>
    const forwardEnable: bool
    const realmEnable: bool
    const realmName: Option<string>
    const remote: Remote

    function Conf(): Settings {
      Settings(name, url, arpaEnable, zones, forwardEnable, realmEnable, realmName)
    }

    /** The constructor collects the configured networks into the zone set. */
    constructor (remote: Remote, name: string, url: string, arpaEnable: bool, arpaZones: seq<Zone>,
                 forwardEnable: bool, realmEnable: bool, realmName: Option<string>)
      ensures Conf() == Settings(name, url, arpaEnable, (set z | z in arpaZones), forwardEnable, realmEnable, realmName)
      ensures this.remote == remote
    {
      var acc: set<Zone> := {};
      var i := 0;
      while i < |arpaZones|
        invariant 0 <= i <= |arpaZones|
        invariant acc == set z | z in arpaZones[..i]
      {
        acc := acc + {arpaZones[i]};
        assert arpaZones[..i + 1] == arpaZones[..i] + [arpaZones[i]];
        i := i + 1;
      }
      assert arpaZones[..|arpaZones|] == arpaZones;
      this.name := name;
      this.url := url;
      this.arpaEnable := arpaEnable;
      this.zones := acc;
      this.forwardEnable := forwardEnable;
      this.realmEnable := realmEnable;
      this.realmName := realmName;
      this.remote := remote;
    }

    method RequestPost(path: string, body: Body) returns (r: Result<Option<map<string, string>>>)
      modifies remote
      ensures (r, remote.log) == PostOp(Conf(), remote.respond, old(remote.log), path, body)
    {
      var resp := remote.Send(Entry(name, Post(url + path, body)));
      if resp.status != 200 {
        return Err(BackendError);
      }
      if Undecodable(resp) {
        return Err(Uncaught(JsonDecodeError));
      }
      r := Ok(resp.json);
    }

    method RequestDelete(path: string) returns (r: Outcome)
      modifies remote
      ensures (r, remote.log) == DeleteOp(Conf(), remote.respond, old(remote.log), path)
    {
      var resp := remote.Send(Entry(name, Delete(url + path)));
      r := if resp.status != 200 then Fail(BackendError) else Pass;
    }

    /** `arpa_responsible`: stops at the first zone holding the address. */
    method ArpaResponsible(ip: Address) returns (r: bool)
      ensures r <==> Responsible(zones, ip)
    {
      var todo := zones;
      while todo != {}
        invariant todo <= zones
        invariant forall z :: z in zones - todo ==> !InNetwork(ip, z)
        decreases todo
      {
        var z :| z in todo;
        if InNetwork(ip, z) {
          return true;
        }
        todo := todo - {z};
      }
      r := false;
    }

    method CreateArpaDns(fqdn: Option<string>, ip: Option<string>) returns (r: Outcome)
      modifies remote
      ensures (r, remote.log) == CreateArpaOp(Conf(), remote.respond, old(remote.log), fqdn, ip)
    {
      if !arpaEnable {
        return Pass;
      }
      var parsed := ParseIp(ip);
      if parsed.Err? {
        return Fail(parsed.error);
      }
      var responsible := ArpaResponsible(parsed.value);
      if responsible {
        var posted := RequestPost("/dns/", PtrBody(fqdn, parsed.value));
        r := Drop(posted);
      } else {
        r := Pass;
      }
    }

    method CreateForwardDns(fqdn: Option<string>, ip: Option<string>) returns (r: Outcome)
      modifies remote
      ensures (r, remote.log) == CreateForwardOp(Conf(), remote.respond, old(remote.log), fqdn, ip)
    {
      if !forwardEnable {
        return Pass;
      }
      var posted := RequestPost("/dns/", DnsRecord(fqdn, ip, "A"));
      r := Drop(posted);
    }

    method CreateDns(fqdn: Option<string>, ip: Option<string>) returns (r: Outcome)
      modifies remote
      ensures (r, remote.log) == CreateDnsOp(Conf(), remote.respond, old(remote.log), fqdn, ip)
    {
      r := CreateArpaDns(fqdn, ip);
      if r.Pass? {
        r := CreateForwardDns(fqdn, ip);
      }
    }

    method DeleteArpaDns(fqdn: Option<string>, ip: Option<string>) returns (r: Outcome)
      modifies remote
      ensures (r, remote.log) == DeleteArpaOp(Conf(), remote.respond, old(remote.log), fqdn, ip)
    {
      if !arpaEnable {
        return Pass;
      }
      var parsed := ParseIp(ip);
      if parsed.Err? {
        return Fail(parsed.error);
      }
      var responsible := ArpaResponsible(parsed.value);
      if responsible {
        r := RequestDelete(PtrPath(parsed.value));
      } else {
        r := Pass;
      }
    }

    method DeleteForwardDns(fqdn: Option<string>) returns (r: Outcome)
      modifies remote
      ensures (r, remote.log) == DeleteForwardOp(Conf(), remote.respond, old(remote.log), fqdn)
    {
      if !forwardEnable {
        return Pass;
      }
      r := RequestDelete(APath(fqdn));
    }

    method DeleteDns(fqdn: Option<string>, ip: Option<string>) returns (r: Outcome)
      modifies remote
      ensures (r, remote.log) == DeleteDnsOp(Conf(), remote.respond, old(remote.log), fqdn, ip)
    {
      r := DeleteArpaDns(fqdn, ip);
      if r.Pass? {
        r := DeleteForwardDns(fqdn);
      }
    }

    method CreateRealm(fqdn: Option<string>) returns (r: Result<Option<string>>)
      modifies remote
      ensures (r, remote.log) == CreateRealmOp(Conf(), remote.respond, old(remote.log), fqdn)
    {
      if !realmEnable {
        return Ok(None);
      }
      var posted := RequestPost(RealmPath(Conf()), RealmHost(fqdn));
      if posted.Err? {
        return Err(posted.error);
      }
      if posted.value.None? {
        return Err(Uncaught(TypeError));
      }
      var json := posted.value.value;
      if "randompassword" !in json {
        return Err(Uncaught(KeyError));
      }
      r := Ok(Some(json["randompassword"]));
    }

    method DeleteRealm(fqdn: Option<string>) returns (r: Outcome)
      modifies remote
      ensures (r, remote.log) == DeleteRealmOp(Conf(), remote.respond, old(remote.log), fqdn)
    {
      if !realmEnable {
        return Pass;
      }
      r := RequestDelete(RealmPath(Conf()) + "/" + PyStr(fqdn));
    }
  }

  // ---------------------------------------------------------------- properties

  /** Every request goes to the backend's base URL followed by the path, and a reply
      other than 200 is a `BackendError`; a 200 reply never is. */
  lemma RequestStatus(s: Settings, respond: Responder, log: seq<Entry>, path: string, body: Body)
    ensures var (r, log1) := PostOp(s, respond, log, path, body);
            log1 == log + [Entry(s.name, Post(s.url + path, body))] &&
            (r == Err(BackendError) <==> respond(|log|, log1[|log|]).status != 200)
    ensures var (r, log1) := DeleteOp(s, respond, log, path);
            log1 == log + [Entry(s.name, Delete(s.url + path))] &&
            (r == Fail(BackendError) <==> respond(|log|, log1[|log|]).status != 200) &&
            (r.Fail? ==> r.error == BackendError)
  {
  }

  /** The PTR step for a stored address text: one PTR POST exactly when reverse DNS is on
      and a zone holds the address; it passes exactly when that POST (if any) succeeds. */
  lemma CreateArpaRequests(s: Settings, respond: Responder, log: seq<Entry>, fqdn: Option<string>, a: Address)
    ensures var (r, log1) := CreateArpaOp(s, respond, log, fqdn, Some(ToText(a)));
            var ptr := PostEntry(s, "/dns/", PtrBody(fqdn, a));
            var sendsPtr := s.arpaEnable && Responsible(s.zones, a);
            log1 == log + (if sendsPtr then [ptr] else []) &&
            (sendsPtr && respond(|log|, ptr).status != 200 ==> r == Fail(BackendError)) &&
            (r == Pass <==> !sendsPtr || (respond(|log|, ptr).status == 200 && !Undecodable(respond(|log|, ptr))))
  {
    ParseToText(a);
    assert ParseIp(Some(ToText(a))) == Ok(a);
  }

  /** `create_dns` for a stored address text: the PTR record goes out exactly when reverse
      DNS is on and a zone holds the address, the A record exactly when forward DNS is on
      and the PTR step did not fail, and the PTR record comes first. */
  lemma CreateDnsRequests(s: Settings, respond: Responder, log: seq<Entry>, fqdn: Option<string>, a: Address)
    ensures var ip := Some(ToText(a));
            var (r, log1) := CreateDnsOp(s, respond, log, fqdn, ip);
            var ptr := PostEntry(s, "/dns/", PtrBody(fqdn, a));
            var fwd := PostEntry(s, "/dns/", DnsRecord(fqdn, ip, "A"));
            var sendsPtr := s.arpaEnable && Responsible(s.zones, a);
            var ptrOk := !sendsPtr || (respond(|log|, ptr).status == 200 && !Undecodable(respond(|log|, ptr)));
            var sendsA := s.forwardEnable && ptrOk;
            log1 == log + (if sendsPtr then [ptr] else []) + (if sendsA then [fwd] else []) &&
            (sendsPtr && respond(|log|, ptr).status != 200 ==> r == Fail(BackendError)) &&
            (r == Pass <==> ptrOk && (!sendsA || (respond(|log1| - 1, fwd).status == 200 && !Undecodable(respond(|log1| - 1, fwd)))))
  {
    var ip := Some(ToText(a));
    CreateArpaRequests(s, respond, log, fqdn, a);
    var (r1, log1) := CreateArpaOp(s, respond, log, fqdn, ip);
    if r1.Pass? && s.forwardEnable {
      var fwd := PostEntry(s, "/dns/", DnsRecord(fqdn, ip, "A"));
      assert CreateDnsOp(s, respond, log, fqdn, ip).1 == log1 + [fwd];
    }
  }

  /** A PTR step that cannot parse the address sends nothing and fails with `ValueError`,
      which is not a `BackendError`. */
  lemma CreateDnsBadAddress(s: Settings, respond: Responder, log: seq<Entry>, fqdn: Option<string>, ip: Option<string>)
    requires s.arpaEnable && ParseIp(ip).Err?
    ensures CreateDnsOp(s, respond, log, fqdn, ip) == (Fail(Uncaught(ValueError)), log)
  {
  }

  /** `delete_dns` mirrors `create_dns`: the PTR deletion under the same conditions, then
      the A deletion exactly when forward DNS is on and the PTR step did not fail. */
  lemma DeleteDnsRequests(s: Settings, respond: Responder, log: seq<Entry>, fqdn: Option<string>, a: Address)
    ensures var ip := Some(ToText(a));
            var (r, log1) := DeleteDnsOp(s, respond, log, fqdn, ip);
            var ptr := DeleteEntry(s, "/dns/" + ReversePointer(a) + "/PTR");
            var fwd := DeleteEntry(s, "/dns/" + PyStr(fqdn) + "/A");
            var sendsPtr := s.arpaEnable && Responsible(s.zones, a);
            var ptrOk := !sendsPtr || respond(|log|, ptr).status == 200;
            var sendsA := s.forwardEnable && ptrOk;
            log1 == log + (if sendsPtr then [ptr] else []) + (if sendsA then [fwd] else []) &&
            (r.Fail? ==> r.error == BackendError) &&
            (r == Pass <==> ptrOk && (!sendsA || respond(|log1| - 1, fwd).status == 200))
  {
    DeleteDnsLog(s, respond, log, fqdn, a);
    DeleteDnsOutcome(s, respond, log, fqdn, a);
  }

  /** The requests `delete_dns` sends for a stored address text. */
  lemma DeleteDnsLog(s: Settings, respond: Responder, log: seq<Entry>, fqdn: Option<string>, a: Address)
    ensures var log1 := DeleteDnsOp(s, respond, log, fqdn, Some(ToText(a))).1;
            var ptr := DeleteEntry(s, PtrPath(a));
            var sendsPtr := s.arpaEnable && Responsible(s.zones, a);
            var sendsA := s.forwardEnable && (!sendsPtr || respond(|log|, ptr).status == 200);
            log1 == log + (if sendsPtr then [ptr] else []) + (if sendsA then [DeleteEntry(s, APath(fqdn))] else [])
  {
    var ip := Some(ToText(a));
    DeleteArpaRequests(s, respond, log, fqdn, a);
    var (r1, log1) := DeleteArpaOp(s, respond, log, fqdn, ip);
    if r1.Pass? && s.forwardEnable {
      assert DeleteDnsOp(s, respond, log, fqdn, ip).1 == log1 + [DeleteEntry(s, APath(fqdn))];
    }
  }

  /** How `delete_dns` ends for a stored address text: only `BackendError`, and a pass
      exactly when every request it sends gets a 200. */
  lemma DeleteDnsOutcome(s: Settings, respond: Responder, log: seq<Entry>, fqdn: Option<string>, a: Address)
    ensures var r := DeleteDnsOp(s, respond, log, fqdn, Some(ToText(a))).0;
            var ptr := DeleteEntry(s, PtrPath(a));
            var sendsPtr := s.arpaEnable && Responsible(s.zones, a);
            var ptrOk := !sendsPtr || respond(|log|, ptr).status == 200;
            var log1 := log + (if sendsPtr then [ptr] else []);
            (r.Fail? ==> r.error == BackendError) &&
            (r == Pass <==> ptrOk && (!s.forwardEnable || respond(|log1|, DeleteEntry(s, APath(fqdn))).status == 200))
  {
    var ip := Some(ToText(a));
    DeleteArpaRequests(s, respond, log, fqdn, a);
    var (r1, log1) := DeleteArpaOp(s, respond, log, fqdn, ip);
    if r1.Pass? {
      assert DeleteDnsOp(s, respond, log, fqdn, ip) == DeleteForwardOp(s, respond, log1, fqdn);
    }
  }

  /** The PTR deletion for a stored address text: one DELETE exactly when reverse DNS is
      on and a zone holds the address; it passes exactly when that request (if any) gets
      a 200. */
  lemma DeleteArpaRequests(s: Settings, respond: Responder, log: seq<Entry>, fqdn: Option<string>, a: Address)
    ensures var (r, log1) := DeleteArpaOp(s, respond, log, fqdn, Some(ToText(a)));
            var ptr := DeleteEntry(s, PtrPath(a));
            var sendsPtr := s.arpaEnable && Responsible(s.zones, a);
            log1 == log + (if sendsPtr then [ptr] else []) &&
            (r.Fail? ==> r.error == BackendError) &&
            (r == Pass <==> !sendsPtr || respond(|log|, ptr).status == 200)
  {
    ParseToText(a);
    assert ParseIp(Some(ToText(a))) == Ok(a);
  }

  /** `create_realm`: nothing is sent and `None` returned when realm support is off;
      otherwise one POST of the host name to `/realm/<name>`, and the password of the
      reply. */
  lemma CreateRealmRequests(s: Settings, respond: Responder, log: seq<Entry>, fqdn: Option<string>)
    ensures var (r, log1) := CreateRealmOp(s, respond, log, fqdn);
            var e := PostEntry(s, "/realm/" + PyStr(s.realmName), RealmHost(fqdn));
            var resp := respond(|log|, e);
            (!s.realmEnable ==> r == Ok(None) && log1 == log) &&
            (s.realmEnable ==>
              log1 == log + [e] &&
              (r.Ok? <==> resp.status == 200 && resp.json.Some? && "randompassword" in resp.json.value) &&
              (r.Ok? ==> r.value == Some(resp.json.value["randompassword"])) &&
              (resp.status != 200 ==> r == Err(BackendError)) &&
              (resp.status == 200 && resp.json.None? ==>
                 r == Err(Uncaught(if resp.malformed then JsonDecodeError else TypeError))) &&
              (resp.status == 200 && resp.json.Some? && "randompassword" !in resp.json.value ==>
                 r == Err(Uncaught(KeyError))))
  {
  }

  /** `delete_realm`: nothing when realm support is off, otherwise one DELETE of
      `/realm/<name>/<fqdn>`. */
  lemma DeleteRealmRequests(s: Settings, respond: Responder, log: seq<Entry>, fqdn: Option<string>)
    ensures var (r, log1) := DeleteRealmOp(s, respond, log, fqdn);
            var e := DeleteEntry(s, "/realm/" + PyStr(s.realmName) + "/" + PyStr(fqdn));
            (!s.realmEnable ==> r == Pass && log1 == log) &&
            (s.realmEnable ==> log1 == log + [e] && (r == Pass <==> respond(|log|, e).status == 200))
  {
  }
}
