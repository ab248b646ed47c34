/** The legacy AWS Route 53 client (catweazle/models/aws_route53.py): a table from
    reverse zones to hosted-zone ids, and one UPSERT or DELETE change batch per record.
    Replies are never looked at: a refused change is swallowed, so the only failure a
    caller sees is an address that does not parse. */
module ModelsAwsRoute53 {
  import opened Base
  import opened IPv4
  import opened Http
  import opened Strings
  import CrudForeman

  type Zone = CrudForeman.Zone

  /** The reverse zones with their hosted-zone ids as a Python dict keeps them: `order`
      lists the zones by first insertion, `ids` holds the last id assigned to each. */
  datatype ZoneTable = ZoneTable(order: seq<Zone>, ids: map<Zone, string>)

  ghost predicate ValidTable(t: ZoneTable) {
    (forall i, j :: 0 <= i < j < |t.order| ==> t.order[i] != t.order[j]) &&
    (forall z :: z in t.ids <==> z in t.order)
  }

  /** The settings of one backend, as its constructor stores them. */
  datatype Route53 = Route53(name: string, dryRun: bool, arpaEnable: bool, zones: ZoneTable,
                             forwardEnable: bool, forwardZone: string)

  /** The `dns_arpa_enable` property: it answers with the forward flag, so the PTR steps
      follow forward DNS and the stored reverse flag is never read. */
  function ArpaEnabled(a: Route53): bool {
    a.forwardEnable
  }

  // ---------------------------------------------------------------- the zone table

  /** `table[z] = id`: a known zone keeps its place and takes the new id, a new one goes
      last. */
  function Put(t: ZoneTable, z: Zone, id: string): (r: ZoneTable)
    requires ValidTable(t)
    ensures ValidTable(r)
    ensures r.ids == t.ids[z := id]
    ensures r.order == if z in t.ids then t.order else t.order + [z]
  {
    ZoneTable(if z in t.ids then t.order else t.order + [z], t.ids[z := id])
  }

  /** One configured entry: a reverse zone and its hosted-zone id. */
  datatype Listing = Listing(zone: Zone, id: string)

  /** One configured entry, `<network>:<zone id>`: the text must split at `:` into
      exactly two parts (tuple unpacking raises `ValueError` otherwise, an empty text
      included), and the first must be a network `network` accepts. */
  function ZoneEntry(token: string, network: string -> Option<Zone>): (r: Result<Listing>)
    ensures r.Ok? <==> |Split(token, ':')| == 2 && network(Split(token, ':')[0]).Some?
    ensures r.Err? ==> r.error == Uncaught(ValueError)
    ensures r.Ok? ==> r.value == Listing(network(Split(token, ':')[0]).value, Split(token, ':')[1])
  {
    var parts := Split(token, ':');
    if |parts| != 2 then Err(Uncaught(ValueError))
    else match network(parts[0])
      case None => Err(Uncaught(ValueError))
      case Some(z) => Ok(Listing(z, parts[1]))
  }

  /** The entries of the configuration, each one read by `ZoneEntry`. */
  function Entries(tokens: seq<string>, network: string -> Option<Zone>): (r: Result<seq<Listing>>)
    ensures r.Ok? <==> forall k :: 0 <= k < |tokens| ==> ZoneEntry(tokens[k], network).Ok?
    ensures r.Err? ==> r.error == Uncaught(ValueError)
    ensures r.Ok? ==> |r.value| == |tokens| &&
                      forall k :: 0 <= k < |tokens| ==> r.value[k] == ZoneEntry(tokens[k], network).value
  {
    if forall k :: 0 <= k < |tokens| ==> ZoneEntry(tokens[k], network).Ok? then
      Ok(seq(|tokens|, k requires 0 <= k < |tokens| => ZoneEntry(tokens[k], network).value))
    else Err(Uncaught(ValueError))
  }

  /** The table the constructor's assignments build, one entry after the other. */
  function Table(entries: seq<Listing>): (t: ZoneTable)
    ensures ValidTable(t)
    decreases |entries|
  {
    if entries == [] then ZoneTable([], map[])
    else
      var e := entries[|entries| - 1];
      Put(Table(entries[..|entries| - 1]), e.zone, e.id)
  }

  /** The table holds exactly the zones listed. */
  lemma {:induction false} TableZones(entries: seq<Listing>, z: Zone)
    ensures z in Table(entries).ids <==> exists k :: 0 <= k < |entries| && entries[k].zone == z
    decreases |entries|
  {
    if entries != [] {
      var init := entries[..|entries| - 1];
      TableZones(init, z);
      assert Table(entries).ids == Table(init).ids[entries[|entries| - 1].zone := entries[|entries| - 1].id];
      if z in Table(init).ids {
        var k :| 0 <= k < |init| && init[k].zone == z;
        assert entries[k] == init[k];
      }
      if exists k :: 0 <= k < |entries| && entries[k].zone == z {
        var k :| 0 <= k < |entries| && entries[k].zone == z;
        if k < |init| {
          assert init[k] == entries[k];
        }
      }
    }
  }

  /** The last entry listing the zone, if any. */
  predicate LastFor(entries: seq<Listing>, k: int, z: Zone) {
    0 <= k < |entries| && entries[k].zone == z && forall j :: k < j < |entries| ==> entries[j].zone != z
  }

  /** A zone listed more than once takes the id of its last entry. */
  lemma {:induction false} LastEntryWins(entries: seq<Listing>, k: nat, z: Zone)
    requires LastFor(entries, k, z)
    ensures z in Table(entries).ids && Table(entries).ids[z] == entries[k].id
    decreases |entries|
  {
    var n := |entries| - 1;
    var init := entries[..n];
    var ids := Table(init).ids[entries[n].zone := entries[n].id];
    assert Table(entries).ids == ids;
    if k < n {
      assert entries[n].zone != z;
      assert LastFor(init, k, z) by {
        assert forall j :: k < j < |init| ==> init[j] == entries[j];
      }
      LastEntryWins(init, k, z);
      assert init[k] == entries[k];
    }
  }

  /** The constructor's loop over the space-separated entries. */
  function ZoneTableOf(tokens: seq<string>, network: string -> Option<Zone>): Result<ZoneTable> {
    match Entries(tokens, network)
    case Err(e) => Err(e)
    case Ok(es) => Ok(Table(es))
  }

  /** The zone table of a configuration text. */
  function ZonesOf(text: string, network: string -> Option<Zone>): Result<ZoneTable> {
    ZoneTableOf(Split(text, ' '), network)
  }

  /** The constructor's loop: every `<network>:<zone id>` entry in order, a later entry
      for the same network replacing the zone id of an earlier one. */
  method ReadZones(arpaZones: string, network: string -> Option<Zone>) returns (t: ZoneTable)
    requires ZonesOf(arpaZones, network).Ok?
    ensures ValidTable(t)
    ensures t == ZonesOf(arpaZones, network).value
  {
    var tokens := Split(arpaZones, ' ');
    assert ZonesOf(arpaZones, network) == Ok(Table(Entries(tokens, network).value));
    t := ReadTokens(tokens, network);
  }

  /** The loop itself, over the space-separated tokens. */
  method ReadTokens(tokens: seq<string>, network: string -> Option<Zone>) returns (t: ZoneTable)
    requires Entries(tokens, network).Ok?
    ensures t == Table(Entries(tokens, network).value)
  {
    ghost var es := Entries(tokens, network).value;
    t := ZoneTable([], map[]);
    var i := 0;
    while i < |tokens|
      invariant 0 <= i <= |tokens| == |es|
      invariant t == Table(es[..i])
    {
      EntryAt(tokens, network, i);
      var entry := ZoneEntry(tokens[i], network).value;
      TableSnoc(es, i);
      t := Put(t, entry.zone, entry.id);
      i := i + 1;
    }
    assert es[..i] == es;
  }

  /** Entry `i` of the configuration is token `i` read by `ZoneEntry`. */
  lemma EntryAt(tokens: seq<string>, network: string -> Option<Zone>, i: nat)
    requires Entries(tokens, network).Ok? && i < |tokens|
    ensures ZoneEntry(tokens[i], network).Ok?
    ensures i < |Entries(tokens, network).value| && Entries(tokens, network).value[i] == ZoneEntry(tokens[i], network).value
  {
  }

  /** The table of one more entry is the table before it with that entry put in. */
  lemma TableSnoc(es: seq<Listing>, i: nat)
    requires i < |es|
    ensures Table(es[..i + 1]) == Put(Table(es[..i]), es[i].zone, es[i].id)
  {
    assert es[..i + 1][..i] == es[..i];
  }

  /** The position of the first zone, in table order, that holds the address. */
  function FirstHolding(order: seq<Zone>, ip: Address): (r: Option<nat>)
    ensures r.None? <==> forall k :: 0 <= k < |order| ==> !InNetwork(ip, order[k])
    ensures r.Some? ==> r.value < |order| && InNetwork(ip, order[r.value]) &&
                        forall j :: 0 <= j < r.value ==> !InNetwork(ip, order[j])
  {
    FirstHoldingFrom(order, ip, 0)
  }

  /** `FirstHolding` among the zones from position `i` on. */
  function FirstHoldingFrom(order: seq<Zone>, ip: Address, i: nat): (r: Option<nat>)
    requires i <= |order|
    ensures r.None? <==> forall k :: i <= k < |order| ==> !InNetwork(ip, order[k])
    ensures r.Some? ==> i <= r.value < |order| && InNetwork(ip, order[r.value]) &&
                        forall j :: i <= j < r.value ==> !InNetwork(ip, order[j])
    decreases |order| - i
  {
    if i == |order| then None
    else if InNetwork(ip, order[i]) then Some(i)
    else FirstHoldingFrom(order, ip, i + 1)
  }

  /** `arpa_responsible`: the id of the first zone that holds the address; `None` when no
      zone does. A valid table has an id for every zone of its order, so the membership
      test only keeps the function total. */
  function Responsible(t: ZoneTable, ip: Address): Option<string> {
    match FirstHolding(t.order, ip)
    case None => None
    case Some(k) => if t.order[k] in t.ids then Some(t.ids[t.order[k]]) else None
  }

  // ---------------------------------------------------------------- specifications

  const Ttl: nat := 300

  /** One change batch sent to the remote; whatever it answers is not looked at. */
  function ChangeOp(a: Route53, respond: Responder, log: seq<Entry>, zoneId: string, comment: string, c: Change)
    : seq<Entry>
  {
    SendOp(respond, log, Entry(a.name, ChangeRecordSets(zoneId, comment, c))).1
  }

  /** The comment of a change batch, e.g. `CatWeazle: add <fqdn> in A <ip>`. */
  function Comment(verb: string, fqdn: Option<string>, rtype: string, ipText: string): string {
    "CatWeazle: " + verb + " " + PyStr(fqdn) + " in " + rtype + " " + ipText
  }

  /** `create_forward`: an UPSERT of the A record in the forward zone. */
  function CreateForwardOp(a: Route53, respond: Responder, log: seq<Entry>, fqdn: Option<string>, ip: Option<string>)
    : seq<Entry>
  {
    if !a.forwardEnable || a.dryRun then log
    else ChangeOp(a, respond, log, a.forwardZone, Comment("add", fqdn, "A", PyStr(ip)),
                  Change("UPSERT", PyStr(fqdn), "A", Ttl, PyStr(ip)))
  }

  /** `create_arpa`: an UPSERT of the PTR record in the zone holding the address; nothing
      when no zone holds it or its id is empty. The address is parsed even in a dry run. */
  function CreateArpaOp(a: Route53, respond: Responder, log: seq<Entry>, fqdn: Option<string>, ip: Option<string>)
    : (Outcome, seq<Entry>)
  {
    if !ArpaEnabled(a) then (Pass, log)
    else match CrudForeman.ParseIp(ip)
      case Err(e) => (Fail(e), log)
      case Ok(addr) =>
        var id := Responsible(a.zones, addr);
        if id.None? || id.value == "" || a.dryRun then (Pass, log)
        else (Pass, ChangeOp(a, respond, log, id.value, Comment("add", fqdn, "PTR", PyStr(ip)),
                             Change("UPSERT", ReversePointer(addr), "PTR", Ttl, PyStr(fqdn))))
  }

  /** `create`: the PTR step, then the A step. */
  function CreateOp(a: Route53, respond: Responder, log: seq<Entry>, fqdn: Option<string>, ip: Option<string>)
    : (Outcome, seq<Entry>)
  {
    var (r, log1) := CreateArpaOp(a, respond, log, fqdn, ip);
    if r.Fail? then (r, log1) else (Pass, CreateForwardOp(a, respond, log1, fqdn, ip))
  }

  /** `delete_forward`: a DELETE of the A record, under the `dns_arpa_enable` property. */
  function DeleteForwardOp(a: Route53, respond: Responder, log: seq<Entry>, fqdn: Option<string>, ip: Option<string>)
    : seq<Entry>
  {
    if !ArpaEnabled(a) || a.dryRun then log
    else ChangeOp(a, respond, log, a.forwardZone, Comment("remove", fqdn, "A", PyStr(ip)),
                  Change("DELETE", PyStr(fqdn), "A", Ttl, PyStr(ip)))
  }

  /** `delete_arpa`: a DELETE of the PTR record, under the same conditions as its
      creation. */
  function DeleteArpaOp(a: Route53, respond: Responder, log: seq<Entry>, fqdn: Option<string>, ip: Option<string>)
    : (Outcome, seq<Entry>)
  {
    if !ArpaEnabled(a) then (Pass, log)
    else match CrudForeman.ParseIp(ip)
      case Err(e) => (Fail(e), log)
      case Ok(addr) =>
        var id := Responsible(a.zones, addr);
        if id.None? || id.value == "" || a.dryRun then (Pass, log)
        else (Pass, ChangeOp(a, respond, log, id.value, Comment("remove", fqdn, "PTR", PyStr(ip)),
                             Change("DELETE", ReversePointer(addr), "PTR", Ttl, PyStr(fqdn))))
  }

  /** `delete`: the PTR step, then the A step. */
  function DeleteOp(a: Route53, respond: Responder, log: seq<Entry>, fqdn: Option<string>, ip: Option<string>)
    : (Outcome, seq<Entry>)
  {
    var (r, log1) := DeleteArpaOp(a, respond, log, fqdn, ip);
    if r.Fail? then (r, log1) else (Pass, DeleteForwardOp(a, respond, log1, fqdn, ip))
  }

  // ---------------------------------------------------------------- the class

  class AwsRoute53 {
    const name: string
    const dryRun: bool
    const arpaEnable: bool
    const zones: ZoneTable
    const forwardEnable: bool
    const forwardZone: string
    const remote: Remote

    function Conf(): Route53 {
      Route53(name, dryRun, arpaEnable, zones, forwardEnable, forwardZone)
    }

    ghost predicate Valid() {
      ValidTable(zones)
    }

    /** The constructor reads the `<network>:<zone id>` entries one by one; an entry that
        cannot be read stops the service from starting. */
    constructor (remote: Remote, name: string, dryRun: bool, arpaEnable: bool, arpaZones: string,
                 network: string -> Option<Zone>, forwardEnable: bool, forwardZone: string)
      requires ZonesOf(arpaZones, network).Ok?
      ensures Valid()
      ensures Conf() == Route53(name, dryRun, arpaEnable, ZonesOf(arpaZones, network).value, forwardEnable, forwardZone)
      ensures this.remote == remote
    {
      var t := ReadZones(arpaZones, network);
      this.name := name;
      this.dryRun := dryRun;
      this.arpaEnable := arpaEnable;
      this.zones := t;
      this.forwardEnable := forwardEnable;
      this.forwardZone := forwardZone;
      this.remote := remote;
    }

    /** `arpa_responsible`: the loop over the table in its order. */
    method ArpaResponsible(ip: Address) returns (r: Option<string>)
      requires Valid()
      ensures r == Responsible(zones, ip)
    {
      var i := 0;
      while i < |zones.order|
        invariant 0 <= i <= |zones.order|
        invariant forall j :: 0 <= j < i ==> !InNetwork(ip, zones.order[j])
      {
        if InNetwork(ip, zones.order[i]) {
          return Some(zones.ids[zones.order[i]]);
        }
        i := i + 1;
      }
      r := None;
    }

    method Change(zoneId: string, comment: string, c: Http.Change)
      modifies remote
      ensures remote.log == ChangeOp(Conf(), remote.respond, old(remote.log), zoneId, comment, c)
    {
      var _ := remote.Send(Entry(name, ChangeRecordSets(zoneId, comment, c)));
    }

    method CreateForward(fqdn: Option<string>, ip: Option<string>)
      modifies remote
      ensures remote.log == CreateForwardOp(Conf(), remote.respond, old(remote.log), fqdn, ip)
    {
      if !forwardEnable || dryRun {
        return;
      }
      Change(forwardZone, Comment("add", fqdn, "A", PyStr(ip)), Http.Change("UPSERT", PyStr(fqdn), "A", Ttl, PyStr(ip)));
    }

    method CreateArpa(fqdn: Option<string>, ip: Option<string>) returns (r: Outcome)
      requires Valid()
      modifies remote
      ensures (r, remote.log) == CreateArpaOp(Conf(), remote.respond, old(remote.log), fqdn, ip)
    {
      if !forwardEnable {
        return Pass;
      }
      var addr := CrudForeman.ParseIp(ip);
      if addr.Err? {
        return Fail(addr.error);
      }
      var id := ArpaResponsible(addr.value);
      if id.None? || id.value == "" || dryRun {
        return Pass;
      }
      Change(id.value, Comment("add", fqdn, "PTR", PyStr(ip)),
             Http.Change("UPSERT", ReversePointer(addr.value), "PTR", Ttl, PyStr(fqdn)));
      r := Pass;
    }

    method Create(fqdn: Option<string>, ip: Option<string>) returns (r: Outcome)
      requires Valid()
      modifies remote
      ensures (r, remote.log) == CreateOp(Conf(), remote.respond, old(remote.log), fqdn, ip)
    {
      r := CreateArpa(fqdn, ip);
      if r.Pass? {
        CreateForward(fqdn, ip);
      }
    }

    method DeleteForward(fqdn: Option<string>, ip: Option<string>)
      modifies remote
      ensures remote.log == DeleteForwardOp(Conf(), remote.respond, old(remote.log), fqdn, ip)
    {
      if !forwardEnable || dryRun {
        return;
      }
      Change(forwardZone, Comment("remove", fqdn, "A", PyStr(ip)), Http.Change("DELETE", PyStr(fqdn), "A", Ttl, PyStr(ip)));
    }

    method DeleteArpa(fqdn: Option<string>, ip: Option<string>) returns (r: Outcome)
      requires Valid()
      modifies remote
      ensures (r, remote.log) == DeleteArpaOp(Conf(), remote.respond, old(remote.log), fqdn, ip)
    {
      if !forwardEnable {
        return Pass;
      }
      var addr := CrudForeman.ParseIp(ip);
      if addr.Err? {
        return Fail(addr.error);
      }
      var id := ArpaResponsible(addr.value);
      if id.None? || id.value == "" || dryRun {
        return Pass;
      }
      Change(id.value, Comment("remove", fqdn, "PTR", PyStr(ip)),
             Http.Change("DELETE", ReversePointer(addr.value), "PTR", Ttl, PyStr(fqdn)));
      r := Pass;
    }

    method Delete(fqdn: Option<string>, ip: Option<string>) returns (r: Outcome)
      requires Valid()
      modifies remote
      ensures (r, remote.log) == DeleteOp(Conf(), remote.respond, old(remote.log), fqdn, ip)
    {
      r := DeleteArpa(fqdn, ip);
      if r.Pass? {
        DeleteForward(fqdn, ip);
      }
    }
  }

  // ---------------------------------------------------------------- properties

  /** The reverse flag is never read: two backends that differ in it alone send the same
      requests and answer the same. */
  lemma ArpaFlagUnused(a: Route53, flag: bool, respond: Responder, log: seq<Entry>, fqdn: Option<string>, ip: Option<string>)
    ensures CreateOp(a.(arpaEnable := flag), respond, log, fqdn, ip) == CreateOp(a, respond, log, fqdn, ip)
    ensures DeleteOp(a.(arpaEnable := flag), respond, log, fqdn, ip) == DeleteOp(a, respond, log, fqdn, ip)
  {
  }

  /** `create` never reports a refused change: it fails only on an address that does not
      parse, and then only when forward DNS is on; a dry run, or forward DNS off, sends
      nothing. */
  lemma CreateNeverFailsOnReplies(a: Route53, respond: Responder, log: seq<Entry>, fqdn: Option<string>, ip: Option<string>)
    ensures var (r, log1) := CreateOp(a, respond, log, fqdn, ip);
            (r.Fail? <==> a.forwardEnable && CrudForeman.ParseIp(ip).Err?) &&
            (r.Fail? ==> r.error == Uncaught(ValueError) && log1 == log) &&
            (a.dryRun || !a.forwardEnable ==> log1 == log)
    ensures var (r, log1) := DeleteOp(a, respond, log, fqdn, ip);
            (r.Fail? <==> a.forwardEnable && CrudForeman.ParseIp(ip).Err?) &&
            (r.Fail? ==> r.error == Uncaught(ValueError) && log1 == log) &&
            (a.dryRun || !a.forwardEnable ==> log1 == log)
  {
  }

  /** The PTR change for an address, as `create_arpa` and `delete_arpa` send it. */
  function PtrEntry(a: Route53, zoneId: string, verb: string, action: string, fqdn: Option<string>, addr: Address): Entry {
    Entry(a.name, ChangeRecordSets(zoneId, Comment(verb, fqdn, "PTR", ToText(addr)),
                                   Http.Change(action, ReversePointer(addr), "PTR", 300, PyStr(fqdn))))
  }

  /** The A change for an address, as `create_forward` and `delete_forward` send it. */
  function AEntry(a: Route53, verb: string, action: string, fqdn: Option<string>, addr: Address): Entry {
    Entry(a.name, ChangeRecordSets(a.forwardZone, Comment(verb, fqdn, "A", ToText(addr)),
                                   Http.Change(action, PyStr(fqdn), "A", 300, ToText(addr))))
  }

  lemma TextParses(addr: Address)
    ensures CrudForeman.ParseIp(Some(ToText(addr))) == Ok(addr)
    ensures PyStr(Some(ToText(addr))) == ToText(addr)
  {
    ParseToText(addr);
  }

  /** The PTR step for a stored address text: one change to the zone holding the address,
      when that zone has a non-empty id and the step is live. */
  lemma CreateArpaOnText(a: Route53, respond: Responder, log: seq<Entry>, fqdn: Option<string>, addr: Address)
    ensures var id := Responsible(a.zones, addr);
            CreateArpaOp(a, respond, log, fqdn, Some(ToText(addr))) ==
              (Pass, if a.forwardEnable && !a.dryRun && id.Some? && id.value != ""
                     then log + [PtrEntry(a, id.value, "add", "UPSERT", fqdn, addr)] else log)
  {
    TextParses(addr);
  }

  lemma DeleteArpaOnText(a: Route53, respond: Responder, log: seq<Entry>, fqdn: Option<string>, addr: Address)
    ensures var id := Responsible(a.zones, addr);
            DeleteArpaOp(a, respond, log, fqdn, Some(ToText(addr))) ==
              (Pass, if a.forwardEnable && !a.dryRun && id.Some? && id.value != ""
                     then log + [PtrEntry(a, id.value, "remove", "DELETE", fqdn, addr)] else log)
  {
    TextParses(addr);
  }

  /** Both operations only append requests. */
  lemma ChangesExtend(a: Route53, respond: Responder, log: seq<Entry>, fqdn: Option<string>, ip: Option<string>)
    ensures log <= CreateOp(a, respond, log, fqdn, ip).1
    ensures log <= DeleteOp(a, respond, log, fqdn, ip).1
  {
  }

  /** `create` for a stored address text sends, in this order, the PTR UPSERT to the zone
      the address falls in (when that zone has a non-empty id) and the A UPSERT to the
      forward zone, both only when forward DNS is on and it is no dry run; it never
      fails. */
  lemma CreateRequests(a: Route53, respond: Responder, log: seq<Entry>, fqdn: Option<string>, addr: Address)
    ensures var id := Responsible(a.zones, addr);
            var live := a.forwardEnable && !a.dryRun;
            CreateOp(a, respond, log, fqdn, Some(ToText(addr))) ==
              (Pass, log + (if live && id.Some? && id.value != "" then [PtrEntry(a, id.value, "add", "UPSERT", fqdn, addr)] else [])
                         + (if live then [AEntry(a, "add", "UPSERT", fqdn, addr)] else []))
  {
    CreateArpaOnText(a, respond, log, fqdn, addr);
    TextParses(addr);
    var log1 := CreateArpaOp(a, respond, log, fqdn, Some(ToText(addr))).1;
    var ptrs := log1[|log|..];
    assert log1 == log + ptrs;
    if a.forwardEnable && !a.dryRun {
      assert CreateForwardOp(a, respond, log1, fqdn, Some(ToText(addr))) == log1 + [AEntry(a, "add", "UPSERT", fqdn, addr)];
    }
  }

  /** `delete` mirrors `create` with DELETE changes of the same records. */
  lemma DeleteRequests(a: Route53, respond: Responder, log: seq<Entry>, fqdn: Option<string>, addr: Address)
    ensures var id := Responsible(a.zones, addr);
            var live := a.forwardEnable && !a.dryRun;
            DeleteOp(a, respond, log, fqdn, Some(ToText(addr))) ==
              (Pass, log + (if live && id.Some? && id.value != "" then [PtrEntry(a, id.value, "remove", "DELETE", fqdn, addr)] else [])
                         + (if live then [AEntry(a, "remove", "DELETE", fqdn, addr)] else []))
  {
    DeleteArpaOnText(a, respond, log, fqdn, addr);
    TextParses(addr);
    var log1 := DeleteArpaOp(a, respond, log, fqdn, Some(ToText(addr))).1;
    var ptrs := log1[|log|..];
    assert log1 == log + ptrs;
    if a.forwardEnable && !a.dryRun {
      assert DeleteForwardOp(a, respond, log1, fqdn, Some(ToText(addr))) == log1 + [AEntry(a, "remove", "DELETE", fqdn, addr)];
    }
  }

  /** The zone a record goes to is the first zone that holds the address: overlapping
      zones are decided by the order of the configuration. */
  lemma ResponsibleFirst(t: ZoneTable, addr: Address)
    requires ValidTable(t)
    ensures Responsible(t, addr).None? <==> forall k :: 0 <= k < |t.order| ==> !InNetwork(addr, t.order[k])
    ensures Responsible(t, addr).Some? ==>
            exists k :: 0 <= k < |t.order| && InNetwork(addr, t.order[k]) && Responsible(t, addr) == Some(t.ids[t.order[k]]) &&
                        forall j :: 0 <= j < k ==> !InNetwork(addr, t.order[j])
  {
    if Responsible(t, addr).Some? {
      var k := FirstHolding(t.order, addr).value;
      assert InNetwork(addr, t.order[k]);
    }
  }
}
