/**
 * Published-port checks before a Docker mutation: the Compose project must not publish
 * one port twice, and the running containers must own exactly the expected bindings
 * (docker_port_mapping.go). JSON decoding is left out: the decoded values are inputs.
 */
module PortMapping {
  import opened Basics
  import opened Text
  import opened PortLedger

  /** A canonical host address: empty, or an IP literal with its `IsUnspecified` bit. */
  datatype HostIp = AnyHost | Address(text: string, unspecified: bool)

  datatype Protocol = Tcp | Udp

  // --- Decoding the parts -------------------------------------------------------

  /** `dockerComposePortNumber`; `None` stands for a JSON value that is neither number nor string. */
  function PortNumber(value: Option<string>): (r: Option<int>) {
    match value
    case None => None
    case Some(text) =>
      if text != TrimSpace(text) || HasPrefix(text, "+") then None
      else
        match ParseInt64(text)
        case None => None
        case Some(port) => if port < 1 || port > 65535 || PrintNat(port) != text then None else Some(port)
  }

  lemma {:induction false} DigitsNeedNoTrim(s: string)
    requires s != "" && forall i :: 0 <= i < |s| ==> IsDigit(s[i])
    ensures TrimSpace(s) == s
  {
  }

  /** A port number is accepted exactly when it is the canonical printing of a port. */
  lemma PortNumberIsCanonical(text: string, port: int)
    ensures PortNumber(Some(text)) == Some(port) <==> 1 <= port <= 65535 && text == PrintNat(port)
  {
    if 1 <= port <= 65535 {
      DigitsNeedNoTrim(PrintNat(port));
      ParsePrintedInt64(port);
    }
  }

  function Lower(s: string): string {
    seq(|s|, i requires 0 <= i < |s| =>
      if 'A' <= s[i] <= 'Z' then (s[i] as int + 32) as char else s[i])
  }

  function ComposeProtocol(raw: string): Option<Protocol> {
    var protocol := Lower(TrimSpace(raw));
    if protocol == "" || protocol == "tcp" then Some(Tcp)
    else if protocol == "udp" then Some(Udp)
    else None
  }

  /** `dockerHostBindingsConflict` on canonical addresses */
  predicate HostsConflict(left: HostIp, right: HostIp) {
    left == AnyHost || right == AnyHost || left == right || left.unspecified || right.unspecified
  }

  /** `dockerCurrentHostBindingMatches` */
  predicate HostMatches(expected: HostIp, actual: HostIp) {
    if expected == AnyHost then actual == AnyHost || actual.unspecified else expected == actual
  }

  // --- The Compose project ----------------------------------------------------------

  /** One `ports` entry; `hostIp` is `None` when the address is not a canonical IP literal. */
  datatype RawPort = RawPort(target: Option<string>, published: Option<string>, protocol: string,
                             hostIp: Option<HostIp>, mode: string)

  datatype PortMap = PortMap(hostIp: HostIp, published: int, container: int, protocol: Protocol)

  type Services = map<string, seq<RawPort>>

  function Decode(raw: RawPort): Option<PortMap> {
    var container, published := PortNumber(raw.target), PortNumber(raw.published);
    var protocol := ComposeProtocol(raw.protocol);
    if container.None? || published.None? || protocol.None? || raw.hostIp.None? then None
    else Some(PortMap(raw.hostIp.value, published.value, container.value, protocol.value))
  }

  /** Two published mappings that Docker could not serve both. */
  predicate Collide(a: PortMap, b: PortMap) {
    a.published == b.published && a.protocol == b.protocol && HostsConflict(a.hostIp, b.hostIp)
  }

  /** Unprivileged TCP ingress. */
  predicate ManagedOk(raw: RawPort) {
    && Decode(raw).Some?
    && var port := Decode(raw).value;
       && 1024 <= port.container <= 65535 && 1024 <= port.published <= 65535
       && port.protocol == Tcp && (raw.mode == "" || raw.mode == "ingress")
  }

  /** Where an entry stands in the project. */
  datatype Place = Place(service: string, index: nat)

  predicate Declared(services: Services, p: Place) {
    p.service in services && p.index < |services[p.service]|
  }

  function EntryAt(services: Services, p: Place): Option<PortMap>
    requires Declared(services, p)
  {
    Decode(services[p.service][p.index])
  }

  ghost predicate AllDecode(services: Services) {
    forall p :: Declared(services, p) ==> EntryAt(services, p).Some?
  }

  /** No two published mappings anywhere in the project collide. */
  ghost predicate CollisionFree(services: Services)
    requires AllDecode(services)
  {
    forall p, q :: Declared(services, p) && Declared(services, q) && p != q ==>
                     !Collide(EntryAt(services, p).value, EntryAt(services, q).value)
  }

  ghost predicate ProjectOk(services: Services, managed: string) {
    && managed in services
    && AllDecode(services) && CollisionFree(services)
    && forall i :: 0 <= i < |services[managed]| ==> ManagedOk(services[managed][i])
  }

  /** The mappings of the managed service, in declaration order. */
  function ManagedMappings(ports: seq<RawPort>): seq<PortMap>
    requires forall i :: 0 <= i < |ports| ==> Decode(ports[i]).Some?
  {
    seq(|ports|, i requires 0 <= i < |ports| => Decode(ports[i]).value)
  }

  /**
   * What the validation returns, without mentioning any iteration order. `bindPort` is
   * the container's own listen port, if it declares a valid one.
   */
  ghost function Validated(services: Services, managed: string, bindPort: Option<int>): Option<seq<PortMap>> {
    if !ProjectOk(services, managed) then None
    else
      var mappings := ManagedMappings(services[managed]);
      if |mappings| == 0 then Some([])
      else if |mappings| == 1 && bindPort == Some(mappings[0].container) then Some(mappings)
      else None
  }

  method CollidesWith(observed: seq<PortMap>, port: PortMap) returns (found: bool)
    ensures found <==> exists k :: 0 <= k < |observed| && Collide(observed[k], port)
  {
    for k := 0 to |observed|
      invariant forall j :: 0 <= j < k ==> !Collide(observed[j], port)
    {
      if Collide(observed[k], port) {
        return true;
      }
    }
    return false;
  }

  // --- Scanning the project -----------------------------------------------------------

  /** `order` is one way to range over the services. */
  ghost predicate IsOrderOf(order: seq<string>, services: Services) {
    && (forall name :: name in order <==> name in services)
    && (forall a, b :: 0 <= a < b < |order| ==> order[a] != order[b])
  }

  /** The entries before `index` of service `a`, and all entries of the services before it. */
  ghost predicate Visited(order: seq<string>, services: Services, a: nat, index: nat, p: Place)
    requires a <= |order|
  {
    && Declared(services, p)
    && (p.service in order[..a] || (a < |order| && p.service == order[a] && p.index < index))
  }

  /** The observed list so far: one entry per visited place, no two of them colliding. */
  ghost predicate Scanned(order: seq<string>, services: Services, managed: string, a: nat, index: nat,
                          observed: seq<PortMap>, places: seq<Place>)
    requires a <= |order|
  {
    && |observed| == |places|
    && (forall p :: p in places <==> Visited(order, services, a, index, p))
    && (forall k :: 0 <= k < |places| ==>
                      Declared(services, places[k]) && EntryAt(services, places[k]) == Some(observed[k]))
    && (forall k, l :: 0 <= k < l < |observed| ==> !Collide(observed[k], observed[l]))
    && (forall p :: p in places && p.service == managed ==> ManagedOk(services[managed][p.index]))
  }

  lemma ScanStep(order: seq<string>, services: Services, managed: string, a: nat, index: nat,
                 observed: seq<PortMap>, places: seq<Place>, port: PortMap)
    requires IsOrderOf(order, services)
    requires a < |order| && index < |services[order[a]]|
    requires Scanned(order, services, managed, a, index, observed, places)
    requires Decode(services[order[a]][index]) == Some(port)
    requires forall k :: 0 <= k < |observed| ==> !Collide(observed[k], port)
    requires order[a] == managed ==> ManagedOk(services[managed][index])
    ensures Scanned(order, services, managed, a, index + 1, observed + [port], places + [Place(order[a], index)])
  {
    var p := Place(order[a], index);
    forall q ensures q in places + [p] <==> Visited(order, services, a, index + 1, q) {
      assert q in places <==> Visited(order, services, a, index, q);
    }
  }

  lemma ScanNext(order: seq<string>, services: Services, managed: string, a: nat,
                 observed: seq<PortMap>, places: seq<Place>)
    requires IsOrderOf(order, services) && a < |order|
    requires Scanned(order, services, managed, a, |services[order[a]]|, observed, places)
    ensures Scanned(order, services, managed, a + 1, 0, observed, places)
  {
    assert order[..a + 1] == order[..a] + [order[a]];
  }

  /** After the last service every declared entry has its place in the list. */
  lemma AllVisited(order: seq<string>, services: Services, managed: string, observed: seq<PortMap>, places: seq<Place>,
                   p: Place)
    requires IsOrderOf(order, services) && Declared(services, p)
    requires Scanned(order, services, managed, |order|, 0, observed, places)
    ensures p in places && EntryAt(services, p).Some? && EntryAt(services, p).value in observed
  {
    assert order[..|order|] == order;
    assert Visited(order, services, |order|, 0, p);
    var k :| 0 <= k < |places| && places[k] == p;
    assert observed[k] in observed;
  }

  lemma PlacesApart(order: seq<string>, services: Services, managed: string, observed: seq<PortMap>, places: seq<Place>,
                    p: Place, q: Place)
    requires Scanned(order, services, managed, |order|, 0, observed, places)
    requires p in places && q in places && p != q
    ensures Declared(services, p) && Declared(services, q)
    ensures EntryAt(services, p).Some? && EntryAt(services, q).Some?
    ensures !Collide(EntryAt(services, p).value, EntryAt(services, q).value)
  {
    var k :| 0 <= k < |places| && places[k] == p;
    var l :| 0 <= l < |places| && places[l] == q;
    assert k < l || l < k;
  }

  lemma ScanDone(order: seq<string>, services: Services, managed: string, observed: seq<PortMap>, places: seq<Place>)
    requires IsOrderOf(order, services) && managed in services
    requires Scanned(order, services, managed, |order|, 0, observed, places)
    ensures ProjectOk(services, managed)
  {
    forall p | Declared(services, p) ensures p in places && EntryAt(services, p).Some? {
      AllVisited(order, services, managed, observed, places, p);
    }
    forall p, q | Declared(services, p) && Declared(services, q) && p != q
      ensures !Collide(EntryAt(services, p).value, EntryAt(services, q).value)
    {
      PlacesApart(order, services, managed, observed, places, p, q);
    }
    forall i | 0 <= i < |services[managed]| ensures ManagedOk(services[managed][i]) {
      AllVisited(order, services, managed, observed, places, Place(managed, i));
    }
  }

  lemma ScanCollision(order: seq<string>, services: Services, managed: string, a: nat, index: nat,
                      observed: seq<PortMap>, places: seq<Place>, port: PortMap, k: nat)
    requires IsOrderOf(order, services)
    requires a < |order| && index < |services[order[a]]|
    requires Scanned(order, services, managed, a, index, observed, places)
    requires Decode(services[order[a]][index]) == Some(port)
    requires k < |observed| && Collide(observed[k], port)
    ensures !ProjectOk(services, managed)
  {
    var p := Place(order[a], index);
    assert places[k] in places;
    assert !Visited(order, services, a, index, p);
    assert Collide(EntryAt(services, places[k]).value, EntryAt(services, p).value);
  }

  /** The inner loop: the entries of one service. */
  method ScanService(order: seq<string>, services: Services, managed: string, a: nat,
                     before: seq<PortMap>, ghost placesBefore: seq<Place>)
    returns (ok: bool, observed: seq<PortMap>, ghost places: seq<Place>)
    requires IsOrderOf(order, services) && a < |order|
    requires Scanned(order, services, managed, a, 0, before, placesBefore)
    ensures ok ==> Scanned(order, services, managed, a + 1, 0, observed, places)
    ensures !ok ==> !ProjectOk(services, managed)
  {
    observed, places := before, placesBefore;
    var name := order[a];
    for i := 0 to |services[name]|
      invariant Scanned(order, services, managed, a, i, observed, places)
    {
      assert Declared(services, Place(name, i));
      var raw := services[name][i];
      var port := Decode(raw);
      if port.None? {
        assert EntryAt(services, Place(name, i)).None?;
        return false, observed, places;
      }
      var collides := CollidesWith(observed, port.value);
      if collides {
        ghost var k :| 0 <= k < |observed| && Collide(observed[k], port.value);
        ScanCollision(order, services, managed, a, i, observed, places, port.value, k);
        return false, observed, places;
      }
      if name == managed && !ManagedOk(raw) {
        return false, observed, places;
      }
      ScanStep(order, services, managed, a, i, observed, places, port.value);
      observed, places := observed + [port.value], places + [Place(name, i)];
    }
    ScanNext(order, services, managed, a, observed, places);
    ok := true;
  }

  /**
   * `validateDockerComposePortMappings` for a canonical node target: whatever the order
   * in which the services are visited, the outcome is the same.
   */
  method ValidateComposePorts(services: Services, order: seq<string>, managed: string, bindPort: Option<int>)
    returns (r: Option<seq<PortMap>>)
    requires IsOrderOf(order, services)
    ensures r == Validated(services, managed, bindPort)
    ensures r.Some? ==> AllDecode(services) && CollisionFree(services)
  {
    if managed !in services {
      return None;
    }
    var observed: seq<PortMap> := [];
    ghost var places: seq<Place> := [];
    for a := 0 to |order|
      invariant Scanned(order, services, managed, a, 0, observed, places)
    {
      var ok;
      ok, observed, places := ScanService(order, services, managed, a, observed, places);
      if !ok {
        return None;
      }
    }
    ScanDone(order, services, managed, observed, places);
    var mappings := ManagedMappings(services[managed]);
    if |mappings| == 0 {
      return Some([]);
    }
    if |mappings| != 1 || bindPort != Some(mappings[0].container) {
      return None;
    }
    return Some(mappings);
  }

  // --- Ownership of the published ports ---------------------------------------------------

  datatype RawBinding = RawBinding(hostIp: Option<HostIp>, hostPort: string)

  /** What Docker reports for one container: endpoint such as "8080/tcp" to host bindings. */
  type Bindings = map<string, seq<RawBinding>>

  function EndpointProtocol(text: string): Option<Protocol> {
    if text == "tcp" then Some(Tcp) else if text == "udp" then Some(Udp) else None
  }

  predicate EndpointOk(endpoint: string) {
    var parts := Split(endpoint, '/');
    |parts| == 2 && PortNumber(Some(parts[0])).Some? && EndpointProtocol(parts[1]).Some?
  }

  function DecodeBinding(endpoint: string, raw: RawBinding): Option<PortMap> {
    if !EndpointOk(endpoint) || PortNumber(Some(raw.hostPort)).None? || raw.hostIp.None? then None
    else
      var parts := Split(endpoint, '/');
      Some(PortMap(raw.hostIp.value, PortNumber(Some(raw.hostPort)).value,
                   PortNumber(Some(parts[0])).value, EndpointProtocol(parts[1]).value))
  }

  /** A binding of the managed container that is the given mapping. */
  predicate Serves(mapping: PortMap, b: PortMap) {
    && mapping.published == b.published && mapping.container == b.container
    && mapping.protocol == b.protocol && HostMatches(mapping.hostIp, b.hostIp)
  }

  /** The managed container binds only what the mappings name; others bind nothing that collides. */
  ghost predicate BindingOk(mappings: seq<PortMap>, current: bool, b: PortMap) {
    if current then exists i :: 0 <= i < |mappings| && Serves(mappings[i], b)
    else forall i :: 0 <= i < |mappings| ==> !Collide(mappings[i], b)
  }

  ghost predicate RawAccepted(mappings: seq<PortMap>, current: bool, endpoint: string, raw: RawBinding) {
    DecodeBinding(endpoint, raw).Some? && BindingOk(mappings, current, DecodeBinding(endpoint, raw).value)
  }

  ghost predicate AcceptedBefore(mappings: seq<PortMap>, current: bool, endpoint: string, raws: seq<RawBinding>,
                                 n: nat)
    requires n <= |raws|
  {
    forall k :: 0 <= k < n ==> RawAccepted(mappings, current, endpoint, raws[k])
  }

  ghost predicate EndpointAccepted(mappings: seq<PortMap>, current: bool, endpoint: string, raws: seq<RawBinding>) {
    EndpointOk(endpoint) && AcceptedBefore(mappings, current, endpoint, raws, |raws|)
  }

  ghost predicate OwnerAccepted(mappings: seq<PortMap>, current: bool, bindings: Bindings) {
    forall endpoint :: endpoint in bindings ==> EndpointAccepted(mappings, current, endpoint, bindings[endpoint])
  }

  predicate RawServes(mapping: PortMap, endpoint: string, raw: RawBinding) {
    DecodeBinding(endpoint, raw).Some? && Serves(mapping, DecodeBinding(endpoint, raw).value)
  }

  ghost predicate ServesBefore(mapping: PortMap, endpoint: string, raws: seq<RawBinding>, n: nat)
    requires n <= |raws|
  {
    exists k :: 0 <= k < n && RawServes(mapping, endpoint, raws[k])
  }

  ghost predicate EndpointServes(mapping: PortMap, endpoint: string, raws: seq<RawBinding>) {
    ServesBefore(mapping, endpoint, raws, |raws|)
  }

  ghost predicate OwnerServes(mapping: PortMap, bindings: Bindings) {
    exists endpoint :: endpoint in bindings && EndpointServes(mapping, endpoint, bindings[endpoint])
  }

  predicate IsCurrent(owner: string, current: string) {
    ContainerIdsMatch(owner, current)
  }

  /** The container list is usable: bounded, not empty, well-formed and without repetition. */
  ghost predicate ListOk(owners: seq<string>, current: string) {
    && IsContainerId(current)
    && 0 < |owners| <= 256
    && (forall o :: 0 <= o < |owners| ==> IsContainerId(owners[o]))
    && (forall o, p :: 0 <= o < p < |owners| ==> owners[o] != owners[p])
  }

  /** Every binding is acceptable, and every mapping is served by the managed container. */
  ghost predicate OwnershipOk(mappings: seq<PortMap>, owners: seq<string>, current: string, bindings: seq<Bindings>)
    requires |owners| == |bindings|
  {
    && (forall o :: 0 <= o < |owners| ==> OwnerAccepted(mappings, IsCurrent(owners[o], current), bindings[o]))
    && (forall i :: 0 <= i < |mappings| ==>
                      ServedBefore(mappings[i], owners, current, bindings, |owners|))
  }

  method CheckBinding(mappings: seq<PortMap>, current: bool, b: PortMap, found: array<bool>) returns (ok: bool)
    requires found.Length == |mappings|
    modifies found
    ensures ok <==> BindingOk(mappings, current, b)
    ensures ok ==> forall i :: 0 <= i < |mappings| ==>
                                 found[i] == (old(found[i]) || (current && Serves(mappings[i], b)))
  {
    var matched := false;
    for i := 0 to |mappings|
      invariant matched <==> current && exists j :: 0 <= j < i && Serves(mappings[j], b)
      invariant !current ==> forall j :: 0 <= j < i ==> !Collide(mappings[j], b)
      invariant forall j :: 0 <= j < i ==> found[j] == (old(found[j]) || (current && Serves(mappings[j], b)))
      invariant forall j :: i <= j < |mappings| ==> found[j] == old(found[j])
    {
      if current {
        if Serves(mappings[i], b) {
          found[i] := true;
          matched := true;
        }
      } else if Collide(mappings[i], b) {
        return false;
      }
    }
    ok := !current || matched;
  }

  method CheckEndpoint(mappings: seq<PortMap>, current: bool, endpoint: string, raws: seq<RawBinding>,
                       found: array<bool>)
    returns (ok: bool)
    requires found.Length == |mappings|
    modifies found
    ensures ok <==> EndpointAccepted(mappings, current, endpoint, raws)
    ensures ok ==> forall i :: 0 <= i < |mappings| ==>
                                 found[i] == (old(found[i]) || (current && EndpointServes(mappings[i], endpoint, raws)))
  {
    if !EndpointOk(endpoint) {
      return false;
    }
    for k := 0 to |raws|
      invariant AcceptedBefore(mappings, current, endpoint, raws, k)
      invariant forall i :: 0 <= i < |mappings| ==>
                              found[i] == (old(found[i]) || (current && ServesBefore(mappings[i], endpoint, raws, k)))
    {
      var b := DecodeBinding(endpoint, raws[k]);
      if b.None? {
        return false;
      }
      var fine := CheckBinding(mappings, current, b.value, found);
      if !fine {
        return false;
      }
      AcceptedNext(mappings, current, endpoint, raws, k, b.value);
      ServesNext(mappings, endpoint, raws, k, b.value);
    }
    ok := true;
  }

  lemma AcceptedNext(mappings: seq<PortMap>, current: bool, endpoint: string, raws: seq<RawBinding>, k: nat,
                     b: PortMap)
    requires k < |raws| && DecodeBinding(endpoint, raws[k]) == Some(b) && BindingOk(mappings, current, b)
    requires AcceptedBefore(mappings, current, endpoint, raws, k)
    ensures AcceptedBefore(mappings, current, endpoint, raws, k + 1)
  {
  }

  lemma ServesNext(mappings: seq<PortMap>, endpoint: string, raws: seq<RawBinding>, k: nat, b: PortMap)
    requires k < |raws| && DecodeBinding(endpoint, raws[k]) == Some(b)
    ensures forall i :: 0 <= i < |mappings| ==>
                          (ServesBefore(mappings[i], endpoint, raws, k + 1) <==>
                           ServesBefore(mappings[i], endpoint, raws, k) || Serves(mappings[i], b))
  {
  }

  /** The bindings of one container, in whatever order its endpoints come. */
  method CheckOwner(mappings: seq<PortMap>, current: bool, bindings: Bindings, found: array<bool>) returns (ok: bool)
    requires found.Length == |mappings|
    modifies found
    ensures ok <==> OwnerAccepted(mappings, current, bindings)
    ensures ok ==> forall i :: 0 <= i < |mappings| ==>
                                 found[i] == (old(found[i]) || (current && OwnerServes(mappings[i], bindings)))
  {
    var rest := bindings.Keys;
    while rest != {}
      invariant rest <= bindings.Keys
      invariant forall endpoint :: endpoint in bindings && endpoint !in rest ==>
                                     EndpointAccepted(mappings, current, endpoint, bindings[endpoint])
      invariant forall i :: 0 <= i < |mappings| ==>
                              found[i] == (old(found[i]) || (current && ServedSoFar(mappings[i], bindings, rest)))
    {
      var endpoint :| endpoint in rest;
      var fine := CheckEndpoint(mappings, current, endpoint, bindings[endpoint], found);
      if !fine {
        return false;
      }
      forall i | 0 <= i < |mappings|
        ensures ServedSoFar(mappings[i], bindings, rest - {endpoint}) <==>
                ServedSoFar(mappings[i], bindings, rest) || EndpointServes(mappings[i], endpoint, bindings[endpoint])
      {
        ServedNext(mappings[i], bindings, rest, endpoint);
      }
      rest := rest - {endpoint};
    }
    ok := true;
  }

  ghost predicate ServedSoFar(mapping: PortMap, bindings: Bindings, rest: set<string>) {
    exists endpoint :: endpoint in bindings && endpoint !in rest &&
                       EndpointServes(mapping, endpoint, bindings[endpoint])
  }

  lemma ServedNext(mapping: PortMap, bindings: Bindings, rest: set<string>, endpoint: string)
    requires endpoint in rest && endpoint in bindings
    ensures ServedSoFar(mapping, bindings, rest - {endpoint}) <==>
            ServedSoFar(mapping, bindings, rest) || EndpointServes(mapping, endpoint, bindings[endpoint])
  {
  }

  /** The identities of the running containers: well-formed and without repetition. */
  method CheckOwners(owners: seq<string>) returns (ok: bool)
    ensures ok <==> (forall o :: 0 <= o < |owners| ==> IsContainerId(owners[o])) &&
                    (forall o, p :: 0 <= o < p < |owners| ==> owners[o] != owners[p])
  {
    var seen: set<string> := {};
    for o := 0 to |owners|
      invariant forall p :: 0 <= p < o ==> IsContainerId(owners[p])
      invariant forall p, q :: 0 <= p < q < o ==> owners[p] != owners[q]
      invariant forall id :: id in seen <==> id in owners[..o]
    {
      if !IsContainerId(owners[o]) || owners[o] in seen {
        return false;
      }
      seen := seen + {owners[o]};
    }
    ok := true;
  }

  ghost predicate ServedBefore(mapping: PortMap, owners: seq<string>, current: string, bindings: seq<Bindings>, n: nat)
    requires n <= |owners| == |bindings|
  {
    exists o :: 0 <= o < n && IsCurrent(owners[o], current) && OwnerServes(mapping, bindings[o])
  }

  lemma ServedByNext(mapping: PortMap, owners: seq<string>, current: string, bindings: seq<Bindings>, n: nat)
    requires n < |owners| == |bindings|
    ensures ServedBefore(mapping, owners, current, bindings, n + 1) <==>
            ServedBefore(mapping, owners, current, bindings, n) ||
            (IsCurrent(owners[n], current) && OwnerServes(mapping, bindings[n]))
  {
  }

  /**
   * `preflightDockerPublishedPortOwnership`, given the listed container identifiers and
   * the decoded bindings of each: it accepts exactly when the list is usable, no foreign
   * binding collides with a mapping, every binding of the managed container is some
   * mapping, and every mapping is bound by the managed container.
   */
  method PreflightOwnership(mappings: seq<PortMap>, owners: seq<string>, current: string, bindings: seq<Bindings>)
    returns (ok: bool)
    requires |owners| == |bindings|
    ensures ok <==> ListOk(owners, current) && OwnershipOk(mappings, owners, current, bindings)
  {
    if !IsContainerId(current) || |owners| == 0 || |owners| > 256 {
      return false;
    }
    var listed := CheckOwners(owners);
    if !listed {
      return false;
    }
    var found := new bool[|mappings|](_ => false);
    for o := 0 to |owners|
      invariant forall p :: 0 <= p < o ==> OwnerAccepted(mappings, IsCurrent(owners[p], current), bindings[p])
      invariant forall i :: 0 <= i < |mappings| ==> found[i] == ServedBefore(mappings[i], owners, current, bindings, o)
    {
      var fine := CheckOwner(mappings, IsCurrent(owners[o], current), bindings[o], found);
      if !fine {
        return false;
      }
      forall i | 0 <= i < |mappings| ensures found[i] == ServedBefore(mappings[i], owners, current, bindings, o + 1) {
        ServedByNext(mappings[i], owners, current, bindings, o);
      }
    }
    ok := AllFound(mappings, owners, current, bindings, found);
  }

  method AllFound(mappings: seq<PortMap>, owners: seq<string>, current: string, bindings: seq<Bindings>,
                  found: array<bool>)
    returns (ok: bool)
    requires |owners| == |bindings| && found.Length == |mappings|
    requires forall i :: 0 <= i < |mappings| ==>
                           found[i] == ServedBefore(mappings[i], owners, current, bindings, |owners|)
    ensures ok <==> forall i :: 0 <= i < |mappings| ==> ServedBefore(mappings[i], owners, current, bindings, |owners|)
  {
    for i := 0 to |mappings|
      invariant forall j :: 0 <= j < i ==> found[j]
    {
      if !found[i] {
        return false;
      }
    }
    ok := true;
  }
}
