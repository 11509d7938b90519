/** Ports in listen addresses, and the gRPC address of a Headscale service. */
module Ports {
  import opened Wrappers
  import opened Decimal
  import Config

  const DEFAULT_GRPC_PORT := 50443

  /** `strings.Split`. */
  function Split(s: string, at: char): (parts: seq<string>)
    ensures parts != []
  {
    if s == [] then [[]]
    else
      var rest := Split(s[1..], at);
      if s[0] == at then [[]] + rest else [[s[0]] + rest[0]] + rest[1..]
  }

  function ExtractPort(addr: string, defaultPort: int): int {
    if addr == [] then defaultPort
    else
      var parts := Split(addr, ':');
      if |parts| < 2 then defaultPort
      else
        match ParseInt32(parts[|parts| - 1])
        case None => defaultPort
        case Some(port) => port
  }

  lemma {:induction false} SplitWithout(s: string, at: char)
    requires at !in s
    ensures Split(s, at) == [s]
  {
    if s != [] {
      SplitWithout(s[1..], at);
      assert [s[0]] + s[1..] == s;
    }
  }

  lemma {:induction false} SplitLast(front: string, at: char, segment: string)
    requires at !in segment
    ensures Split(front + [at] + segment, at) == Split(front, at) + [segment]
  {
    var s := front + [at] + segment;
    if front == [] {
      assert s[1..] == segment;
      SplitWithout(segment, at);
    } else {
      SplitLast(front[1..], at, segment);
      assert s[1..] == front[1..] + [at] + segment;
    }
  }

  /** The last segment decides: the port it spells, or the default when there is none or it is not a decimal in range. */
  lemma ExtractPortReadsLastSegment(host: string, segment: string, defaultPort: int)
    requires ':' !in segment
    ensures ExtractPort(segment, defaultPort) == defaultPort
    ensures ExtractPort(host + ":" + segment, defaultPort) ==
      if ParseInt32(segment).Some? then ParseInt32(segment).value else defaultPort
  {
    SplitWithout(segment, ':');
    SplitLast(host, ':', segment);
  }

  /** Every address either has no colon or ends in a last segment, so the lemma above covers all of them. */
  lemma {:induction false} EveryAddressIsCovered(addr: string) returns (host: string, segment: string)
    ensures ':' !in segment
    ensures addr == segment || addr == host + ":" + segment
    decreases |addr|
  {
    if addr == [] || addr[|addr| - 1] == ':' {
      host, segment := if addr == [] then [] else addr[..|addr| - 1], [];
    } else {
      var front, last := addr[..|addr| - 1], addr[|addr| - 1];
      host, segment := EveryAddressIsCovered(front);
      segment := segment + [last];
      assert addr == front + [last];
    }
  }

  predicate IsInt32(n: int) {
    -INT32_LIMIT <= n < INT32_LIMIT
  }

  /** Whatever the host, with or without colons, the printed port is found again. */
  lemma ExtractPortFindsPrintedPort(host: string, port: int, defaultPort: int)
    requires IsInt32(port)
    ensures ExtractPort(host + ":" + PrintInt(port), defaultPort) == port
  {
    ParseIntUndoesPrint(port);
    NoColonInPrint(port);
    ExtractPortReadsLastSegment(host, PrintInt(port), defaultPort);
  }

  lemma NoColonInPrint(port: int)
    ensures ':' !in PrintInt(port)
  {
    PrintedDigits(if port < 0 then -port else port);
  }

  /** Ports stay within 32 bits when the default does. */
  lemma ExtractedPortIsInt32(addr: string, defaultPort: int)
    requires IsInt32(defaultPort)
    ensures IsInt32(ExtractPort(addr, defaultPort))
  {
  }

  /** `getGRPCServiceAddress`: where the operator reaches the Headscale of this name, namespace and config. */
  function GRPCServiceAddress(name: string, namespace: string, config: Config.Raw): string {
    name + "." + namespace + ".svc:" + PrintInt(ListenPort(config))
  }

  function ListenPort(config: Config.Raw): int {
    ExtractPort(Config.ParseConfigView(config).grpcListenAddr, DEFAULT_GRPC_PORT)
  }

  /** The address leads to the port the config listens on, for every name and namespace. */
  lemma AddressLeadsToListenPort(name: string, namespace: string, config: Config.Raw, defaultPort: int)
    ensures ExtractPort(GRPCServiceAddress(name, namespace, config), defaultPort) == ListenPort(config)
  {
    var host, port := name + "." + namespace + ".svc", ListenPort(config);
    ExtractedPortIsInt32(Config.ParseConfigView(config).grpcListenAddr, DEFAULT_GRPC_PORT);
    ExtractPortFindsPrintedPort(host, port, defaultPort);
    assert name + "." + namespace + ".svc:" == host + ":";
  }

  /** That is the port in the gRPC address, and 50443 if it has none or spells none. */
  lemma ListensWhereTheConfigSays(config: Config.Raw, host: string, segment: string)
    requires ':' !in segment
    ensures Config.ParseConfigView(config).grpcListenAddr == segment ==> ListenPort(config) == 50443
    ensures Config.ParseConfigView(config).grpcListenAddr == host + ":" + segment ==>
      ListenPort(config) == if ParseInt32(segment).Some? then ParseInt32(segment).value else 50443
  {
    ExtractPortReadsLastSegment(host, segment, DEFAULT_GRPC_PORT);
  }

  /** What stands before the last colon. */
  function HostOf(addr: string): string {
    if addr == [] then []
    else
      var front, last := addr[..|addr| - 1], addr[|addr| - 1];
      if last == ':' then front else HostOf(front)
  }

  lemma {:induction false} HostBefore(host: string, segment: string)
    requires ':' !in segment
    ensures HostOf(host + ":" + segment) == host
    decreases |segment|
  {
    var addr := host + ":" + segment;
    if segment == [] {
      assert addr[..|addr| - 1] == host;
    } else {
      HostBefore(host, segment[..|segment| - 1]);
      assert addr[..|addr| - 1] == host + ":" + segment[..|segment| - 1];
    }
  }

  function Host(name: string, namespace: string): string {
    name + "." + namespace + ".svc"
  }

  lemma HostOfAddress(name: string, namespace: string, config: Config.Raw)
    ensures HostOf(GRPCServiceAddress(name, namespace, config)) == Host(name, namespace)
  {
    var host, port := name + "." + namespace + ".svc", ListenPort(config);
    NoColonInPrint(port);
    HostBefore(host, PrintInt(port));
    assert name + "." + namespace + ".svc:" == host + ":";
  }

  lemma SplitHost(name: string, namespace: string)
    requires '.' !in namespace
    ensures Split(Host(name, namespace), '.') == Split(name, '.') + [namespace] + ["svc"]
  {
    var front := name + ['.'] + namespace;
    assert Host(name, namespace) == front + ['.'] + "svc";
    SplitLast(front, '.', "svc");
    SplitLast(name, '.', namespace);
  }

  lemma HostTellsNames(name: string, other: string, namespace: string)
    requires Host(name, namespace) == Host(other, namespace)
    ensures name == other
  {
    var host := Host(name, namespace);
    assert |host| == |name| + |namespace| + 5 == |other| + |namespace| + 5;
    assert name == host[..|name|];
    assert other == host[..|name|];
  }

  /** The host in the address names the service: between its dots are the name, the namespace, and "svc". */
  lemma AddressNamesTheService(name: string, namespace: string, config: Config.Raw)
    requires '.' !in namespace
    ensures Split(HostOf(GRPCServiceAddress(name, namespace, config)), '.') == Split(name, '.') + [namespace] + ["svc"]
    ensures '.' !in name ==> Split(name, '.') == [name]
  {
    hide Split, HostOf, GRPCServiceAddress;
    HostOfAddress(name, namespace, config);
    SplitHost(name, namespace);
    if '.' !in name {
      SplitWithout(name, '.');
    }
  }

  lemma SameEnds(front: seq<string>, other: seq<string>, last: string, end: string)
    requires front + [last] + ["svc"] == other + [end] + ["svc"]
    ensures last == end
  {
    var all := front + [last] + ["svc"];
    assert all[|all| - 2] == last;
    assert (other + [end] + ["svc"])[|all| - 2] == end;
  }

  /** Two services with the same address have the same name, namespace and port; namespaces have no dots. */
  lemma AddressesTellServicesApart(name: string, namespace: string, config: Config.Raw,
                                   other: string, place: string, settings: Config.Raw)
    requires '.' !in namespace && '.' !in place
    requires GRPCServiceAddress(name, namespace, config) == GRPCServiceAddress(other, place, settings)
    ensures name == other && namespace == place && ListenPort(config) == ListenPort(settings)
  {
    hide Split, HostOf, GRPCServiceAddress, ExtractPort, ListenPort, Host;
    AddressLeadsToListenPort(name, namespace, config, 0);
    AddressLeadsToListenPort(other, place, settings, 0);
    AddressNamesTheService(name, namespace, config);
    AddressNamesTheService(other, place, settings);
    SameEnds(Split(name, '.'), Split(other, '.'), namespace, place);
    HostOfAddress(name, namespace, config);
    HostOfAddress(other, place, settings);
    HostTellsNames(name, other, namespace);
  }

  /**
   Rendering does not move the port, so the operator and the Headscale it configures agree on it, unless some
   spelling of the gRPC address that comes after the field's own name says otherwise.
   */
  lemma RenderedConfigListensThere(config: Config.Raw, doc: Config.Document)
    requires Config.RenderConfig(config, Config.ParseConfigView(config)) == Ok(doc)
    requires Config.KeepsWiring(Config.EntriesOf(config), Config.GRPC_LISTEN_ADDR, Config.DEFAULT_GRPC_LISTEN_ADDR)
    ensures ListenPort(Config.Doc(Config.Encode(doc))) == ListenPort(config)
  {
    Config.WiringIsReadExactly(config, doc);
  }
}
