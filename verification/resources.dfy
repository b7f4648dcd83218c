/** The three objects `point` applies: a selector-less Service, the Endpoints
    object that gives it its one external address, and the Ingress that routes
    the subject to the Service. Only the fields `point` sets are modelled; a
    field `point` leaves nil is `None`. */
module Resources {
  import opened Results
  import opened GoStrconv

  const LinkLabel: string := "link"
  const IssuerAnnotation: string := "cert-manager.io/cluster-issuer"
  const TlsSuffix: string := "-tls"
  const DefaultPath: string := "/"

  datatype TypeMeta = TypeMeta(kind: string, apiVersion: string)

  datatype ObjectMeta = ObjectMeta(
    name: string,
    namespace: string,
    labels: Option<map<string, string>>,
    annotations: Option<map<string, string>>)

  datatype ServicePort = ServicePort(name: string, protocol: string, port: int32)

  datatype Service = Service(typeMeta: TypeMeta, meta: ObjectMeta, ports: seq<ServicePort>)

  datatype EndpointAddress = EndpointAddress(ip: string)

  datatype EndpointPort = EndpointPort(name: string, port: int32)

  datatype EndpointSubset = EndpointSubset(addresses: seq<EndpointAddress>, ports: seq<EndpointPort>)

  datatype Endpoints = Endpoints(typeMeta: TypeMeta, meta: ObjectMeta, subsets: seq<EndpointSubset>)

  datatype PathType = Exact | Prefix | ImplementationSpecific

  datatype ServiceBackend = ServiceBackend(serviceName: string, portNumber: int32)

  datatype IngressPath = IngressPath(path: string, pathType: PathType, backend: ServiceBackend)

  datatype IngressRule = IngressRule(host: string, paths: seq<IngressPath>)

  datatype IngressTls = IngressTls(hosts: seq<string>, secretName: string)

  datatype Ingress = Ingress(
    typeMeta: TypeMeta,
    meta: ObjectMeta,
    rules: seq<IngressRule>,
    tls: Option<seq<IngressTls>>)

  /** The three objects of one invocation. */
  datatype Graph = Graph(service: Service, endpoints: Endpoints, ingress: Ingress)

  /** The validated values the objects are built from: the raw subject, its
      sanitized name, the namespace, the two pieces of `--to`, the parsed
      port, `--tls-auto` and the chosen issuer (empty when none was chosen). */
  datatype Plan = Plan(
    subject: string,
    name: string,
    namespace: string,
    host: string,
    portName: string,
    port: int32,
    tlsAuto: bool,
    issuer: string)

  /** The TLS branch is taken only with `--tls-auto` and a non-empty issuer. */
  predicate TlsEnabled(p: Plan) {
    p.tlsAuto && p.issuer != ""
  }

  function BuildService(p: Plan): Service
  {
    Service(
      TypeMeta("Service", "v1"),
      ObjectMeta(p.name, p.namespace, Some(map[LinkLabel := p.name]), Some(map[])),
      [ServicePort(p.portName, "TCP", p.port)])
  }

  function BuildEndpoints(p: Plan): Endpoints
  {
    Endpoints(
      TypeMeta("Endpoints", "v1"),
      ObjectMeta(p.name, p.namespace, Some(map[LinkLabel := p.name]), Some(map[])),
      [EndpointSubset([EndpointAddress(p.host)], [EndpointPort(p.portName, p.port)])])
  }

  /** The TLS entry as the source writes it: the host list holds the secret
      name, `<subject>-tls`, rather than the subject. */
  function TlsEntryAsWritten(subject: string): (t: IngressTls)
    ensures |t.hosts| == 1 && t.hosts[0] == t.secretName
    ensures |t.secretName| == |subject| + |TlsSuffix|
    ensures t.secretName[..|subject|] == subject && t.secretName[|subject|..] == TlsSuffix
  {
    var sub := subject + TlsSuffix;
    IngressTls([sub], sub)
  }

  /** The TLS entry as evidently intended: the certificate covers the routed
      host, and is stored in the secret `<subject>-tls`. */
  function TlsEntry(subject: string): (t: IngressTls)
    ensures t.hosts == [subject]
    ensures |t.secretName| == |subject| + |TlsSuffix|
    ensures t.secretName[..|subject|] == subject && t.secretName[|subject|..] == TlsSuffix
  {
    IngressTls([subject], subject + TlsSuffix)
  }

  /** The as-written entry never covers the host the Ingress routes. */
  lemma TlsEntryAsWrittenMissesHost(subject: string)
    ensures subject !in TlsEntryAsWritten(subject).hosts
  {
  }

  /** The Ingress with a given TLS entry, used when the TLS branch is taken. */
  function BuildIngressWith(p: Plan, entry: IngressTls): Ingress
  {
    var backend := ServiceBackend(p.name, p.port);
    var rule := IngressRule(p.subject, [IngressPath(DefaultPath, Exact, backend)]);
    var meta := ObjectMeta(p.name, p.namespace, None,
      if TlsEnabled(p) then Some(map[IssuerAnnotation := p.issuer]) else None);
    Ingress(
      TypeMeta("Ingress", "networking.k8s.io/v1"),
      meta,
      [rule],
      if TlsEnabled(p) then Some([entry]) else None)
  }

  /** The Ingress as the source builds it, with the as-written TLS entry. */
  function BuildIngress(p: Plan): Ingress
  {
    BuildIngressWith(p, TlsEntryAsWritten(p.subject))
  }

  /** The cross references that make the three objects one route, stated
      without reference to the plan: one name and namespace for all three,
      the `link` label on the Service and the Endpoints, a single port whose
      name and number the Endpoints repeat, and an Ingress backend that names
      the Service and its port number. */
  predicate Linked(g: Graph) {
    var name := g.service.meta.name;
    var ns := g.service.meta.namespace;
    && g.endpoints.meta.name == name && g.ingress.meta.name == name
    && g.endpoints.meta.namespace == ns && g.ingress.meta.namespace == ns
    && g.service.meta.labels == Some(map[LinkLabel := name])
    && g.endpoints.meta.labels == Some(map[LinkLabel := name])
    && |g.service.ports| == 1
    && |g.endpoints.subsets| == 1
    && |g.endpoints.subsets[0].addresses| == 1
    && |g.endpoints.subsets[0].ports| == 1
    && g.endpoints.subsets[0].ports[0].name == g.service.ports[0].name
    && g.endpoints.subsets[0].ports[0].port == g.service.ports[0].port
    && |g.ingress.rules| == 1
    && |g.ingress.rules[0].paths| == 1
    && g.ingress.rules[0].paths[0].backend.serviceName == name
    && g.ingress.rules[0].paths[0].backend.portNumber == g.service.ports[0].port
  }

  /** Everything a graph must say about its plan, field by field. */
  predicate Realizes(g: Graph, p: Plan) {
    && Linked(g)
    && g.service.typeMeta == TypeMeta("Service", "v1")
    && g.endpoints.typeMeta == TypeMeta("Endpoints", "v1")
    && g.ingress.typeMeta == TypeMeta("Ingress", "networking.k8s.io/v1")
    && g.service.meta.name == p.name
    && g.service.meta.namespace == p.namespace
    && g.service.meta.annotations == Some(map[])
    && g.endpoints.meta.annotations == Some(map[])
    && g.ingress.meta.labels.None?
    && g.service.ports[0].name == p.portName
    && g.service.ports[0].protocol == "TCP"
    && g.service.ports[0].port == p.port
    && g.endpoints.subsets[0].addresses[0].ip == p.host
    && g.ingress.rules[0].host == p.subject
    && g.ingress.rules[0].paths[0].path == DefaultPath
    && g.ingress.rules[0].paths[0].pathType == Exact
    && (g.ingress.meta.annotations.Some? <==> TlsEnabled(p))
    && (g.ingress.tls.Some? <==> TlsEnabled(p))
    && (TlsEnabled(p) ==>
          && g.ingress.meta.annotations.value == map[IssuerAnnotation := p.issuer]
          && |g.ingress.tls.value| == 1
          && g.ingress.tls.value[0].hosts == [p.subject + TlsSuffix]
          && g.ingress.tls.value[0].secretName == p.subject + TlsSuffix)
  }

  /** `point`'s construction of the three objects. */
  function BuildGraph(p: Plan): (g: Graph)
    ensures Realizes(g, p)
  {
    Graph(BuildService(p), BuildEndpoints(p), BuildIngress(p))
  }

  /** `Realizes` leaves no freedom: the built graph is the only one that
      realizes a plan. */
  lemma RealizesDeterminesGraph(g: Graph, p: Plan)
    requires Realizes(g, p)
    ensures g == BuildGraph(p)
  {
    var b := BuildGraph(p);
    assert g.service.ports == b.service.ports;
    assert g.endpoints.subsets[0].addresses == b.endpoints.subsets[0].addresses;
    assert g.endpoints.subsets[0].ports == b.endpoints.subsets[0].ports;
    assert g.endpoints.subsets == b.endpoints.subsets;
    assert g.ingress.rules[0].paths == b.ingress.rules[0].paths;
    assert g.ingress.rules == b.ingress.rules;
    if TlsEnabled(p) {
      assert g.ingress.tls.value[0] == b.ingress.tls.value[0];
      assert g.ingress.tls.value == b.ingress.tls.value;
    }
  }

  /** As written, the certificate's host list never holds the host the
      Ingress routes. */
  lemma TlsMissesRoutedHost(p: Plan)
    requires TlsEnabled(p)
    ensures BuildGraph(p).ingress.rules[0].host !in BuildGraph(p).ingress.tls.value[0].hosts
  {
    TlsEntryAsWrittenMissesHost(p.subject);
  }

  /** The graph with the corrected TLS entry. It differs from `BuildGraph`
      in the Ingress's TLS list only. */
  function BuildGraphIntended(p: Plan): (g: Graph)
    ensures Linked(g)
    ensures g.service == BuildGraph(p).service && g.endpoints == BuildGraph(p).endpoints
    ensures g.ingress.(tls := None) == BuildGraph(p).ingress.(tls := None)
    ensures g.ingress.tls.Some? <==> TlsEnabled(p)
    ensures TlsEnabled(p) ==> g.ingress.tls.value == [IngressTls([p.subject], p.subject + TlsSuffix)]
  {
    Graph(BuildService(p), BuildEndpoints(p), BuildIngressWith(p, TlsEntry(p.subject)))
  }

  /** With the corrected entry, the certificate covers exactly the host the
      Ingress routes. */
  lemma TlsCoversRoutedHost(p: Plan)
    requires TlsEnabled(p)
    ensures BuildGraphIntended(p).ingress.tls.value[0].hosts == [BuildGraphIntended(p).ingress.rules[0].host]
  {
  }
}
