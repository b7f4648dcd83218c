/** The `point` command's Run closure with its I/O taken out: validate the
    destination and the subject, parse the port, choose an issuer when TLS is
    wanted, build the three objects, and apply them one after another, stopping
    at the first failure. Loading the kubeconfig, listing issuers, prompting
    and talking to the API server are inputs: the namespace, the issuer lists,
    the prompt's answer and a predicate saying which objects the server accepts. */
module Point {
  import opened Results
  import opened GoStrconv
  import opened Sanitizer
  import opened Destination
  import opened Issuers
  import opened Resources

  /** What one invocation is given. */
  datatype Invocation = Invocation(
    subject: string,
    to: string,
    namespace: string,
    tlsAuto: bool,
    clusterIssuers: seq<string>,
    issuers: seq<string>,
    prompt: Prompt)

  /** An object handed to the API server's server-side apply. */
  datatype Resource =
    | ServiceResource(service: Service)
    | EndpointsResource(endpoints: Endpoints)
    | IngressResource(ingress: Ingress)

  /** Why the command stopped; each is a `log.Fatal` in the source. */
  datatype RunError =
    | BadDestination(dest: DestinationError)
    | BadSubject(subject: SanitizeError)
    | BadPort(port: NumError)
    | NoIssuer(issuer: IssuerError)
    | ApplyFailed(failed: Resource)

  /** The applies that were attempted, in order, and how the command ended. */
  datatype Report = Report(attempted: seq<Resource>, outcome: Result<Graph, RunError>)

  /** How far a sequence of fallible applies got: the number attempted, and
      whether all of them succeeded. */
  datatype Progress = Progress(attempted: nat, succeeded: bool)

  /** Apply `rs` in order until one is refused. Exactly the objects before the
      first refusal succeed; the refused one is the last attempted and nothing
      after it is tried. */
  function ApplyInOrder(rs: seq<Resource>, accepts: Resource -> bool): (pr: Progress)
    ensures pr.attempted <= |rs|
    ensures pr.succeeded ==> pr.attempted == |rs|
    ensures !pr.succeeded ==> pr.attempted > 0 && !accepts(rs[pr.attempted - 1])
    ensures forall i :: 0 <= i < pr.attempted - 1 ==> accepts(rs[i])
    ensures pr.succeeded ==> forall i :: 0 <= i < |rs| ==> accepts(rs[i])
  {
    if |rs| == 0 then Progress(0, true)
    else if !accepts(rs[0]) then Progress(1, false)
    else
      var rest := ApplyInOrder(rs[1..], accepts);
      Progress(rest.attempted + 1, rest.succeeded)
  }

  /** The objects in the order the command applies them. */
  function ApplyOrder(g: Graph): seq<Resource>
  {
    [ServiceResource(g.service), EndpointsResource(g.endpoints), IngressResource(g.ingress)]
  }

  /** Everything before the first apply. The checks run in the source's order:
      the split of `--to`, then the subject, then the port, then the issuer. */
  function Prepare(isFqdn: string -> bool, inv: Invocation): (r: Result<Plan, RunError>)
    requires AnswersWithin(inv.prompt, |inv.clusterIssuers| + |inv.issuers|)
    ensures r.Ok? <==>
      && SplitDestination(inv.to).Ok?
      && Sanitize(isFqdn, inv.subject).Ok?
      && ParsePort(SplitDestination(inv.to).value.portName).Ok?
      && (inv.tlsAuto ==> SelectIssuer(inv.clusterIssuers, inv.issuers, inv.prompt).Ok?)
    ensures SplitDestination(inv.to).Err? ==>
      r == Err(BadDestination(SplitDestination(inv.to).error))
    ensures SplitDestination(inv.to).Ok? && Sanitize(isFqdn, inv.subject).Err? ==>
      r == Err(BadSubject(Sanitize(isFqdn, inv.subject).error))
    ensures SplitDestination(inv.to).Ok? && Sanitize(isFqdn, inv.subject).Ok?
            && ParsePort(SplitDestination(inv.to).value.portName).Err? ==>
      r == Err(BadPort(ParsePort(SplitDestination(inv.to).value.portName).error))
    ensures SplitDestination(inv.to).Ok? && Sanitize(isFqdn, inv.subject).Ok?
            && ParsePort(SplitDestination(inv.to).value.portName).Ok?
            && inv.tlsAuto && SelectIssuer(inv.clusterIssuers, inv.issuers, inv.prompt).Err? ==>
      r == Err(NoIssuer(SelectIssuer(inv.clusterIssuers, inv.issuers, inv.prompt).error))
    ensures r.Ok? ==> r.value.subject == inv.subject && r.value.namespace == inv.namespace
    ensures r.Ok? ==> r.value.name == Sanitize(isFqdn, inv.subject).value
    ensures r.Ok? ==> r.value.host + ":" + r.value.portName == inv.to
    ensures r.Ok? ==> ParsePort(r.value.portName) == Ok(r.value.port)
    ensures r.Ok? ==> r.value.tlsAuto == inv.tlsAuto
    ensures r.Ok? && inv.tlsAuto ==> r.value.issuer == SelectIssuer(inv.clusterIssuers, inv.issuers, inv.prompt).value
    ensures r.Ok? && !inv.tlsAuto ==> r.value.issuer == ""
  {
    var split := SplitDestination(inv.to);
    if split.Err? then Err(BadDestination(split.error))
    else
      SplitDestinationRoundTrip(inv.to);
      var name := Sanitize(isFqdn, inv.subject);
      if name.Err? then Err(BadSubject(name.error))
      else
        var port := ParsePort(split.value.portName);
        if port.Err? then Err(BadPort(port.error))
        else
          var issuer := if inv.tlsAuto then SelectIssuer(inv.clusterIssuers, inv.issuers, inv.prompt) else Ok("");
          if issuer.Err? then Err(NoIssuer(issuer.error))
          else Ok(Plan(inv.subject, name.value, inv.namespace, split.value.host,
                       split.value.portName, port.value, inv.tlsAuto, issuer.value))
  }

  /** The success direction, built from the other side: a destination
      written as `host:port` with colon-free pieces, an accepted subject, a
      port `Atoi` reads and, with TLS on, a chosen candidate give exactly the
      plan made of those pieces. */
  lemma PrepareAcceptsWellFormed(isFqdn: string -> bool, inv: Invocation, host: string, portName: string)
    requires AnswersWithin(inv.prompt, |inv.clusterIssuers| + |inv.issuers|)
    requires ':' !in host && ':' !in portName && inv.to == host + ":" + portName
    requires isFqdn(inv.subject) && Atoi(portName).Ok?
    requires inv.tlsAuto ==> inv.prompt.Choose? && |inv.clusterIssuers| + |inv.issuers| > 0
    ensures Prepare(isFqdn, inv) == Ok(Plan(
      inv.subject, Sanitize(isFqdn, inv.subject).value, inv.namespace, host, portName,
      WrapInt32(Atoi(portName).value), inv.tlsAuto,
      if inv.tlsAuto then Candidates(inv.clusterIssuers, inv.issuers)[inv.prompt.index] else ""))
  {
    SplitDestinationOfJoin(host, portName);
  }

  /** What a fail-fast apply of `order` reports: a non-empty prefix of
      `order` was attempted, every attempt but the last was accepted, the run
      succeeded exactly when all three objects are accepted, a success
      attempted all three, and a failure
      names the last attempted object, which the server refused. */
  predicate FailFast(rep: Report, order: seq<Resource>, accepts: Resource -> bool)
    requires |order| == 3
  {
    && 0 < |rep.attempted| <= 3
    && rep.attempted == order[..|rep.attempted|]
    && (forall i :: 0 <= i < |rep.attempted| - 1 ==> accepts(rep.attempted[i]))
    && (rep.outcome.Ok? <==> forall i :: 0 <= i < 3 ==> accepts(order[i]))
    && (rep.outcome.Ok? ==> rep.attempted == order)
    && (rep.outcome.Err? ==> rep.outcome.error == ApplyFailed(rep.attempted[|rep.attempted| - 1]))
    && (rep.outcome.Err? ==> !accepts(rep.attempted[|rep.attempted| - 1]))
  }

  /** The apply phase for a validated plan: the Service, then the
      Endpoints, then the Ingress, stopping at the first refusal. */
  function Execute(p: Plan, accepts: Resource -> bool): (rep: Report)
    ensures FailFast(rep, ApplyOrder(BuildGraph(p)), accepts)
    ensures rep.outcome.Ok? ==> rep.outcome.value == BuildGraph(p)
  {
    var g := BuildGraph(p);
    var order := ApplyOrder(g);
    var pr := ApplyInOrder(order, accepts);
    Report(order[..pr.attempted],
      if pr.succeeded then Ok(g) else Err(ApplyFailed(order[pr.attempted - 1])))
  }

  /** One invocation of `point`: a failed check applies nothing; otherwise
      the objects of the prepared plan are applied fail-fast. */
  function Run(isFqdn: string -> bool, inv: Invocation, accepts: Resource -> bool): (rep: Report)
    requires AnswersWithin(inv.prompt, |inv.clusterIssuers| + |inv.issuers|)
    ensures Prepare(isFqdn, inv).Err? ==> rep == Report([], Err(Prepare(isFqdn, inv).error))
    ensures Prepare(isFqdn, inv).Ok? ==>
      FailFast(rep, ApplyOrder(BuildGraph(Prepare(isFqdn, inv).value)), accepts)
    ensures Prepare(isFqdn, inv).Ok? && rep.outcome.Ok? ==>
      rep.outcome.value == BuildGraph(Prepare(isFqdn, inv).value)
  {
    match Prepare(isFqdn, inv)
    case Err(e) => Report([], Err(e))
    case Ok(p) => Execute(p, accepts)
  }

  /** A run either succeeds with a graph whose objects agree with each other
      and with the invocation, or it fails. */
  lemma RunSuccess(isFqdn: string -> bool, inv: Invocation, accepts: Resource -> bool)
    requires AnswersWithin(inv.prompt, |inv.clusterIssuers| + |inv.issuers|)
    requires Run(isFqdn, inv, accepts).outcome.Ok?
    ensures var g := Run(isFqdn, inv, accepts).outcome.value;
      && Linked(g)
      && Realizes(g, Prepare(isFqdn, inv).value)
      && Run(isFqdn, inv, accepts).attempted == ApplyOrder(g)
      && g.ingress.rules[0].host == inv.subject
      && g.service.meta.namespace == inv.namespace
  {
  }

  /** TLS was asked for and no issuer exists: the run stops before anything
      is applied, whatever the server would have accepted. */
  lemma NoIssuerAppliesNothing(isFqdn: string -> bool, inv: Invocation, accepts: Resource -> bool)
    requires inv.tlsAuto && inv.clusterIssuers == [] && inv.issuers == []
    requires AnswersWithin(inv.prompt, 0)
    requires SplitDestination(inv.to).Ok? && isFqdn(inv.subject)
    requires ParsePort(SplitDestination(inv.to).value.portName).Ok?
    ensures Run(isFqdn, inv, accepts) == Report([], Err(NoIssuer(NoIssuerAvailable)))
  {
  }

  /** Without `--tls-auto` the issuer lists and the prompt are never looked
      at, and the Ingress carries neither the issuer annotation nor a TLS entry. */
  lemma TlsOffIgnoresIssuers(isFqdn: string -> bool, inv: Invocation, clusterIssuers: seq<string>,
                             issuers: seq<string>, prompt: Prompt, accepts: Resource -> bool)
    requires !inv.tlsAuto
    requires AnswersWithin(inv.prompt, |inv.clusterIssuers| + |inv.issuers|)
    requires AnswersWithin(prompt, |clusterIssuers| + |issuers|)
    ensures var other := inv.(clusterIssuers := clusterIssuers, issuers := issuers, prompt := prompt);
      Run(isFqdn, inv, accepts) == Run(isFqdn, other, accepts)
    ensures Run(isFqdn, inv, accepts).outcome.Ok? ==>
      && Run(isFqdn, inv, accepts).outcome.value.ingress.tls.None?
      && Run(isFqdn, inv, accepts).outcome.value.ingress.meta.annotations.None?
  {
  }

  /** A refused Service stops the run: the Endpoints and the Ingress are never sent. */
  lemma ServiceRefusalStopsRun(isFqdn: string -> bool, inv: Invocation, accepts: Resource -> bool)
    requires AnswersWithin(inv.prompt, |inv.clusterIssuers| + |inv.issuers|)
    requires Prepare(isFqdn, inv).Ok?
    requires !accepts(ServiceResource(BuildService(Prepare(isFqdn, inv).value)))
    ensures |Run(isFqdn, inv, accepts).attempted| == 1
    ensures Run(isFqdn, inv, accepts).attempted[0].ServiceResource?
    ensures Run(isFqdn, inv, accepts).outcome.Err?
  {
  }

  /** An empty port piece passes the split but not `Atoi`: the run stops
      with a syntax error before anything is applied. */
  lemma EmptyPortRejected(isFqdn: string -> bool, inv: Invocation, host: string, accepts: Resource -> bool)
    requires AnswersWithin(inv.prompt, |inv.clusterIssuers| + |inv.issuers|)
    requires isFqdn(inv.subject)
    requires ':' !in host && inv.to == host + ":"
    ensures Prepare(isFqdn, inv) == Err(BadPort(ErrSyntax))
    ensures Run(isFqdn, inv, accepts) == Report([], Err(BadPort(ErrSyntax)))
  {
    assert inv.to == host + ":" + "";
    SplitDestinationOfJoin(host, "");
  }

  lemma SplitExample(to: string)
    requires to == "10.0.0.5:3000"
    ensures SplitDestination(to) == Ok(Target("10.0.0.5", "3000"))
  {
    assert to == "10.0.0.5" + ":" + "3000";
    SplitDestinationOfJoin("10.0.0.5", "3000");
  }

  lemma ParseExample()
    ensures ParsePort("3000") == Ok(3000)
  {
    ParsePortFormat(3000);
    assert FormatInt(3000) == "3000";
  }

  /** `point valid.launch.us --to=10.0.0.5:3000 --tls-auto=false` in any
      namespace, with every apply accepted. */
  lemma EndToEndExample(isFqdn: string -> bool, inv: Invocation, accepts: Resource -> bool)
    requires inv.subject == "valid.launch.us" && inv.to == "10.0.0.5:3000" && !inv.tlsAuto
    requires AnswersWithin(inv.prompt, |inv.clusterIssuers| + |inv.issuers|)
    requires isFqdn("valid.launch.us")
    requires forall r :: accepts(r)
    ensures var rep := Run(isFqdn, inv, accepts);
      && rep.outcome.Ok?
      && |rep.attempted| == 3
      && rep.outcome.value.service.meta.name == "valid-launch-us"
      && rep.outcome.value.endpoints.meta.name == "valid-launch-us"
      && rep.outcome.value.ingress.meta.name == "valid-launch-us"
      && rep.outcome.value.endpoints.subsets[0].addresses[0].ip == "10.0.0.5"
      && rep.outcome.value.ingress.rules[0].host == "valid.launch.us"
      && rep.outcome.value.ingress.rules[0].paths[0].backend.portNumber == 3000
      && rep.outcome.value.ingress.tls.None?
  {
    SplitExample(inv.to);
    ParseExample();
    HyphenateValidLaunchUs();
    LabelValidLaunchUs();
    SanitizeKeepsLabel(isFqdn, "valid.launch.us", "valid-launch-us");
  }
}
