/** The decision procedure of one `request` call, as a function of the
    context's settings, the request name, the expected code and the outside
    world. The network, the regular-expression filter and the schema
    validator are an oracle: the model fixes what is asked of them and how
    their answers are used, not what they answer. */
module Executor {
  import opened Options
  import opened Text
  import opened Catalog
  import opened Parameters
  import opened Verdicts
  import Statistics

  /** A `Location` header as `URI.parse` reads it. */
  datatype Location = Location(text: string, host: string, port: string, path: string)

  /** One HTTP request put on the wire: verb, host name and port it connects
      to, path, and the body sent with it (none for a GET). */
  datatype Call = Call(verb: string, hostName: Option<string>, port: Option<string>, path: string, body: Option<string>)

  /** The outside world of one `request` call.
      - `matches(filter, arg)`: `arg =~ /filter/`;
      - `send(call)`: the response `Net::HTTP` returns for `call`, if any;
      - `location(response)`: where a redirection response points;
      - `validate(body, schemaFile)`: whether `xmllint` accepts the body. */
  datatype Oracle = Oracle(
    matches: (string, string) -> bool,
    send: Call -> Option<Response>,
    location: Response -> Location,
    validate: (string, string) -> bool)

  /** How one `request` call ends: its outcome, the requests it put on the
      wire in order, and the response it returns (`nil` is `None`). */
  datatype Run = Run(outcome: Statistics.Outcome, calls: seq<Call>, response: Option<Response>)

  const NoHostMessage := "No host defined"
  const NoPutBodyMessage := "No body data defined for PUT"

  /** The host to connect to: the alias registered for `host`, or `host`. */
  function Aliased(host: string, aliases: map<string, string>): (target: string)
    ensures host in aliases ==> target == aliases[host]
    ensures host !in aliases ==> target == host
  {
    if host in aliases then aliases[host] else host
  }

  /** `host.split(":")[0]`. */
  function HostName(host: string): (name: Option<string>)
    ensures name.Some? ==> name.value == Fields(host, ':')[0]
    ensures name.None? <==> forall k :: 0 <= k < |Fields(host, ':')| ==> Fields(host, ':')[k] == []
  {
    var fields := Split(host, ':');
    if |fields| > 0 then
      assert fields[|fields| - 1] == Fields(host, ':')[|fields| - 1];
      Some(fields[0])
    else None
  }

  /** `host.split(":")[1]`: absent when every field after the first is
      empty, as `split` then drops them all. */
  function HostPort(host: string): (port: Option<string>)
    ensures port.Some? ==> |Fields(host, ':')| > 1 && port.value == Fields(host, ':')[1]
    ensures port.None? <==> forall k :: 1 <= k < |Fields(host, ':')| ==> Fields(host, ':')[k] == []
  {
    var fields := Split(host, ':');
    if |fields| > 1 then
      assert fields[|fields| - 1] == Fields(host, ':')[|fields| - 1];
      Some(fields[1])
    else None
  }

  /** `name:port` connects to `name` on `port`; a bare name has no port. */
  lemma HostNameAndPort(name: string, port: string)
    requires name != [] && ':' !in name && ':' !in port
    ensures HostName(name + ":" + port) == Some(name)
    ensures HostPort(name + ":" + port) == if port == [] then None else Some(port)
    ensures HostName(name) == Some(name) && HostPort(name) == None
  {
    assert Join([name, port], ':') == name + ":" + port;
    FieldsJoin([name, port], ':');
    FieldsJoin([name], ':');
  }

  /** Registering an alias redirects exactly that host name. */
  lemma AliasRedirectsOnlyItsHost(aliases: map<string, string>, original: string, replacement: string, host: string)
    ensures Aliased(original, aliases[original := replacement]) == replacement
    ensures host != original ==> Aliased(host, aliases[original := replacement]) == Aliased(host, aliases)
  {
  }

  /** The end of a call that reached the network: no response leaves the
      buckets alone; a response is judged. */
  function Respond(reply: Option<Response>, calls: seq<Call>, expected: Option<string>,
                   xml: Option<XmlResult>, validate: (string, string) -> bool): (run: Run)
    ensures run.calls == calls && run.response == reply
    ensures run.outcome.NoResponse? <==> reply.None?
  {
    match reply
    case None => Run(Statistics.NoResponse, calls, None)
    case Some(r) => Run(Judge(r, expected, xml, validate), calls, reply)
  }

  /** Every step of `request`: the filter, then the steps of `Lookup`. */
  function Decide(requests: seq<RequestDescriptor>, filter: Option<string>, aliases: map<string, string>,
                  args: map<string, string>, dataBody: Option<string>,
                  arg: string, expected: Option<string>, oracle: Oracle): (run: Run)
    ensures run.outcome.Skipped? <==> filter.Some? && !oracle.matches(filter.value, arg)
    ensures run.outcome.Skipped? ==> run.calls == [] && run.response.None?
  {
    if filter.Some? && !oracle.matches(filter.value, arg) then Run(Statistics.Skipped, [], None)
    else Lookup(requests, aliases, args, dataBody, arg, expected, oracle)
  }

  /** The lookup of `arg` in the catalog, then the steps of `Prepare`. */
  function Lookup(requests: seq<RequestDescriptor>, aliases: map<string, string>,
                  args: map<string, string>, dataBody: Option<string>,
                  arg: string, expected: Option<string>, oracle: Oracle): (run: Run)
    ensures !run.outcome.Skipped?
    ensures run.outcome.NotDefined? <==> Find(requests, arg).None?
  {
    match Find(requests, arg)
    case None => Run(Statistics.NotDefined, [], None)
    case Some(request) => Prepare(request, aliases, args, dataBody, expected, oracle)
  }

  /** The steps of `request` once the request is found: the host check,
      then the route to the aliased host. */
  function Prepare(request: RequestDescriptor, aliases: map<string, string>, args: map<string, string>,
                   dataBody: Option<string>, expected: Option<string>, oracle: Oracle): (run: Run)
    ensures !run.outcome.Skipped? && !run.outcome.NotDefined?
    ensures run.outcome == Statistics.Error(Some(NoHostMessage)) <==> request.host == []
  {
    if request.host == [] then Run(Statistics.Error(Some(NoHostMessage)), [], None)
    else Route(request, Aliased(request.host, aliases), args, dataBody, expected, oracle)
  }

  /** The substitution of the path parameters, then the dispatch to `host`. */
  function Route(request: RequestDescriptor, host: string, args: map<string, string>,
                 dataBody: Option<string>, expected: Option<string>, oracle: Oracle): (run: Run)
    ensures !run.outcome.Skipped? && !run.outcome.NotDefined?
    ensures run.outcome != Statistics.Error(Some(NoHostMessage))
    ensures run.outcome == Statistics.Error(None) <==> Substitute(request.path, request.parameters, args).MissingParameter?
  {
    match Substitute(request.path, request.parameters, args)
    case MissingParameter(_) => Run(Statistics.Error(None), [], None)
    case Substituted(path) => Dispatch(request, host, path, dataBody, expected, oracle)
  }

  /** The verbs the harness knows how to send. */
  predicate Supported(verb: string)
  {
    verb == "GET" || verb == "POST" || verb == "PUT"
  }

  /** The body a request with `verb` carries: none for a GET, an empty one
      for a POST, the context's data body for a PUT. */
  function BodyFor(verb: string, dataBody: Option<string>): Option<string>
  {
    if verb == "GET" then None else if verb == "POST" then Some("") else dataBody
  }

  /** What crossed the wire for one request: the calls in order and the
      response the last of them brought back. */
  datatype Exchange = Exchange(calls: seq<Call>, reply: Option<Response>)

  /** The network exchange of a sendable request to `host`: one call to the
      host's name and port, followed, for a GET answered with a redirection,
      by one GET to the redirect target. */
  function Transmit(verb: string, host: string, path: string, dataBody: Option<string>,
                    oracle: Oracle): (x: Exchange)
    requires Supported(verb) && (verb == "PUT" ==> dataBody.Some?)
    ensures 1 <= |x.calls| <= 2
    ensures x.calls[0] == Call(verb, HostName(host), HostPort(host), path, BodyFor(verb, dataBody))
    ensures x.reply == oracle.send(x.calls[|x.calls| - 1])
    ensures |x.calls| == 2 <==>
      verb == "GET" && oracle.send(x.calls[0]).Some? && IsRedirection(oracle.send(x.calls[0]).value.code)
    ensures |x.calls| == 2 ==>
      var target := oracle.location(oracle.send(x.calls[0]).value);
      x.calls[1] == Call("GET", Some(target.host), Some(target.port), target.path, None)
  {
    var first := Call(verb, HostName(host), HostPort(host), path, BodyFor(verb, dataBody));
    var reply := oracle.send(first);
    if verb == "GET" && reply.Some? && IsRedirection(reply.value.code) then
      var target := oracle.location(reply.value);
      var hop := Call("GET", Some(target.host), Some(target.port), target.path, None);
      Exchange([first, hop], oracle.send(hop))
    else Exchange([first], reply)
  }

  /** Dispatch on the verb of a request whose path is built and whose host
      (after aliasing) is `host`: an unknown verb is unsupported, a PUT
      without a data body is an error, anything else is transmitted and
      its response judged. */
  function Dispatch(request: RequestDescriptor, host: string, path: string, dataBody: Option<string>,
                    expected: Option<string>, oracle: Oracle): (run: Run)
    ensures run.outcome.Unsupported? || run.outcome == Statistics.Error(Some(NoPutBodyMessage)) ||
            run.outcome.Passed? || run.outcome.Failed? || run.outcome.NoResponse?
  {
    if !Supported(request.verb) then Run(Statistics.Unsupported, [], None)
    else if request.verb == "PUT" && dataBody.None? then Run(Statistics.Error(Some(NoPutBodyMessage)), [], None)
    else
      var x := Transmit(request.verb, host, path, dataBody, oracle);
      Respond(x.reply, x.calls, expected, request.xmlResult, oracle.validate)
  }
}
