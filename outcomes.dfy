/** What one `request` call can end in, characterised over every catalog,
    setting and answer of the outside world: each outcome arises in exactly
    one documented way, and the network is reached only by a sendable
    request. */
module Outcomes {
  import opened Options
  import opened Catalog
  import opened Parameters
  import opened Verdicts
  import Statistics
  import opened Executor

  /** The request filter lets `arg` through: no filter is set, or it matches. */
  predicate Admitted(filter: Option<string>, arg: string, oracle: Oracle)
  {
    filter.None? || oracle.matches(filter.value, arg)
  }

  /** The path `request` is sent to, when all its parameters are bound. */
  function PathOf(request: RequestDescriptor, args: map<string, string>): string
  {
    match Substitute(request.path, request.parameters, args)
    case Substituted(path) => path
    case MissingParameter(_) => request.path
  }

  /** A found request reaches the network: its host is set, its parameters
      are bound, its verb is supported and a PUT has a body to send. */
  predicate Sendable(request: RequestDescriptor, args: map<string, string>, dataBody: Option<string>)
  {
    && request.host != []
    && Substitute(request.path, request.parameters, args).Substituted?
    && Supported(request.verb)
    && (request.verb == "PUT" ==> dataBody.Some?)
  }

  /** `Decide` step by step: the run each early exit produces, and the
      dispatch a request with a built path reaches. */
  lemma DecideSteps(requests: seq<RequestDescriptor>, filter: Option<string>,
                    aliases: map<string, string>, args: map<string, string>,
                    dataBody: Option<string>, arg: string,
                    expected: Option<string>, oracle: Oracle)
    ensures var run := Decide(requests, filter, aliases, args, dataBody, arg, expected, oracle);
      var found := Find(requests, arg);
      && (!Admitted(filter, arg, oracle) ==> run == Run(Statistics.Skipped, [], None))
      && (Admitted(filter, arg, oracle) && found.None? ==> run == Run(Statistics.NotDefined, [], None))
      && (Admitted(filter, arg, oracle) && found.Some? && found.value.host == [] ==>
            run == Run(Statistics.Error(Some(NoHostMessage)), [], None))
      && (Admitted(filter, arg, oracle) && found.Some? && found.value.host != [] &&
          Substitute(found.value.path, found.value.parameters, args).MissingParameter? ==>
            run == Run(Statistics.Error(None), [], None))
      && (Admitted(filter, arg, oracle) && found.Some? && found.value.host != [] &&
          Substitute(found.value.path, found.value.parameters, args).Substituted? ==>
            run == Dispatch(found.value, Aliased(found.value.host, aliases),
                            Substitute(found.value.path, found.value.parameters, args).path,
                            dataBody, expected, oracle))
  {
    var run := Decide(requests, filter, aliases, args, dataBody, arg, expected, oracle);
    if Admitted(filter, arg, oracle) && Find(requests, arg).Some? {
      var request := Find(requests, arg).value;
      assert run == Prepare(request, aliases, args, dataBody, expected, oracle);
      if request.host != [] {
        assert run == Route(request, Aliased(request.host, aliases), args, dataBody, expected, oracle);
      }
    }
  }

  /** The outcomes that stop before the path is built, each with its only
      cause. */
  lemma {:induction false} EarlyOutcomes(requests: seq<RequestDescriptor>, filter: Option<string>,
                                         aliases: map<string, string>, args: map<string, string>,
                                         dataBody: Option<string>, arg: string,
                                         expected: Option<string>, oracle: Oracle)
    ensures var run := Decide(requests, filter, aliases, args, dataBody, arg, expected, oracle);
      var found := Find(requests, arg);
      && (run.outcome.Skipped? <==> !Admitted(filter, arg, oracle))
      && (run.outcome.NotDefined? <==> Admitted(filter, arg, oracle) && found.None?)
      && (run.outcome == Statistics.Error(Some(NoHostMessage)) <==>
            Admitted(filter, arg, oracle) && found.Some? && found.value.host == [])
      && (run.outcome == Statistics.Error(None) <==>
            Admitted(filter, arg, oracle) && found.Some? && found.value.host != [] &&
            Substitute(found.value.path, found.value.parameters, args).MissingParameter?)
  {
    DecideSteps(requests, filter, aliases, args, dataBody, arg, expected, oracle);
  }

  /** The outcomes of a request whose path is built but which cannot be
      sent, each with its only cause. */
  lemma {:induction false} UnsendableOutcomes(requests: seq<RequestDescriptor>, filter: Option<string>,
                                              aliases: map<string, string>, args: map<string, string>,
                                              dataBody: Option<string>, arg: string,
                                              expected: Option<string>, oracle: Oracle)
    ensures var run := Decide(requests, filter, aliases, args, dataBody, arg, expected, oracle);
      var found := Find(requests, arg);
      && (run.outcome == Statistics.Error(Some(NoPutBodyMessage)) <==>
            Admitted(filter, arg, oracle) && found.Some? && found.value.host != [] &&
            Substitute(found.value.path, found.value.parameters, args).Substituted? &&
            found.value.verb == "PUT" && dataBody.None?)
      && (run.outcome.Unsupported? <==>
            Admitted(filter, arg, oracle) && found.Some? && found.value.host != [] &&
            Substitute(found.value.path, found.value.parameters, args).Substituted? &&
            !Supported(found.value.verb))
  {
    DecideSteps(requests, filter, aliases, args, dataBody, arg, expected, oracle);
  }

  /** Only a sendable request puts anything on the wire, and then one call,
      or two for a redirected GET; a request that sends nothing returns no
      response. */
  lemma {:induction false} CallsOfRequest(requests: seq<RequestDescriptor>, filter: Option<string>,
                                          aliases: map<string, string>, args: map<string, string>,
                                          dataBody: Option<string>, arg: string,
                                          expected: Option<string>, oracle: Oracle)
    ensures var run := Decide(requests, filter, aliases, args, dataBody, arg, expected, oracle);
      var found := Find(requests, arg);
      && |run.calls| <= 2
      && (run.calls != [] <==>
            Admitted(filter, arg, oracle) && found.Some? && Sendable(found.value, args, dataBody))
      && (run.calls == [] ==> run.response.None? && !run.outcome.NoResponse?)
  {
    DecideSteps(requests, filter, aliases, args, dataBody, arg, expected, oracle);
  }

  /** The first call of a request that reaches the network goes to the name
      and port of the aliased host, with the substituted path and the body
      of its verb; the response returned is the one the last call brought
      back, and when there is none no bucket counts the request. */
  lemma {:induction false} FirstCall(requests: seq<RequestDescriptor>, filter: Option<string>,
                                     aliases: map<string, string>, args: map<string, string>,
                                     dataBody: Option<string>, arg: string,
                                     expected: Option<string>, oracle: Oracle)
    ensures var run := Decide(requests, filter, aliases, args, dataBody, arg, expected, oracle);
      run.calls != [] ==>
        var request := Find(requests, arg).value;
        var host := Aliased(request.host, aliases);
        && Find(requests, arg).Some?
        && run.calls[0] == Call(request.verb, HostName(host), HostPort(host), PathOf(request, args),
                                BodyFor(request.verb, dataBody))
        && run.response == oracle.send(run.calls[|run.calls| - 1])
        && (run.outcome.NoResponse? <==> run.response.None?)
  {
    DecideSteps(requests, filter, aliases, args, dataBody, arg, expected, oracle);
  }

  /** A request that got a response passes exactly when the status check
      and, for a request with an XML result, the schema check succeed;
      otherwise it fails. */
  lemma {:induction false} VerdictOfResponse(requests: seq<RequestDescriptor>, filter: Option<string>,
                                             aliases: map<string, string>, args: map<string, string>,
                                             dataBody: Option<string>, arg: string,
                                             expected: Option<string>, oracle: Oracle)
    ensures var run := Decide(requests, filter, aliases, args, dataBody, arg, expected, oracle);
      run.response.Some? ==>
        var r := run.response.value;
        var xml := Find(requests, arg).value.xmlResult;
        && Find(requests, arg).Some?
        && (run.outcome.Passed? || run.outcome.Failed?)
        && (run.outcome.Passed? <==>
              StatusAccepted(r.code, expected) && (xml.None? || oracle.validate(r.body, SchemaFile(xml.value))))
    ensures var run := Decide(requests, filter, aliases, args, dataBody, arg, expected, oracle);
      (run.outcome.Passed? || run.outcome.Failed?) ==> run.response.Some?
  {
    DecideSteps(requests, filter, aliases, args, dataBody, arg, expected, oracle);
  }

  /** A GET answered with a redirection whose target answers 2xx passes
      when the request has no XML result, whatever code was expected. */
  lemma RedirectThenSuccessPasses(request: RequestDescriptor, host: string, path: string,
                                  dataBody: Option<string>, expected: Option<string>, oracle: Oracle,
                                  first: Response, target: Response)
    requires request.verb == "GET" && request.xmlResult.None?
    requires oracle.send(Call("GET", HostName(host), HostPort(host), path, None)) == Some(first)
    requires IsRedirection(first.code)
    requires var l := oracle.location(first);
      oracle.send(Call("GET", Some(l.host), Some(l.port), l.path, None)) == Some(target)
    requires IsSuccess(target.code)
    ensures var run := Dispatch(request, host, path, dataBody, expected, oracle);
      run.outcome.Passed? && |run.calls| == 2 && run.response == Some(target)
  {
    var x := Transmit("GET", host, path, dataBody, oracle);
    assert |x.calls| == 2;
  }
}
