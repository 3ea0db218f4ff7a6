/** The test context of the REST API test harness: outcome counters, the
    buffer of narration lines, the host alias table and the `request`
    procedure that runs one catalog request and records its outcome. */
module RestTest {
  import opened Options
  import opened Text
  import opened Catalog
  import opened Parameters
  import opened Verdicts
  import Statistics
  import opened Executor

  /** `nil` interpolates as the empty string. */
  function Shown(s: Option<string>): string
  {
    if s.Some? then s.value else ""
  }

  /** How one `request` call leaves the narration buffer: an outcome
      counted in a bucket has printed or discarded it, so it is empty; an
      outcome without a bucket leaves its narration pending, after what was
      already there. */
  predicate Reported(o: Statistics.Outcome, before: string, after: string)
  {
    if o.Recorded() then after == "" else before <= after
  }

  /** What a `request` call adds to the record of outcomes: the outcome
      itself when an outcome method counted it, nothing otherwise. */
  function Logged(o: Statistics.Outcome): seq<Statistics.Outcome>
  {
    if o.Recorded() then [o] else []
  }

  /** Narration that extends the buffer, followed by a step that reports
      `o`, reports `o` over the whole span. */
  lemma ReportedChains(o: Statistics.Outcome, a: string, b: string, c: string)
    requires a <= b && Reported(o, b, c)
    ensures Reported(o, a, c)
  {
  }

  class TestContext {
    /** Settings a test script writes (`attr_writer`). */
    var showXmlbody: bool
    var requestFilter: Option<string>
    var showPassed: bool
    /** Variables a test script defines in the context: `@arg_<name>` for
        each path parameter, and `@data_body` for PUT requests. */
    var args: map<string, string>
    var dataBody: Option<string>

    const requests: seq<RequestDescriptor>
    var hostAliases: map<string, string>
    /** The narration of the current request, not yet printed. */
    var output: string
    /** Every request put on the wire, in order. */
    ghost var sent: seq<Call>
    /** Every outcome the outcome methods counted, in order, with the
        message of each error. */
    ghost var recorded: seq<Statistics.Outcome>

    var tested: nat
    var unsupported: nat
    var failed: nat
    var passed: nat
    var error: nat
    var skipped: nat

    function Tally(): Statistics.Tally
      reads this`tested, this`unsupported, this`failed, this`passed, this`error, this`skipped
    {
      Statistics.Tally(tested, unsupported, failed, passed, error, skipped)
    }

    /** What `request(arg, expected)` decides under the current settings. */
    function Plan(arg: string, expected: Option<string>, oracle: Oracle): Executor.Run
      reads this`requestFilter, this`hostAliases, this`args, this`dataBody
    {
      Decide(requests, requestFilter, hostAliases, args, dataBody, arg, expected, oracle)
    }

    constructor (requests: seq<RequestDescriptor>)
      ensures this.requests == requests
      ensures hostAliases == map[] && output == "" && sent == [] && recorded == []
      ensures Tally() == Statistics.Zero
      ensures !showXmlbody && requestFilter.None? && !showPassed
      ensures args == map[] && dataBody.None?
    {
      this.requests := requests;
      hostAliases := map[];
      output := "";
      sent := [];
      recorded := [];
      showXmlbody, requestFilter, showPassed := false, None, false;
      args, dataBody := map[], None;
      new;
      Start();
    }

    /** Resets the six counters. */
    method Start()
      modifies this`tested, this`unsupported, this`failed, this`passed, this`error, this`skipped
      ensures Tally() == Statistics.Zero
    {
      tested := 0;
      unsupported := 0;
      failed := 0;
      passed := 0;
      error := 0;
      skipped := 0;
    }

    method Out(line: string)
      modifies this`output
      ensures output == old(output) + line + "\n"
      ensures old(output) <= output
    {
      output := output + line + "\n";
    }

    method OutClear()
      modifies this`output
      ensures output == ""
    {
      output := "";
    }

    /** Prints the buffer (printing is not modelled) and empties it. */
    method OutFlush()
      modifies this`output
      ensures output == ""
    {
      OutClear();
    }

    method Unsupported()
      modifies this`unsupported, this`output, this`recorded
      ensures Tally() == old(Tally()).Bump(Statistics.Unsupported)
      ensures recorded == old(recorded) + [Statistics.Unsupported]
      ensures output == ""
    {
      Out("  UNSUPPORTED");
      unsupported := unsupported + 1;
      recorded := recorded + [Statistics.Unsupported];
      OutFlush();
    }

    method Failed()
      modifies this`failed, this`output, this`recorded
      ensures Tally() == old(Tally()).Bump(Statistics.Failed)
      ensures recorded == old(recorded) + [Statistics.Failed]
      ensures output == ""
    {
      Out("  FAILED");
      failed := failed + 1;
      recorded := recorded + [Statistics.Failed];
      OutFlush();
    }

    /** The narration of a passed request is printed only with `show_passed`. */
    method Passed()
      modifies this`passed, this`output, this`recorded
      ensures Tally() == old(Tally()).Bump(Statistics.Passed)
      ensures recorded == old(recorded) + [Statistics.Passed]
      ensures output == ""
    {
      Out("  PASSED");
      passed := passed + 1;
      recorded := recorded + [Statistics.Passed];
      if showPassed {
        OutFlush();
      } else {
        OutClear();
      }
    }

    method Skipped()
      modifies this`skipped, this`output, this`recorded
      ensures Tally() == old(Tally()).Bump(Statistics.Skipped)
      ensures recorded == old(recorded) + [Statistics.Skipped]
      ensures output == ""
    {
      skipped := skipped + 1;
      recorded := recorded + [Statistics.Skipped];
      OutFlush();
    }

    method Error(message: Option<string>)
      modifies this`error, this`output, this`recorded
      ensures Tally() == old(Tally()).Bump(Statistics.Error(message))
      ensures recorded == old(recorded) + [Statistics.Error(message)]
      ensures output == ""
    {
      var line := "  ERROR";
      if message.Some? {
        line := line + ": " + message.value;
      }
      Out(line);
      error := error + 1;
      recorded := recorded + [Statistics.Error(message)];
      OutFlush();
    }

    method AliasHost(original: string, replacement: string)
      modifies this`hostAliases
      ensures hostAliases == old(hostAliases)[original := replacement]
    {
      hostAliases := hostAliases[original := replacement];
    }

    /** Builds the concrete path of `request` from a copy of its template;
        the first unbound parameter is reported and no path is returned. */
    method SubstituteParameters(request: RequestDescriptor) returns (result: Substitution)
      modifies this`output
      ensures result == Substitute(request.path, request.parameters, args)
      ensures result.Substituted? ==> output == old(output)
      ensures result.MissingParameter? ==>
        output == old(output) + "  Can't substitute parameter '" + result.name + "'. "
                  + "No variable @arg_" + result.name + " defined.\n"
    {
      var path := request.path;
      var i := 0;
      while i < |request.parameters|
        invariant 0 <= i <= |request.parameters|
        invariant Substitute(path, request.parameters[i..], args) == Substitute(request.path, request.parameters, args)
        invariant output == old(output)
      {
        var p := request.parameters[i];
        if p !in args {
          Out("  Can't substitute parameter '" + p + "'. " + "No variable @arg_" + p + " defined.");
          return MissingParameter(p);
        }
        assert request.parameters[i..][1..] == request.parameters[i + 1..];
        path := ReplaceAll(path, Placeholder(p), args[p]);
        i := i + 1;
      }
      return Substituted(path);
    }

    /** Runs the catalog request named `arg`. `tested` grows by one, the
        outcome decided by `Plan` is counted in its bucket (if it has one),
        the calls it makes go on the wire, and the final response is
        returned. */
    method Request(arg: string, expected: Option<string>, oracle: Oracle) returns (response: Option<Response>)
      modifies this`tested, this`unsupported, this`failed, this`passed, this`error, this`skipped
      modifies this`output, this`sent, this`recorded
      ensures var run := Plan(arg, expected, oracle);
        && response == run.response
        && sent == old(sent) + run.calls
        && Tally() == old(Tally()).AfterRequest(run.outcome)
        && Reported(run.outcome, old(output), output)
        && recorded == old(recorded) + Logged(run.outcome)
    {
      tested := tested + 1;
      response := Screen(arg, expected, oracle);
    }

    /** The steps of `request` after the count of tested requests grew: the
        request filter, then the steps of `Fetch`. */
    method Screen(arg: string, expected: Option<string>, oracle: Oracle) returns (response: Option<Response>)
      modifies this`unsupported, this`failed, this`passed, this`error, this`skipped
      modifies this`output, this`sent, this`recorded
      ensures var run := Plan(arg, expected, oracle);
        && response == run.response
        && sent == old(sent) + run.calls
        && Tally() == old(Tally()).Bump(run.outcome)
        && Reported(run.outcome, old(output), output)
        && recorded == old(recorded) + Logged(run.outcome)
    {
      if requestFilter.Some? && !oracle.matches(requestFilter.value, arg) {
        Skipped();
        return None;
      }

      assert Plan(arg, expected, oracle) == Lookup(requests, hostAliases, args, dataBody, arg, expected, oracle);
      response := Fetch(arg, expected, oracle);
    }

    /** The steps of `request` once the filter lets `arg` through. */
    method Fetch(arg: string, expected: Option<string>, oracle: Oracle) returns (response: Option<Response>)
      modifies this`unsupported, this`failed, this`passed, this`error
      modifies this`output, this`sent, this`recorded
      ensures var run := Lookup(requests, hostAliases, args, dataBody, arg, expected, oracle);
        && response == run.response
        && sent == old(sent) + run.calls
        && Tally() == old(Tally()).Bump(run.outcome)
        && Reported(run.outcome, old(output), output)
        && recorded == old(recorded) + Logged(run.outcome)
    {
      Out("REQUEST: " + arg);

      var found := Find(requests, arg);
      if found.None? {
        // The "Request not defined" line goes to standard error.
        return None;
      }
      ghost var before := output;
      response := Execute(found.value, expected, oracle);
      ReportedChains(Prepare(found.value, hostAliases, args, dataBody, expected, oracle).outcome, old(output), before, output);
    }

    /** The steps of `request` once the request is found. */
    method Execute(request: RequestDescriptor, expected: Option<string>, oracle: Oracle)
      returns (response: Option<Response>)
      modifies this`unsupported, this`failed, this`passed, this`error
      modifies this`output, this`sent, this`recorded
      ensures var run := Prepare(request, hostAliases, args, dataBody, expected, oracle);
        && response == run.response
        && sent == old(sent) + run.calls
        && Tally() == old(Tally()).Bump(run.outcome)
        && Reported(run.outcome, old(output), output)
        && recorded == old(recorded) + Logged(run.outcome)
    {
      if request.xmlResult.Some? {
        Out("  XMLRESULT: " + request.xmlResult.value.name);
      }
      Out("  host: '" + request.host + "'");

      var host := request.host;
      if host == [] {
        Error(Some(NoHostMessage));
        return None;
      }
      if host in hostAliases {
        host := hostAliases[host];
      }
      Out("  aliased host: " + host);

      ghost var before := output;
      response := Locate(request, host, expected, oracle);
      ReportedChains(Route(request, host, args, dataBody, expected, oracle).outcome, old(output), before, output);
    }

    /** Builds the path of `request` and sends it to the aliased `host`. */
    method Locate(request: RequestDescriptor, host: string, expected: Option<string>, oracle: Oracle)
      returns (response: Option<Response>)
      modifies this`unsupported, this`failed, this`passed, this`error
      modifies this`output, this`sent, this`recorded
      ensures var run := Route(request, host, args, dataBody, expected, oracle);
        && response == run.response
        && sent == old(sent) + run.calls
        && Tally() == old(Tally()).Bump(run.outcome)
        && Reported(run.outcome, old(output), output)
        && recorded == old(recorded) + Logged(run.outcome)
    {
      var substitution := SubstituteParameters(request);
      if substitution.MissingParameter? {
        Error(None);
        return None;
      }
      var path := substitution.path;
      Out("  Path: " + path);

      ghost var before := output;
      response := Perform(request, host, path, expected, oracle);
      ReportedChains(Dispatch(request, host, path, dataBody, expected, oracle).outcome, old(output), before, output);
    }

    /** The dispatch on the verb and the handling of the response, for a
        request whose path is built and whose host is already aliased. */
    method Perform(request: RequestDescriptor, host: string, path: string, expected: Option<string>,
                   oracle: Oracle) returns (response: Option<Response>)
      modifies this`unsupported, this`failed, this`passed, this`error
      modifies this`output, this`sent, this`recorded
      ensures var run := Dispatch(request, host, path, dataBody, expected, oracle);
        && response == run.response
        && sent == old(sent) + run.calls
        && Tally() == old(Tally()).Bump(run.outcome)
        && Reported(run.outcome, old(output), output)
        && recorded == old(recorded) + Logged(run.outcome)
    {
      Out("  Host name: " + Shown(HostName(host)) + " port: " + Shown(HostPort(host)));

      if !Supported(request.verb) {
        // The "not supported yet" line goes to standard error.
        Unsupported();
        return None;
      }
      if request.verb == "PUT" && dataBody.None? {
        Error(Some(NoPutBodyMessage));
        return None;
      }
      ghost var before := output;
      response := Deliver(request, host, path, expected, oracle);
      ReportedChains(Dispatch(request, host, path, dataBody, expected, oracle).outcome, old(output), before, output);
    }

    /** Sends a sendable request and judges the response it brings back. */
    method Deliver(request: RequestDescriptor, host: string, path: string, expected: Option<string>,
                   oracle: Oracle) returns (response: Option<Response>)
      requires Supported(request.verb) && (request.verb == "PUT" ==> dataBody.Some?)
      modifies this`failed, this`passed, this`output, this`sent, this`recorded
      ensures var x := Transmit(request.verb, host, path, dataBody, oracle);
        var run := Respond(x.reply, x.calls, expected, request.xmlResult, oracle.validate);
        && response == run.response
        && sent == old(sent) + run.calls
        && Tally() == old(Tally()).Bump(run.outcome)
        && Reported(run.outcome, old(output), output)
        && recorded == old(recorded) + Logged(run.outcome)
    {
      response := Send(request.verb, host, path, oracle);
      ghost var before := output;
      Conclude(response, request.xmlResult, expected, oracle.validate);
      assert old(output) <= before;
    }

    /** Puts a sendable request on the wire, following one redirection of
        a GET, and returns the last response. */
    method Send(verb: string, host: string, path: string, oracle: Oracle) returns (response: Option<Response>)
      requires Supported(verb) && (verb == "PUT" ==> dataBody.Some?)
      modifies this`output, this`sent
      ensures var x := Transmit(verb, host, path, dataBody, oracle);
        response == x.reply && sent == old(sent) + x.calls
      ensures old(output) <= output
    {
      var call := Call(verb, HostName(host), HostPort(host), path, BodyFor(verb, dataBody));
      if verb == "PUT" {
        Out("  PUT");
      }
      sent := sent + [call];
      response := oracle.send(call);
      if verb == "GET" && response.Some? && IsRedirection(response.value.code) {
        var target := oracle.location(response.value);
        Out("  Redirected to " + target.text);
        call := Call("GET", Some(target.host), Some(target.port), target.path, None);
        sent := sent + [call];
        response := oracle.send(call);
      }
    }

    /** Judges a response that arrived and records the verdict; without a
        response nothing is recorded. */
    method Conclude(response: Option<Response>, xml: Option<XmlResult>, expected: Option<string>,
                    validate: (string, string) -> bool)
      modifies this`failed, this`passed, this`output, this`recorded
      ensures response.None? ==> Tally() == old(Tally()) && output == old(output) && recorded == old(recorded)
      ensures response.Some? ==>
        var o := Judge(response.value, expected, xml, validate);
        && Tally() == old(Tally()).Bump(o)
        && Reported(o, old(output), output)
        && recorded == old(recorded) + [o]
    {
      if response.Some? {
        var reply := response.value;
        Out("  return code: " + reply.code);
        if xml.Some? && showXmlbody {
          Out(reply.body);
        }
        if StatusAccepted(reply.code, expected) {
          if xml.Some? {
            var schemaFile := SchemaFile(xml.value);
            if validate(reply.body, schemaFile) {
              Out("  Response validates against schema '" + schemaFile + "'");
              Passed();
            } else {
              Failed();
            }
          } else {
            Passed();
          }
        } else {
          Failed();
        }
      }
    }
  }
}
