/** Two concrete runs of `request` on a one-entry catalog: a GET of
    `/items/<id>` on `api.example.com`, which the script aliases to
    `localhost:8080`. */
module Scenarios {
  import opened Options
  import opened Text
  import opened Catalog
  import opened Parameters
  import Statistics
  import opened Executor
  import Outcomes

  const Item := RequestDescriptor("item", "GET", "api.example.com", "/items/<id>", ["id"], None)
  const Aliases := map["api.example.com" := "localhost:8080"]
  const ItemCall := Call("GET", Some("localhost"), Some("8080"), "/items/42", None)

  /** The placeholder `<id>` starts nowhere in `/items/` and does not
      occur after it. */
  lemma ItemTemplate()
    ensures forall i :: 0 <= i < |"/items/"| ==> !OccursAt("/items/" + Placeholder("id") + "", Placeholder("id"), i)
    ensures !Occurs("", Placeholder("id"))
  {
  }

  /** Binding `id` to 42 turns the template into `/items/42`. */
  lemma ItemPath()
    ensures Substitute(Item.path, Item.parameters, map["id" := "42"]) == Substituted("/items/42")
  {
    var prefix, name, value := "/items/", "id", "42";
    assert prefix + Placeholder(name) + "" == Item.path;
    assert prefix + value + "" == "/items/42";
    ItemTemplate();
    SubstituteOnePlaceholder(prefix, "", name, value);
  }

  /** The alias target names host `localhost` and port 8080. */
  lemma AliasTarget()
    ensures HostName(Aliases["api.example.com"]) == Some("localhost")
    ensures HostPort(Aliases["api.example.com"]) == Some("8080")
  {
    var name, port := "localhost", "8080";
    assert name + ":" + port == Aliases["api.example.com"];
    assert ':' !in name by {
      forall i | 0 <= i < |name| ensures name[i] != ':' { }
    }
    HostNameAndPort(name, port);
  }

  /** With `id` bound to 42 and a server answering 200, the request passes
      after one GET of `/items/42` on port 8080 of `localhost`. */
  lemma ItemPasses(oracle: Oracle, body: string)
    requires oracle.send(ItemCall) == Some(Response("200", body))
    ensures var run := Decide([Item], None, Aliases, map["id" := "42"], None, "item", None, oracle);
      && run.outcome == Statistics.Passed
      && run.calls == [ItemCall]
      && run.response == Some(Response("200", body))
  {
    var args := map["id" := "42"];
    var host := Aliases["api.example.com"];
    var run := Dispatch(Item, host, "/items/42", None, None, oracle);
    assert run == Run(Statistics.Passed, [ItemCall], Some(Response("200", body))) by {
      AliasTarget();
      var x := Transmit("GET", host, "/items/42", None, oracle);
      assert x.calls[0] == ItemCall;
    }
    assert Decide([Item], None, Aliases, args, None, "item", None, oracle) == run by {
      ItemPath();
      assert Find([Item], "item") == Some(Item);
      Outcomes.DecideSteps([Item], None, Aliases, args, None, "item", None, oracle);
    }
  }

  /** Without a binding for `id` the request is an error that sends
      nothing. */
  lemma ItemWithoutBinding(oracle: Oracle)
    ensures var run := Decide([Item], None, Aliases, map[], None, "item", None, oracle);
      && run.outcome == Statistics.Error(None)
      && run.calls == []
  {
    assert Find([Item], "item") == Some(Item);
  }

  /** As the first request of a run, the passing one leaves `tested` and
      `passed` at one and the failing one `tested` and `error` at one. */
  lemma FirstRequestTally()
    ensures Statistics.Zero.AfterRequest(Statistics.Passed) == Statistics.Tally(1, 0, 0, 1, 0, 0)
    ensures Statistics.Zero.AfterRequest(Statistics.Error(None)) == Statistics.Tally(1, 0, 0, 0, 1, 0)
  {
  }
}
