/** The request catalog as the harness sees it. Descriptors are built before a
    run and never change; the harness only reads them. */
module Catalog {
  import opened Options

  /** The first `XmlResult` child of a request: the name of the expected
      document and the schema file named for it, if any. */
  datatype XmlResult = XmlResult(name: string, schema: Option<string>)

  /** A declared request. `id` is its `to_s`, the name a test script asks for;
      `parameters` are the names of its path parameters, in declaration order. */
  datatype RequestDescriptor = RequestDescriptor(
    id: string,
    verb: string,
    host: string,
    path: string,
    parameters: seq<string>,
    xmlResult: Option<XmlResult>)

  /** What the transport hands back: the status code as text, and the body. */
  datatype Response = Response(code: string, body: string)

  /** The first descriptor whose name is `arg`, as `Enumerable#find` returns it. */
  function Find(requests: seq<RequestDescriptor>, arg: string): (r: Option<RequestDescriptor>)
    ensures r.None? <==> forall i :: 0 <= i < |requests| ==> requests[i].id != arg
    ensures r.Some? ==> r.value.id == arg
    ensures r.Some? ==>
      exists i :: 0 <= i < |requests| && requests[i] == r.value &&
        forall j :: 0 <= j < i ==> requests[j].id != arg
  {
    if requests == [] then None
    else if requests[0].id == arg then Some(requests[0])
    else Find(requests[1..], arg)
  }

  /** The schema a response body is checked against: the one the result names,
      otherwise the result's name with the `.xsd` extension. */
  function SchemaFile(x: XmlResult): (file: string)
    ensures x.schema.Some? ==> file == x.schema.value
    ensures x.schema.None? ==> |file| == |x.name| + 4 && file[..|x.name|] == x.name && file[|x.name|..] == ".xsd"
  {
    if x.schema.Some? then x.schema.value else x.name + ".xsd"
  }
}
