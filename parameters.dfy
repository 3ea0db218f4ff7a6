/** Substitution of path parameters: every `<name>` placeholder of a path
    template is replaced by the value bound to `name`. The bindings stand for
    the `@arg_<name>` variables a test script defines. */
module Parameters {
  import opened Text

  /** The result of substituting: the concrete path, or the first declared
      parameter that has no bound value (the `ParameterError` case). */
  datatype Substitution = Substituted(path: string) | MissingParameter(name: string)

  /** The placeholder text standing for parameter `name` in a path template. */
  function Placeholder(name: string): (p: string)
    ensures |p| == |name| + 2 && p[0] == '<' && p[|p| - 1] == '>'
    ensures p[1..|p| - 1] == name
  {
    "<" + name + ">"
  }

  /** Each declared parameter in turn replaces all of its placeholders in the
      path built so far; the first parameter without a binding ends the
      substitution and no path is produced. */
  function Substitute(path: string, parameters: seq<string>, args: map<string, string>): (r: Substitution)
    decreases parameters
    ensures r.MissingParameter? ==> r.name in parameters && r.name !in args
    ensures r.Substituted? ==> forall i :: 0 <= i < |parameters| ==> parameters[i] in args
  {
    if parameters == [] then Substituted(path)
    else if parameters[0] !in args then MissingParameter(parameters[0])
    else Substitute(ReplaceAll(path, Placeholder(parameters[0]), args[parameters[0]]), parameters[1..], args)
  }

  /** Substitution fails exactly when some declared parameter is unbound, and
      then it names the first unbound one. */
  lemma {:induction false} SubstituteFailsOnFirstUnbound(path: string, parameters: seq<string>, args: map<string, string>)
    decreases parameters
    ensures Substitute(path, parameters, args).MissingParameter? <==>
      exists i :: 0 <= i < |parameters| && parameters[i] !in args
    ensures Substitute(path, parameters, args).MissingParameter? ==>
      exists k :: 0 <= k < |parameters| && parameters[k] == Substitute(path, parameters, args).name &&
        parameters[k] !in args && forall j :: 0 <= j < k ==> parameters[j] in args
  {
    if parameters != [] && parameters[0] in args {
      var next := ReplaceAll(path, Placeholder(parameters[0]), args[parameters[0]]);
      SubstituteFailsOnFirstUnbound(next, parameters[1..], args);
      var r := Substitute(next, parameters[1..], args);
      if r.MissingParameter? {
        var k :| 0 <= k < |parameters[1..]| && parameters[1..][k] == r.name &&
          parameters[1..][k] !in args && forall j :: 0 <= j < k ==> parameters[1..][j] in args;
        assert parameters[k + 1] == r.name;
        assert forall j :: 0 <= j < k + 1 ==> parameters[j] in args by {
          forall j | 0 <= j < k + 1 ensures parameters[j] in args {
            if j > 0 { assert parameters[j] == parameters[1..][j - 1]; }
          }
        }
      } else {
        forall i | 0 <= i < |parameters| ensures parameters[i] in args {
          if i > 0 { assert parameters[i] == parameters[1..][i - 1]; }
        }
      }
    }
  }

  /** A path with no placeholder of any declared parameter comes back
      unchanged once every parameter is bound. */
  lemma {:induction false} SubstituteWithoutPlaceholders(path: string, parameters: seq<string>, args: map<string, string>)
    decreases parameters
    requires forall i :: 0 <= i < |parameters| ==> parameters[i] in args
    requires forall i :: 0 <= i < |parameters| ==> !Occurs(path, Placeholder(parameters[i]))
    ensures Substitute(path, parameters, args) == Substituted(path)
  {
    if parameters != [] {
      ReplaceAllAbsent(path, Placeholder(parameters[0]), args[parameters[0]]);
      SubstituteWithoutPlaceholders(path, parameters[1..], args);
    }
  }

  /** A parameter whose placeholder occurs once, with no other parameter
      declared, is replaced in place by its value. */
  lemma {:induction false} SubstituteOnePlaceholder(prefix: string, suffix: string, name: string, value: string)
    requires forall i :: 0 <= i < |prefix| ==> !OccursAt(prefix + Placeholder(name) + suffix, Placeholder(name), i)
    requires !Occurs(suffix, Placeholder(name))
    ensures Substitute(prefix + Placeholder(name) + suffix, [name], map[name := value]) == Substituted(prefix + value + suffix)
  {
    ReplaceAllLeftmost(prefix, suffix, Placeholder(name), value);
    ReplaceAllAbsent(suffix, Placeholder(name), value);
    var after := ReplaceAll(prefix + Placeholder(name) + suffix, Placeholder(name), value);
    assert Substitute(prefix + Placeholder(name) + suffix, [name], map[name := value])
        == Substitute(after, [], map[name := value]);
  }
}
