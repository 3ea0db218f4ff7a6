/** Literal string operations the harness relies on: the replace-all that
    `String#gsub!` performs for one placeholder, and `String#split` on a
    one-character separator. Regular-expression semantics are not modelled:
    a pattern is matched as literal text. */
module Text {

  /** `pat` occurs in `s` starting at index `i`. */
  predicate OccursAt(s: string, pat: string, i: int)
  {
    0 <= i && i + |pat| <= |s| && s[i..i + |pat|] == pat
  }

  predicate Occurs(s: string, pat: string)
  {
    exists i :: 0 <= i <= |s| && OccursAt(s, pat, i)
  }

  /** Replaces every occurrence of `pat` in `s` by `rep`, scanning left to
      right; occurrences do not overlap and replaced text is not rescanned. */
  function ReplaceAll(s: string, pat: string, rep: string): (r: string)
    requires pat != []
    decreases |s|
    ensures |rep| == |pat| ==> |r| == |s|
    ensures rep == pat ==> r == s
  {
    if s == [] then []
    else if pat <= s then rep + ReplaceAll(s[|pat|..], pat, rep)
    else [s[0]] + ReplaceAll(s[1..], pat, rep)
  }

  lemma OccursInTail(s: string, pat: string, i: int)
    requires s != [] && OccursAt(s[1..], pat, i)
    ensures OccursAt(s, pat, i + 1)
  {
    assert s[1..][i..i + |pat|] == s[i + 1..i + 1 + |pat|];
  }

  /** A text without the pattern comes back unchanged. */
  lemma {:induction false} ReplaceAllAbsent(s: string, pat: string, rep: string)
    requires pat != []
    requires !Occurs(s, pat)
    ensures ReplaceAll(s, pat, rep) == s
  {
    if s != [] {
      assert pat <= s ==> OccursAt(s, pat, 0);
      forall i | OccursAt(s[1..], pat, i)
        ensures false
      {
        OccursInTail(s, pat, i);
      }
      ReplaceAllAbsent(s[1..], pat, rep);
    }
  }

  /** The leftmost occurrence is the first one replaced: when `pat` does not
      start anywhere inside `a`, the text `a + pat + b` becomes `a + rep`
      followed by the replacement of the rest. With ReplaceAllAbsent this
      determines ReplaceAll on every input. */
  lemma {:induction false} ReplaceAllLeftmost(a: string, b: string, pat: string, rep: string)
    requires pat != []
    requires forall i :: 0 <= i < |a| ==> !OccursAt(a + pat + b, pat, i)
    ensures ReplaceAll(a + pat + b, pat, rep) == a + rep + ReplaceAll(b, pat, rep)
  {
    var s := a + pat + b;
    if a == [] {
      assert s == pat + b;
      assert s[|pat|..] == b;
    } else {
      assert !OccursAt(s, pat, 0);
      assert s[0..|pat|] == s[..|pat|];
      assert s[1..] == a[1..] + pat + b;
      forall i | 0 <= i < |a[1..]|
        ensures !OccursAt(a[1..] + pat + b, pat, i)
      {
        if OccursAt(a[1..] + pat + b, pat, i) {
          OccursInTail(s, pat, i);
          assert false;
        }
      }
      ReplaceAllLeftmost(a[1..], b, pat, rep);
      assert !(pat <= s);
      assert ReplaceAll(s, pat, rep) == [s[0]] + ReplaceAll(a[1..] + pat + b, pat, rep);
      assert a == [a[0]] + a[1..];
      assert [a[0]] + (a[1..] + rep + ReplaceAll(b, pat, rep)) == a + rep + ReplaceAll(b, pat, rep);
    }
  }

  /** The fields of `s` between occurrences of `sep`, empty fields included. */
  function Fields(s: string, sep: char): (r: seq<string>)
    ensures |r| >= 1
    ensures forall k :: 0 <= k < |r| ==> sep !in r[k]
  {
    if s == [] then [[]]
    else
      var rest := Fields(s[1..], sep);
      if s[0] == sep then [[]] + rest
      else [[s[0]] + rest[0]] + rest[1..]
  }

  /** The fields put back together with the separator between them. */
  function Join(fields: seq<string>, sep: char): string
    requires |fields| >= 1
  {
    if |fields| == 1 then fields[0] else fields[0] + [sep] + Join(fields[1..], sep)
  }

  /** Splitting loses nothing: joining the fields gives back the text. */
  lemma {:induction false} JoinFields(s: string, sep: char)
    ensures Join(Fields(s, sep), sep) == s
  {
    if s != [] {
      var rest := Fields(s[1..], sep);
      JoinFields(s[1..], sep);
      if s[0] != sep {
        if |rest| > 1 {
          assert rest == [rest[0]] + rest[1..];
        }
      }
      assert s == [s[0]] + s[1..];
    }
  }

  lemma {:induction false} FieldsPrefix(f: string, t: string, sep: char)
    requires sep !in f
    ensures Fields(f + t, sep) == [f + Fields(t, sep)[0]] + Fields(t, sep)[1..]
  {
    if f != [] {
      assert (f + t)[1..] == f[1..] + t;
      FieldsPrefix(f[1..], t, sep);
      assert [f[0]] + (f[1..] + Fields(t, sep)[0]) == f + Fields(t, sep)[0];
    } else {
      var ft := Fields(t, sep);
      assert f + t == t && f + ft[0] == ft[0];
      assert ft == [ft[0]] + ft[1..];
    }
  }

  /** Joining fields free of the separator and splitting again gives back the
      same fields. */
  lemma {:induction false} FieldsJoin(fields: seq<string>, sep: char)
    requires |fields| >= 1
    requires forall k :: 0 <= k < |fields| ==> sep !in fields[k]
    ensures Fields(Join(fields, sep), sep) == fields
  {
    if |fields| == 1 {
      FieldsPrefix(fields[0], [], sep);
      assert fields[0] + [] == fields[0];
    } else {
      var t := Join(fields[1..], sep);
      FieldsJoin(fields[1..], sep);
      FieldsPrefix(fields[0], [sep] + t, sep);
      assert fields[0] + [sep] + t == fields[0] + ([sep] + t);
      assert ([sep] + t)[1..] == t;
      assert Fields([sep] + t, sep) == [[]] + Fields(t, sep);
      assert fields[0] + [] == fields[0];
      assert fields == [fields[0]] + fields[1..];
    }
  }

  /** Removes the empty fields at the end of `fields`, as `String#split` does. */
  function DropTrailingEmpty(fields: seq<string>): (r: seq<string>)
    ensures r <= fields
    ensures r == [] || r[|r| - 1] != []
    ensures forall k :: |r| <= k < |fields| ==> fields[k] == []
  {
    if fields == [] || fields[|fields| - 1] != [] then fields
    else DropTrailingEmpty(fields[..|fields| - 1])
  }

  /** `String#split` with a one-character separator. */
  function Split(s: string, sep: char): (r: seq<string>)
    ensures r <= Fields(s, sep)
    ensures forall k :: 0 <= k < |r| ==> sep !in r[k]
    ensures r == [] || r[|r| - 1] != []
    ensures forall k :: |r| <= k < |Fields(s, sep)| ==> Fields(s, sep)[k] == []
  {
    DropTrailingEmpty(Fields(s, sep))
  }
}
