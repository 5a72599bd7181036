/** The few JavaScript value semantics the delete menu relies on: `undefined`,
    truthiness of strings, template-literal interpolation, a property read
    that throws, and `Array.prototype.join`. */
module JsValues {

  /** `None` stands for JavaScript's `undefined` (or a missing property). */
  datatype Option<+T> = None | Some(value: T)

  /** The result of evaluating an expression: a value, or an exception
      (a property read on `undefined`, a `JSON.parse` of malformed text). */
  datatype Eval<+T> = Value(value: T) | Throws

  /** JavaScript truthiness of a string that may be `undefined`:
      `undefined` and `""` are falsy, every other string is truthy. */
  predicate Truthy(s: Option<string>)
  {
    s.Some? && s.value != ""
  }

  /** What `${s}` puts into a template literal. */
  function Interpolate(s: Option<string>): string
  {
    match s
    case Some(v) => v
    case None => "undefined"
  }

  /** The sum of the lengths of the strings in `xs`. */
  function TotalLength(xs: seq<string>): nat
  {
    if xs == [] then 0 else |xs[0]| + TotalLength(xs[1..])
  }

  /** `xs.join(sep)`: the elements in order, with `sep` between each
      neighbouring pair and nowhere else. */
  function Join(xs: seq<string>, sep: string): (r: string)
    ensures xs == [] ==> r == ""
    ensures |xs| == 1 ==> r == xs[0]
  {
    if xs == [] then ""
    else if |xs| == 1 then xs[0]
    else xs[0] + sep + Join(xs[1..], sep)
  }

  /** A join is as long as its elements together plus one separator
      between each neighbouring pair. */
  lemma {:induction false} JoinLength(xs: seq<string>, sep: string)
    requires xs != []
    ensures |Join(xs, sep)| == TotalLength(xs) + |sep| * (|xs| - 1)
  {
    if |xs| > 1 {
      JoinLength(xs[1..], sep);
      assert |sep| * (|xs| - 1) == |sep| + |sep| * (|xs[1..]| - 1);
    }
  }

  /** A join starts with its first element and ends with its last. */
  lemma {:induction false} JoinBoundaries(xs: seq<string>, sep: string)
    requires xs != []
    ensures |xs[0]| <= |Join(xs, sep)| && Join(xs, sep)[..|xs[0]|] == xs[0]
    ensures |xs[|xs| - 1]| <= |Join(xs, sep)|
    ensures Join(xs, sep)[|Join(xs, sep)| - |xs[|xs| - 1]|..] == xs[|xs| - 1]
  {
    if |xs| > 1 {
      var rest := Join(xs[1..], sep);
      var last := xs[|xs| - 1];
      JoinBoundaries(xs[1..], sep);
      assert xs[1..][|xs[1..]| - 1] == last;
      var r := xs[0] + sep + rest;
      assert Join(xs, sep) == r;
      assert r[|r| - |last|..] == rest[|rest| - |last|..];
    }
  }

  /** A join is empty exactly when there is nothing to join, or a single
      empty string: with two or more elements the separator shows. */
  lemma {:induction false} JoinIsEmptyIff(xs: seq<string>, sep: string)
    requires sep != ""
    ensures Join(xs, sep) == "" <==> (xs == [] || xs == [""])
  {
    if |xs| >= 2 {
      JoinLength(xs, sep);
      assert |sep| * (|xs| - 1) >= |sep|;
    } else if |xs| == 1 {
      assert xs == [xs[0]];
    }
  }
}
