/** The formatter that turns a schema-validation error into the text of the
    `details` field of a 400 response. */
module Format {

  /** Returned for a missing error or one without issues. */
  const DefaultMessage := "Validation Failed"

  /** What `Array.prototype.join` is given between issue messages. */
  const Separator := ", "

  /** One issue reported by the schema validator. */
  datatype Issue = Issue(message: string)

  /** The `issues` property of an error object: falsy (absent, null, 0, ""),
      an array of issues, or some other truthy value that is not an array. */
  datatype Issues = Absent | IssueArray(items: seq<Issue>) | NonArray

  /** The argument of the formatter: a falsy value, or an error object. */
  datatype ValidationError = NullError | ErrorObject(issues: Issues)

  /** `issues.map(i => i.message)`. */
  function Messages(items: seq<Issue>): seq<string>
  {
    seq(|items|, i requires 0 <= i < |items| => items[i].message)
  }

  /** `parts.join(sep)`: the parts in order with `sep` between neighbours. */
  function Join(parts: seq<string>, sep: string): (r: string)
    ensures |parts| == 0 ==> r == ""
    ensures |parts| > 0 ==> parts[0] <= r
  {
    if |parts| == 0 then ""
    else if |parts| == 1 then parts[0]
    else parts[0] + sep + Join(parts[1..], sep)
  }

  /** The sum of the lengths of the parts. */
  function TotalLength(parts: seq<string>): nat
  {
    if |parts| == 0 then 0 else |parts[0]| + TotalLength(parts[1..])
  }

  /** Where part `k` begins in `Join(parts, sep)`: after the `k` earlier parts
      and the `k` separators that follow them. */
  function Start(parts: seq<string>, sep: string, k: nat): nat
    requires k <= |parts|
  {
    TotalLength(parts[..k]) + k * |sep|
  }

  lemma StartStep(parts: seq<string>, sep: string, k: nat)
    requires 0 < k <= |parts|
    ensures Start(parts, sep, k) == |parts[0]| + |sep| + Start(parts[1..], sep, k - 1)
  {
    assert parts[..k][1..] == parts[1..][..k - 1];
  }

  /** The joined text is as long as the parts together plus one separator
      between each pair of neighbours. */
  lemma {:induction false} JoinLength(parts: seq<string>, sep: string)
    requires |parts| > 0
    ensures |Join(parts, sep)| == TotalLength(parts) + (|parts| - 1) * |sep|
  {
    if |parts| > 1 {
      JoinLength(parts[1..], sep);
    }
  }

  /** Part `k` appears, unchanged, at its place in the joined text. */
  lemma {:induction false} JoinPlacesPart(parts: seq<string>, sep: string, k: nat)
    requires k < |parts|
    ensures Start(parts, sep, k) + |parts[k]| <= |Join(parts, sep)|
    ensures Join(parts, sep)[Start(parts, sep, k)..Start(parts, sep, k) + |parts[k]|] == parts[k]
  {
    var j := Join(parts, sep);
    if k == 0 {
      assert Start(parts, sep, 0) == 0 by { assert parts[..0] == []; }
      if |parts| > 1 {
        assert j == parts[0] + (sep + Join(parts[1..], sep));
      }
    } else {
      var rest := Join(parts[1..], sep);
      var s := Start(parts[1..], sep, k - 1);
      JoinPlacesPart(parts[1..], sep, k - 1);
      StartStep(parts, sep, k);
      var head := parts[0] + sep;
      assert j == head + rest;
      assert j[|head| + s..|head| + s + |parts[k]|] == rest[s..s + |parts[k]|];
    }
  }

  /** Between part `k - 1` and part `k` stands exactly one separator. */
  lemma {:induction false} JoinPlacesSeparator(parts: seq<string>, sep: string, k: nat)
    requires 0 < k < |parts|
    ensures |sep| <= Start(parts, sep, k) <= |Join(parts, sep)|
    ensures Join(parts, sep)[Start(parts, sep, k) - |sep|..Start(parts, sep, k)] == sep
  {
    var j := Join(parts, sep);
    var rest := Join(parts[1..], sep);
    var head := parts[0] + sep;
    assert j == head + rest;
    StartStep(parts, sep, k);
    if k == 1 {
      assert Start(parts[1..], sep, 0) == 0 by { assert parts[1..][..0] == []; }
    } else {
      JoinPlacesSeparator(parts[1..], sep, k - 1);
      var s := Start(parts[1..], sep, k - 1);
      assert j[|head| + s - |sep|..|head| + s] == rest[s - |sep|..s];
    }
  }

  /** The text of the `details` field for a validation error. A truthy
      `issues` that is not an array is serialised by `stringify`, which
      stands for `JSON.stringify`. */
  function FormatValidationError(error: ValidationError, stringify: ValidationError -> string): (s: string)
    ensures error.NullError? || error.issues.Absent? ==> s == DefaultMessage
    ensures error.ErrorObject? && error.issues.NonArray? ==> s == stringify(error)
    ensures error.ErrorObject? && error.issues.IssueArray? && error.issues.items == [] ==> s == ""
    ensures error.ErrorObject? && error.issues.IssueArray? && |error.issues.items| == 1
            ==> s == error.issues.items[0].message
  {
    match error
    case NullError => DefaultMessage
    case ErrorObject(Absent) => DefaultMessage
    case ErrorObject(IssueArray(items)) => Join(Messages(items), Separator)
    case ErrorObject(NonArray) => stringify(error)
  }

  /** For n >= 1 issues the text is as long as their messages together plus
      two characters for each of the n - 1 separators. */
  lemma FormatLength(error: ValidationError, stringify: ValidationError -> string)
    requires error.ErrorObject? && error.issues.IssueArray? && |error.issues.items| >= 1
    ensures |FormatValidationError(error, stringify)|
            == TotalLength(Messages(error.issues.items)) + 2 * (|error.issues.items| - 1)
  {
    JoinLength(Messages(error.issues.items), Separator);
  }

  /** The messages appear in the order of the issues: message `k` stands at
      its offset, preceded (for k > 0) by the separator ", ". */
  lemma FormatKeepsOrder(error: ValidationError, stringify: ValidationError -> string, k: nat)
    requires error.ErrorObject? && error.issues.IssueArray? && k < |error.issues.items|
    ensures var s := FormatValidationError(error, stringify);
            var at := Start(Messages(error.issues.items), Separator, k);
            var m := error.issues.items[k].message;
            && at + |m| <= |s|
            && s[at..at + |m|] == m
            && (k > 0 ==> 2 <= at && s[at - 2..at] == Separator)
  {
    var ms := Messages(error.issues.items);
    JoinPlacesPart(ms, Separator, k);
    if k > 0 {
      JoinPlacesSeparator(ms, Separator, k);
    }
  }
}
