/** The attribute values of the Terraform plugin framework as the provider
    sees them (each one null, unknown or a known value), its diagnostics, and
    the shape of a call into the generated catalog client. */
module Framework {

  datatype Option<+T> = None | Some(value: T)

  /** `types.String`. */
  datatype TfString = StringNull | StringUnknown | StringValue(value: string)
  {
    predicate IsKnown() { StringValue? }
  }

  /** `types.Int64`. */
  datatype TfInt64 = Int64Null | Int64Unknown | Int64Value(value: int)

  /** `types.Bool`. */
  datatype TfBool = BoolNull | BoolUnknown | BoolValue(value: bool)

  /** An element of a `types.Map`: a `basetypes.StringValue`, or a value of
      another attribute type (named by its Go type, as `%T` prints it). */
  datatype Element = StringElement(str: TfString) | OtherElement(typeName: string)

  /** `types.Map`: null, unknown, or known with its elements. */
  datatype TfMap = MapNull | MapUnknown | MapValue(elements: map<string, Element>)

  /** `types.Set` of strings: null, unknown, or known with its elements in the
      order the framework stores them. */
  datatype TfSet = SetNull | SetUnknown | SetValue(elements: seq<string>)

  /** `ValueString()`: the value of a known string, `""` for null and unknown. */
  function ValueString(s: TfString): string
  {
    if s.StringValue? then s.value else ""
  }

  /** `ValueInt64()`: the value of a known integer, `0` for null and unknown. */
  function ValueInt64(i: TfInt64): int
  {
    if i.Int64Value? then i.value else 0
  }

  /** An error diagnostic: summary, detail, and the attribute it is attached
      to, if any. Every diagnostic this provider raises is an error, so a
      response "has an error" exactly when its list is non-empty. */
  datatype Diagnostic = Diagnostic(summary: string, detail: string, attribute: Option<string>)

  /** A failed call into the client, its error text in the detail. */
  function ClientError(detail: string): Diagnostic
  {
    Diagnostic("Client Error", detail, None)
  }

  /** Raised by a Read whose state holds no ID. */
  const ConfigurationError := Diagnostic("Configuration Error", "id is required for read operation", None)

  /** The outcome of one call into the generated client: the decoded payload,
      or the text of the returned `error`. */
  datatype Reply<+T> = Ok(payload: T) | Failed(message: string)

  /** `types.StringValue(v)` for every value of a `map[string]string`, as
      `types.MapValueFrom` builds it. */
  function StringMapValue(m: map<string, string>): (r: TfMap)
    ensures r.MapValue? && r.elements.Keys == m.Keys
    ensures forall k :: k in m ==> r.elements[k] == StringElement(StringValue(m[k]))
  {
    MapValue(map k | k in m :: StringElement(StringValue(m[k])))
  }

  /** `SetValue.ElementsAs(ctx, &[]string, false)`: a known set yields its
      elements, a null set a nil slice, and an unknown set cannot be
      converted into a `[]string` and yields a conversion error. */
  function ElementsAs(s: TfSet): (seq<string>, seq<Diagnostic>)
  {
    match s
    case SetValue(elements) => (elements, [])
    case SetNull => ([], [])
    case SetUnknown =>
      ([], [Diagnostic("Value Conversion Error",
                       "Received unknown value, however the target type cannot handle unknown values.",
                       None)])
  }

  /** Some string occurs more than once in `s`. */
  predicate Repeats(s: seq<string>)
  {
    exists x :: x in s && multiset(s)[x] > 1
  }

  /** Two positions holding one string make it repeat. */
  lemma PairRepeats(s: seq<string>, i: int, j: int)
    requires 0 <= i < j < |s| && s[i] == s[j]
    ensures Repeats(s)
  {
    assert s == s[..j] + s[j..];
    assert s[i] in s[..j] && s[j] in s[j..];
    assert multiset(s) == multiset(s[..j]) + multiset(s[j..]);
    assert multiset(s)[s[j]] > 1 && s[j] in s;
  }

  /** A repeated string sits at two different positions. */
  lemma RepeatPair(s: seq<string>) returns (i: int, j: int)
    requires Repeats(s)
    ensures 0 <= i < j < |s| && s[i] == s[j]
  {
    var x :| x in s && multiset(s)[x] > 1;
    var p :| 0 <= p < |s| && s[p] == x;
    var rest := s[..p] + s[p + 1..];
    assert s == s[..p] + [s[p]] + s[p + 1..];
    assert multiset(s) == multiset(rest) + multiset{x};
    assert x in multiset(rest);
    var k :| 0 <= k < |rest| && rest[k] == x;
    if k < p {
      i, j := k, p;
    } else {
      assert rest[k] == s[k + 1];
      i, j := p, k + 1;
    }
  }

  /** A string occurs more than once exactly when two different positions
      hold it. */
  lemma RepeatsAtTwoPositions(s: seq<string>)
    ensures Repeats(s) <==> exists i, j :: 0 <= i < j < |s| && s[i] == s[j]
  {
    if exists i, j :: 0 <= i < j < |s| && s[i] == s[j] {
      var i, j :| 0 <= i < j < |s| && s[i] == s[j];
      PairRepeats(s, i, j);
    }
    if Repeats(s) {
      var i, j := RepeatPair(s);
    }
  }

  /** Whether a string repeats does not depend on the order of the slice. */
  lemma RepeatsPermutation(a: seq<string>, b: seq<string>)
    requires multiset(a) == multiset(b)
    ensures Repeats(a) <==> Repeats(b)
  {
    forall x
      ensures x in a <==> x in b
    {
      assert x in a <==> x in multiset(a);
      assert x in b <==> x in multiset(b);
    }
  }

  /** The error the framework raises for a set value holding a repeated
      element. */
  const DuplicateSetElement := Diagnostic("Duplicate Set Element", "This attribute contains duplicate values", None)

  /** `types.SetValueFrom(ctx, types.StringType, slice)`: a known set of the
      slice's strings, unless a string repeats; then an unknown set and a
      duplicate-element error. */
  function SetValueFrom(s: seq<string>): (TfSet, seq<Diagnostic>)
  {
    if Repeats(s) then (SetUnknown, [DuplicateSetElement]) else (SetValue(s), [])
  }

  /** The tri-state pattern for optional text: `""` on the wire is null in
      state, anything else is that exact value. */
  function NullIfEmpty(s: string): TfString
  {
    if s != "" then StringValue(s) else StringNull
  }
}
