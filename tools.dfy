/** Tools as the agents see them: a name and an `invoke` that may raise.
    Building a tool may fail, which the factories report as `None`. */
module Tools {
  import opened Wrappers

  /** A built tool; `invoke` returning `Err(text)` stands for the tool raising. */
  datatype ToolAdapter = ToolAdapter(name: string, invoke: string -> Result<string, string>)

  /** `[t for t in raw if t is not None]`. */
  function Built<T>(raw: seq<Option<T>>): (tools: seq<T>)
    ensures |tools| <= |raw|
    ensures forall k :: 0 <= k < |tools| ==> Some(tools[k]) in raw
    ensures forall i :: 0 <= i < |raw| && raw[i].Some? ==> raw[i].value in tools
    ensures tools == [] <==> forall i :: 0 <= i < |raw| ==> raw[i].None?
  {
    if raw == [] then []
    else
      var front := raw[..|raw| - 1];
      assert raw == front + [raw[|raw| - 1]];
      match raw[|raw| - 1]
      case Some(t) => Built(front) + [t]
      case None => Built(front)
  }

  /** The filter keeps the original order: filtering a concatenation is
      concatenating the filtered parts. */
  lemma {:induction false} BuiltConcat<T>(a: seq<Option<T>>, b: seq<Option<T>>)
    ensures Built(a + b) == Built(a) + Built(b)
    decreases |b|
  {
    if b == [] {
      assert a + b == a;
    } else {
      var b' := b[..|b| - 1];
      assert (a + b)[..|a + b| - 1] == a + b';
      assert (a + b)[|a + b| - 1] == b[|b| - 1];
      BuiltConcat(a, b');
    }
  }

  /** A built tool at position `i` of the raw list comes after the tools built
      before it: it sits at index `|Built(raw[..i])|` of the filtered list. */
  lemma BuiltPosition<T>(raw: seq<Option<T>>, i: nat)
    requires i < |raw| && raw[i].Some?
    ensures |Built(raw[..i])| < |Built(raw)|
    ensures Built(raw)[|Built(raw[..i])|] == raw[i].value
  {
    assert raw == raw[..i] + [raw[i]] + raw[i + 1..];
    BuiltConcat(raw[..i] + [raw[i]], raw[i + 1..]);
    BuiltConcat(raw[..i], [raw[i]]);
    assert [raw[i]][..0] == [];
  }
}
