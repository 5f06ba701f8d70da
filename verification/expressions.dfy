/** Gatling Expression Language placeholders: `#{name}` in a template is
    replaced by the session attribute `name` when the request is built. */
module Expressions {

  const Open := "#{"
  const Close := "}"

  /** The placeholder text for a session expression. */
  function Placeholder(e: string): (r: string)
    ensures |r| == |e| + 3
    ensures r[..2] == Open && r[|r| - 1..] == Close
    ensures r[2..|r| - 1] == e
  {
    Open + e + Close
  }

  /** Different expressions give different placeholders. */
  lemma PlaceholderInjective(e1: string, e2: string)
    requires Placeholder(e1) == Placeholder(e2)
    ensures e1 == e2
  {
    assert Placeholder(e1)[2..|Placeholder(e1)| - 1] == e1;
  }
}
