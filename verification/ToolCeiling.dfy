/**
 IntersectTools of internal/agent/reuse.go: the allow-list a resumed run gets.  An
 empty list means that no tool is excluded.
 */
module ToolCeiling {
  const NO_TOOLS := "__no_tools__"

  function Both(ceiling: seq<string>, requested: seq<string>): seq<string> {
    if requested == [] then []
    else
      var n := |requested| - 1;
      Both(ceiling, requested[..n]) + (if requested[n] in ceiling then [requested[n]] else [])
  }

  function Intersect(ceiling: seq<string>, requested: seq<string>): seq<string> {
    if ceiling == [] then requested
    else if requested == [] then ceiling
    else if Both(ceiling, requested) == [] then [NO_TOOLS]
    else Both(ceiling, requested)
  }

  predicate Allows(tools: seq<string>, t: string) {
    tools == [] || t in tools
  }

  /** Nothing but the placeholder name is allowed by a that b does not allow. */
  ghost predicate Narrower(a: seq<string>, b: seq<string>) {
    forall t :: t != NO_TOOLS && Allows(a, t) ==> Allows(b, t)
  }

  lemma BothMeans(ceiling: seq<string>, requested: seq<string>, t: string)
    ensures t in Both(ceiling, requested) <==> t in ceiling && t in requested
  {
    if requested != [] {
      var n := |requested| - 1;
      BothMeans(ceiling, requested[..n], t);
      assert requested == requested[..n] + [requested[n]];
    }
  }

  /** A tool is allowed exactly when both lists allow it: a disjoint request is not
      turned into "everything", and an empty one keeps the ceiling. */
  lemma IntersectMeans(ceiling: seq<string>, requested: seq<string>, t: string)
    requires t != NO_TOOLS
    ensures Allows(Intersect(ceiling, requested), t) <==> Allows(ceiling, t) && Allows(requested, t)
  {
    BothMeans(ceiling, requested, t);
  }

  method IntersectTools(ceiling: seq<string>, requested: seq<string>) returns (out: seq<string>)
    ensures out == Intersect(ceiling, requested)
  {
    if |ceiling| == 0 {
      return requested;
    }
    if |requested| == 0 {
      return ceiling;
    }
    var allowed: set<string> := {};
    for i := 0 to |ceiling|
      invariant forall t :: t in allowed <==> t in ceiling[..i]
    {
      assert ceiling[..i + 1] == ceiling[..i] + [ceiling[i]];
      allowed := allowed + {ceiling[i]};
    }
    assert ceiling[..|ceiling|] == ceiling;
    out := [];
    for i := 0 to |requested|
      invariant out == Both(ceiling, requested[..i])
    {
      assert requested[..i + 1][..i] == requested[..i];
      if requested[i] in allowed {
        out := out + [requested[i]];
      }
    }
    assert requested[..|requested|] == requested;
    if |out| == 0 {
      return [NO_TOOLS];
    }
  }
}
