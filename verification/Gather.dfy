/** Concatenating what each element of a list yields. */
module Gather {
  function Gather<A, B>(f: A -> seq<B>, xs: seq<A>): seq<B> {
    if xs == [] then [] else Gather(f, xs[..|xs| - 1]) + f(xs[|xs| - 1])
  }

  lemma One<A, B>(f: A -> seq<B>, x: A)
    ensures Gather(f, [x]) == f(x)
  {
    assert [x][..0] == [];
    assert Gather(f, [x][..0]) == [];
  }

  lemma Snoc<A, B>(f: A -> seq<B>, xs: seq<A>, x: A)
    ensures Gather(f, xs + [x]) == Gather(f, xs) + f(x)
  {
    assert (xs + [x])[..|xs|] == xs;
  }

  lemma {:induction false} Append<A, B>(f: A -> seq<B>, a: seq<A>, b: seq<A>)
    ensures Gather(f, a + b) == Gather(f, a) + Gather(f, b)
  {
    if b == [] {
      assert a + b == a;
    } else {
      var c, last := b[..|b| - 1], b[|b| - 1];
      Append(f, a, c);
      Snoc(f, a + c, last);
      assert a + b == (a + c) + [last];
      assert Gather(f, a) + (Gather(f, c) + f(last)) == (Gather(f, a) + Gather(f, c)) + f(last);
    }
  }
}
