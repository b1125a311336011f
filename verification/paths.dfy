/** Absolute paths, kept as their sequence of components so that "parent
    directory" and "every ancestor" (what `mkdir -p` creates) are structural. */
module Paths {

  /** `["Users", "ann"]` stands for `/Users/ann`; `[]` is the root `/`. */
  type Path = seq<string>

  /** The directory that contains `p`. */
  function Parent(p: Path): (q: Path)
    requires p != []
    ensures |q| + 1 == |p| && q <= p
  {
    p[..|p| - 1]
  }

  /** The text the shell sees: `/c1/c2/.../cn` (the root renders as the empty
      prefix, so that `Render(p) + "/x"` is the text of `p + ["x"]`). */
  function Render(p: Path): string
  {
    if p == [] then "" else Render(Parent(p)) + "/" + p[|p| - 1]
  }

  /** Every ancestor of `p`: the root, `p` itself and everything between. */
  function Ancestors(p: Path): (a: set<Path>)
    ensures forall q :: q in a <==> q <= p
  {
    var a := set i | 0 <= i <= |p| :: p[..i];
    assert forall q :: q <= p ==> q == p[..|q|];
    a
  }
}
