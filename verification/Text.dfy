/** The order on strings that `<` and sorting by key rely on. */
module Text {

  predicate Lt(a: string, b: string) {
    b != [] && (a == [] || a[0] < b[0] || (a[0] == b[0] && Lt(a[1..], b[1..])))
  }

  lemma {:induction false} Irreflexive(a: string)
    ensures !Lt(a, a)
  {
    if a != [] { Irreflexive(a[1..]); }
  }

  lemma {:induction false} Transitive(a: string, b: string, c: string)
    requires Lt(a, b) && Lt(b, c)
    ensures Lt(a, c)
  {
    if a != [] && a[0] == b[0] == c[0] { Transitive(a[1..], b[1..], c[1..]); }
  }

  lemma {:induction false} Trichotomy(a: string, b: string)
    ensures a != b ==> Lt(a, b) || Lt(b, a)
    ensures !(Lt(a, b) && Lt(b, a))
  {
    if a != [] && b != [] && a[0] == b[0] {
      Trichotomy(a[1..], b[1..]);
      assert a == [a[0]] + a[1..] && b == [b[0]] + b[1..];
    }
  }

  /** `Lt` is a strict total order, in the quantified form a sort needs. */
  lemma Order()
    ensures forall a: string :: !Lt(a, a)
    ensures forall a, b, c {:trigger Lt(a, b), Lt(b, c)} :: Lt(a, b) && Lt(b, c) ==> Lt(a, c)
    ensures forall a, b {:trigger Lt(a, b)} :: Lt(a, b) ==> !Lt(b, a)
    ensures forall a, b {:trigger Lt(a, b)} :: !Lt(a, b) && a != b ==> Lt(b, a)
  {
    forall a: string ensures !Lt(a, a) { Irreflexive(a); }
    forall a, b, c | Lt(a, b) && Lt(b, c) ensures Lt(a, c) { Transitive(a, b, c); }
    forall a, b | Lt(a, b) ensures !Lt(b, a) { Trichotomy(a, b); }
    forall a, b | !Lt(a, b) && a != b ensures Lt(b, a) { Trichotomy(a, b); }
  }
}
