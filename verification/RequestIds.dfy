/** Request-id equality of the two backends, and why each may be used to group redelivered requests. */
module RequestIds {
  import opened Wrappers
  import opened JsonValue
  import Decimal

  datatype Backend = Dsh | Codex

  /** dsh ids are exact strings; Codex also lets an integer match its decimal text. */
  predicate SameRequestId(b: Backend, expected: Value, actual: Value) {
    match b
    case Dsh => expected.Str? && expected == actual
    case Codex => CodexSame(expected, actual)
  }

  predicate CodexSame(expected: Value, actual: Value) {
    expected == actual
    || match (expected.AsI64(), actual.AsStr())
       case (Some(n), Some(s)) => s == Decimal.Print(n)
       case _ =>
         match (actual.AsI64(), expected.AsStr())
         case (Some(n), Some(s)) => s == Decimal.Print(n)
         case _ => false
  }

  /** Ids the reader of this backend lets through: dsh refuses a frame whose id is not a string. */
  predicate WireId(b: Backend, id: Value) {
    b.Dsh? ==> id.Str?
  }

  /** On wire ids `SameRequestId` is an equivalence; for Codex this rests on injective printing. */
  lemma SameIsEquivalence(b: Backend, x: Value, y: Value, z: Value)
    requires WireId(b, x) && WireId(b, y) && WireId(b, z)
    ensures SameRequestId(b, x, x)
    ensures SameRequestId(b, x, y) == SameRequestId(b, y, x)
    ensures SameRequestId(b, x, y) && SameRequestId(b, y, z) ==> SameRequestId(b, x, z)
  {
    if b.Codex? && CodexSame(x, y) && CodexSame(y, z) && x.Int? && z.Int? && y.Str? {
      Decimal.PrintInjective(x.n, z.n);
    }
  }

  /** Off the wire dsh equality is reflexive on strings only, so the restriction above is exact. */
  lemma DshReflexiveExactly(x: Value)
    ensures SameRequestId(Dsh, x, x) <==> WireId(Dsh, x)
  {
  }

  /** The text an id is matched by: a string itself, a 64-bit integer in decimal. */
  function IdText(id: Value): Option<string> {
    match id
    case Str(s) => Some(s)
    case Int(n) =>
      if -0x8000_0000_0000_0000 <= n <= 0x7FFF_FFFF_FFFF_FFFF then Some(Decimal.Print(n)) else None
    case _ => None
  }

  /** Codex ids are the same exactly when they are equal or have the same text; dsh ids when they are equal strings. */
  lemma SameExactly(b: Backend, x: Value, y: Value)
    ensures SameRequestId(b, x, y) <==>
      match b
      case Dsh => x.Str? && y.Str? && x.s == y.s
      case Codex => x == y || (IdText(x).Some? && IdText(x) == IdText(y))
  {
    if x.Int? && y.Int? && Decimal.Print(x.n) == Decimal.Print(y.n) {
      Decimal.PrintInjective(x.n, y.n);
    }
  }

  /** An integer is not even the same dsh id as itself. */
  lemma IntegerIdDiffers()
    ensures !SameRequestId(Dsh, Int(7), Int(7)) && SameRequestId(Codex, Int(7), Str("7"))
  {
    assert Decimal.Print(7) == "7";
  }
}
