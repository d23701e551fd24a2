/** Numbers that several components share. */
module Numbers {
  /** JavaScript's `Number.MAX_SAFE_INTEGER`. */
  const MAX_SAFE_INTEGER := 9007199254740991

  /** No JavaScript array is longer. */
  const MAX_ARRAY_LENGTH := 4_294_967_295

  function Min(a: int, b: int): int { if a <= b then a else b }

  function Max(a: int, b: int): int { if a >= b then a else b }

  ghost predicate NonNegative(s: seq<int>) { forall i :: 0 <= i < |s| ==> s[i] >= 0 }
}
