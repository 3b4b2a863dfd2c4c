/**
 * The DTO flags: a PHP integer used as a bit set.
 *
 * Only the first six constants are declared in DtoFlags.php; NULLABLE,
 * NOT_NULLABLE and the three default-value flags are used by the library but
 * declared elsewhere, so they are given distinct bits of their own here.
 */
module DtoFlags {

  type Flags = bv16

  const NONE: Flags := 0
  const IGNORE_UNKNOWN_PROPERTIES: Flags := 1
  const MUTABLE: Flags := 2  // 1 << 1
  const PARTIAL: Flags := 4  // 1 << 2
  const CAST_PRIMITIVES: Flags := 8  // 1 << 3
  const CAMEL_CASE_ARRAY: Flags := 16  // 1 << 4

  const NULLABLE: Flags := 32  // 1 << 5
  const NOT_NULLABLE: Flags := 64  // 1 << 6
  const ARRAY_DEFAULT_TO_EMPTY_ARRAY: Flags := 128  // 1 << 7
  const BOOL_DEFAULT_TO_FALSE: Flags := 256  // 1 << 8
  const NULLABLE_DEFAULT_TO_NULL: Flags := 512  // 1 << 9

  /** PHP truthiness of `$flags & $flag`. */
  predicate IsSet(flags: Flags, flag: Flags)
  {
    flags & flag != 0
  }

  const DeclaredFlags: seq<Flags> :=
    [IGNORE_UNKNOWN_PROPERTIES, MUTABLE, PARTIAL, CAST_PRIMITIVES, CAMEL_CASE_ARRAY,
     NULLABLE, NOT_NULLABLE, ARRAY_DEFAULT_TO_EMPTY_ARRAY, BOOL_DEFAULT_TO_FALSE, NULLABLE_DEFAULT_TO_NULL]

  /** Every flag is one bit and no two flags share a bit, so flags combine with `|` without loss. */
  lemma FlagsAreDistinctBits()
    ensures forall i :: 0 <= i < |DeclaredFlags| ==> DeclaredFlags[i] != 0 && DeclaredFlags[i] & (DeclaredFlags[i] - 1) == 0
    ensures forall i, j :: 0 <= i < j < |DeclaredFlags| ==> DeclaredFlags[i] & DeclaredFlags[j] == 0
  {
  }
}

/**
 * Validation and merging of flags (DtoFlagsHandler.php): NULLABLE and
 * NOT_NULLABLE may not be combined, and the flags merged in win over the
 * initial ones when the two disagree on nullability.
 */
module DtoFlagsHandler {
  import opened Wrappers
  import opened DtoFlags

  const INCOMPATIBLE: Flags := NULLABLE | NOT_NULLABLE

  /** Fails exactly when both NULLABLE and NOT_NULLABLE are set. */
  function ValidateFlags(flags: Flags): (r: Option<Error>)
    ensures r.Some? <==> IsSet(flags, NULLABLE) && IsSet(flags, NOT_NULLABLE)
    ensures r.Some? ==> r.value == IncompatibleFlags(["NULLABLE", "NOT_NULLABLE"])
  {
    if flags & INCOMPATIBLE == INCOMPATIBLE then Some(IncompatibleFlags(["NULLABLE", "NOT_NULLABLE"])) else None
  }

  predicate Compatible(flags: Flags)
  {
    ValidateFlags(flags).None?
  }

  /** The overriding flags win a nullability conflict; every other flag of either side is kept. */
  function OverrideFlags(initial: Flags, overriding: Flags): (r: Flags)
    ensures r & overriding == overriding
  {
    var afterNullable := if IsSet(initial, NULLABLE) && IsSet(overriding, NOT_NULLABLE) then initial ^ NULLABLE else initial;
    var afterNotNullable :=
      if IsSet(afterNullable, NOT_NULLABLE) && IsSet(overriding, NULLABLE) then afterNullable ^ NOT_NULLABLE else afterNullable;
    afterNotNullable | overriding
  }

  /** Overriding introduces no flag that neither side had. */
  lemma OverrideAddsNothing(initial: Flags, overriding: Flags)
    ensures OverrideFlags(initial, overriding) & !(initial | overriding) == 0
  {
    assert NULLABLE == 32 && NOT_NULLABLE == 64;
  }

  /** Every initial flag other than NULLABLE and NOT_NULLABLE survives. */
  lemma OverrideKeepsOtherFlags(initial: Flags, overriding: Flags)
    ensures initial & !INCOMPATIBLE & !OverrideFlags(initial, overriding) == 0
  {
  }

  /** When the overriding flags speak about nullability, the initial nullability is discarded. */
  lemma OverridingNullabilityWins(initial: Flags, overriding: Flags)
    ensures IsSet(overriding, NOT_NULLABLE) ==> OverrideFlags(initial, overriding) & NULLABLE == overriding & NULLABLE
    ensures IsSet(overriding, NULLABLE) ==> OverrideFlags(initial, overriding) & NOT_NULLABLE == overriding & NOT_NULLABLE
  {
  }

  /** When they do not, the initial nullability is kept as it was. */
  lemma InitialNullabilityKept(initial: Flags, overriding: Flags)
    ensures !IsSet(overriding, INCOMPATIBLE) ==> OverrideFlags(initial, overriding) & INCOMPATIBLE == initial & INCOMPATIBLE
  {
  }

  /** Overriding twice with the same flags is overriding once. */
  lemma OverrideIdempotent(initial: Flags, overriding: Flags)
    ensures OverrideFlags(OverrideFlags(initial, overriding), overriding) == OverrideFlags(initial, overriding)
  {
  }

  /** `merge`: both operands are validated, the initial flags first, then overridden. */
  function Merge(initial: Flags, toMerge: Flags): (r: Result<Flags>)
    ensures r.Failure? <==> !Compatible(initial) || !Compatible(toMerge)
    ensures r.Failure? ==> r.error == IncompatibleFlags(["NULLABLE", "NOT_NULLABLE"])
    ensures r.Success? ==> r.value == OverrideFlags(initial, toMerge)
  {
    match ValidateFlags(initial)
    case Some(e) => Failure(e)
    case None =>
      match ValidateFlags(toMerge)
      case Some(e) => Failure(e)
      case None => Success(OverrideFlags(initial, toMerge))
  }

  /** A successful merge never yields both NULLABLE and NOT_NULLABLE. */
  lemma MergeIsCompatible(initial: Flags, toMerge: Flags)
    requires Merge(initial, toMerge).Success?
    ensures Compatible(Merge(initial, toMerge).value)
  {
    OverridingNullabilityWins(initial, toMerge);
    InitialNullabilityKept(initial, toMerge);
  }

  /** Merging in no flags, or merging into no flags, changes nothing. */
  lemma MergeNone(flags: Flags)
    requires Compatible(flags)
    ensures Merge(flags, NONE) == Success(flags)
    ensures Merge(NONE, flags) == Success(flags)
  {
    assert NULLABLE == 32 && NOT_NULLABLE == 64;
  }

  /** Merging a compatible set of flags into itself gives it back. */
  lemma MergeIdempotent(flags: Flags)
    requires Compatible(flags)
    ensures Merge(flags, flags) == Success(flags)
  {
  }

  /** Merging twice the same flags is the same as merging them once. */
  lemma MergeTwice(initial: Flags, toMerge: Flags)
    requires Merge(initial, toMerge).Success?
    ensures Merge(Merge(initial, toMerge).value, toMerge) == Merge(initial, toMerge)
  {
    MergeIsCompatible(initial, toMerge);
    OverrideIdempotent(initial, toMerge);
  }

  /** The examples of DtoFlagsHandlerTest. */
  lemma HandlerExamples()
    ensures ValidateFlags(NULLABLE | NOT_NULLABLE) == Some(IncompatibleFlags(["NULLABLE", "NOT_NULLABLE"]))
    ensures OverrideFlags(MUTABLE | NULLABLE, BOOL_DEFAULT_TO_FALSE | NOT_NULLABLE) == MUTABLE | BOOL_DEFAULT_TO_FALSE | NOT_NULLABLE
    ensures OverrideFlags(IGNORE_UNKNOWN_PROPERTIES | NOT_NULLABLE, PARTIAL | NULLABLE) == IGNORE_UNKNOWN_PROPERTIES | PARTIAL | NULLABLE
    ensures Merge(NULLABLE_DEFAULT_TO_NULL | NULLABLE, NOT_NULLABLE | NONE) == Success(NULLABLE_DEFAULT_TO_NULL | NOT_NULLABLE | NONE)
    ensures Merge(PARTIAL | MUTABLE, NULLABLE | NOT_NULLABLE).Failure?
  {
  }
}
