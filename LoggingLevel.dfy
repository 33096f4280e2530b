/**
 * Severity levels (`Level`, an `Int`-backed enum). Comparison is by raw value;
 * `description` is the upper-cased case name.
 */
module Levels {
  import Text

  datatype Level = Trace | Debug | Info | Warning | Error

  /** The cases in declaration order; Swift numbers them 0, 1, 2, 3, 4 in this order. */
  const AllLevels: seq<Level> := [Trace, Debug, Info, Warning, Error]

  /** `rawValue`: the case's position in the declaration. */
  function RawValue(l: Level): (r: nat)
    ensures r < |AllLevels| && AllLevels[r] == l
  {
    match l
    case Trace => 0
    case Debug => 1
    case Info => 2
    case Warning => 3
    case Error => 4
  }

  /** The `==` operator of the source: equal raw values. */
  predicate Equal(l: Level, m: Level)
  {
    RawValue(l) == RawValue(m)
  }

  /** The `<` operator of the source: smaller raw value. */
  predicate Less(l: Level, m: Level)
  {
    RawValue(l) < RawValue(m)
  }

  /** `>=`, which `Comparable` derives from `<` as `!(l < m)`; the logger gates on it. */
  predicate AtLeast(l: Level, m: Level)
  {
    !Less(l, m)
  }

  /** Every level is one of the five declared cases. */
  lemma EveryLevelDeclared()
    ensures forall l: Level :: l in AllLevels
  {
    forall l: Level ensures l in AllLevels {
      assert AllLevels[RawValue(l)] == l;
    }
  }

  /** Raw values follow the declaration order and are distinct. */
  lemma RawValuesFollowDeclaration(i: nat)
    requires i < |AllLevels|
    ensures RawValue(AllLevels[i]) == i
  {
  }

  /** `==` is identity of cases. */
  lemma EqualIsIdentity(l: Level, m: Level)
    ensures Equal(l, m) <==> l == m
  {
  }

  /** `<` is the declaration order, so trace < debug < info < warning < error. */
  lemma LessIsDeclarationOrder(i: nat, j: nat)
    requires i < |AllLevels| && j < |AllLevels|
    ensures Less(AllLevels[i], AllLevels[j]) <==> i < j
  {
    RawValuesFollowDeclaration(i);
    RawValuesFollowDeclaration(j);
  }

  /** trace < debug < info < warning < error. */
  lemma AllLevelsAscending()
    ensures forall i, j :: 0 <= i < j < |AllLevels| ==> Less(AllLevels[i], AllLevels[j])
  {
    forall i, j | 0 <= i < j < |AllLevels| ensures Less(AllLevels[i], AllLevels[j]) {
      LessIsDeclarationOrder(i, j);
    }
  }

  /** `<` is a strict total order. */
  lemma LessIsStrictTotalOrder(l: Level, m: Level, n: Level)
    ensures !Less(l, l)
    ensures Less(l, m) && Less(m, n) ==> Less(l, n)
    ensures l != m ==> Less(l, m) || Less(m, l)
    ensures !(Less(l, m) && Less(m, l))
  {
    EqualIsIdentity(l, m);
  }

  /** The gate `level >= minLevel` holds exactly when the raw value is not smaller. */
  lemma AtLeastIsRawOrder(l: Level, m: Level)
    ensures AtLeast(l, m) <==> RawValue(l) >= RawValue(m)
    ensures AtLeast(l, m) <==> l == m || Less(m, l)
  {
    EqualIsIdentity(l, m);
  }

  /** `String(describing: level)`: the case name as declared. */
  function CaseName(l: Level): string
  {
    match l
    case Trace => "trace"
    case Debug => "debug"
    case Info => "info"
    case Warning => "warning"
    case Error => "error"
  }

  /** `description`: the upper-cased case name. */
  function Name(l: Level): string
  {
    Text.Upper(CaseName(l))
  }

  /** The five names as they appear in log lines. */
  lemma NameValues()
    ensures Name(Trace) == "TRACE" && Name(Debug) == "DEBUG" && Name(Info) == "INFO"
    ensures Name(Warning) == "WARNING" && Name(Error) == "ERROR"
  {
  }

  /** Distinct levels have distinct names. */
  lemma NameInjective(l: Level, m: Level)
    ensures Name(l) == Name(m) ==> l == m
  {
    NameValues();
  }
}
