/** Severity levels of `Logger::LogLevel`, the thresholds compared with them, and the tag table `logLevelStr`. */
module Levels {

  /** `kTrace = 0` up to `kFatal = 5`; `kNumberOfLogLevels` is their count, not a level a record can carry. */
  datatype LogLevel = Trace | Debug | Info | Warn | Error | Fatal

  const NumberOfLogLevels: nat := 6

  /** The enumerators in declaration order. */
  const Declared: seq<LogLevel> := [Trace, Debug, Info, Warn, Error, Fatal]

  /** The enumerator's numeric value: its position in the declaration. */
  function Rank(l: LogLevel): (r: nat)
    ensures r < NumberOfLogLevels == |Declared|
    ensures Declared[r] == l
  {
    match l
    case Trace => 0
    case Debug => 1
    case Info => 2
    case Warn => 3
    case Error => 4
    case Fatal => 5
  }

  function FromRank(r: nat): (l: LogLevel)
    requires r < NumberOfLogLevels
    ensures Rank(l) == r
  {
    Declared[r]
  }

  /** The enumerators are numbered 0 .. 5 without gaps or repeats. */
  lemma RankRoundTrip(l: LogLevel)
    ensures FromRank(Rank(l)) == l
  {
  }

  /** `a <= b` on levels, as C++ compares the enumerators: `a` is declared no later than `b`. */
  predicate Le(a: LogLevel, b: LogLevel)
    ensures Le(a, b) <==> a in Declared[..Rank(b) + 1]
  {
    Rank(a) <= Rank(b)
  }

  /** `Le` is a total order: reflexive, antisymmetric, transitive, total. */
  lemma LeIsTotalOrder(a: LogLevel, b: LogLevel, c: LogLevel)
    ensures Le(a, a)
    ensures Le(a, b) && Le(b, a) ==> a == b
    ensures Le(a, b) && Le(b, c) ==> Le(a, c)
    ensures Le(a, b) || Le(b, a)
  {
    RankRoundTrip(a);
    RankRoundTrip(b);
  }

  /**
   * The value a threshold variable of type `LogLevel` can hold: the number
   * of a level, or `kNumberOfLogLevels` itself, which is also an
   * enumerator and which no level reaches.
   */
  type Threshold = r: nat | r <= NumberOfLogLevels

  /** `threshold <= level`, the comparison every guard makes. */
  predicate Admits(threshold: Threshold, l: LogLevel) {
    threshold <= Rank(l)
  }

  /**
   * A threshold set to a level admits exactly the levels at or above it;
   * the threshold `kNumberOfLogLevels` admits none.
   */
  lemma AdmitsLevels(t: LogLevel, l: LogLevel)
    ensures Admits(Rank(t), l) <==> Le(t, l)
    ensures !Admits(NumberOfLogLevels, l)
    ensures Admits(Rank(Trace), l)
  {
  }

  /** `logLevelStr`, indexed by the enumerator's value. */
  const LogLevelStr: seq<string> := [" TRACE ", " DEBUG ", " INFO  ", " WARN  ", " ERROR ", " FATAL "]

  /** The fixed-width text a formatting sink prints for a level. */
  function Tag(l: LogLevel): (t: string)
    ensures |t| == 7 && t[0] == ' ' && t[6] == ' '
  {
    LogLevelStr[Rank(l)]
  }

  /** The table has one 7-character entry per level, and tells every level apart. */
  lemma TagTable(a: LogLevel, b: LogLevel)
    ensures |LogLevelStr| == NumberOfLogLevels
    ensures forall i :: 0 <= i < |LogLevelStr| ==> |LogLevelStr[i]| == 7
    ensures Tag(a) == Tag(b) ==> a == b
  {
    if Tag(a) == Tag(b) {
      assert Tag(a)[1..3] == Tag(b)[1..3];
    }
  }
}
