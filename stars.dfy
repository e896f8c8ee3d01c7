/** The row of five star icons that every component draws. A row is a
    sequence of five booleans, `true` for a filled (yellow) star. */
module Stars {

  /** Number of stars a row can hold. */
  const Width := 5

  /** The number of filled stars a level can produce: levels below 0 fill
      none, levels above the width fill all. */
  function Clamp(level: int): (n: nat)
    ensures n <= Width
    ensures 0 <= level <= Width ==> n == level
    ensures level < 0 ==> n == 0
    ensures level > Width ==> n == Width
  {
    if level < 0 then 0 else if level > Width then Width else level
  }

  /** Number of filled stars in a row. */
  function Filled(row: seq<bool>): (n: nat)
    ensures n <= |row|
  {
    if row == [] then 0 else (if row[0] then 1 else 0) + Filled(row[1..])
  }

  /** The 1-based rule: star `i` (numbered 1 to 5) is filled iff `i <= level`. */
  function Row(level: int): (row: seq<bool>)
    ensures |row| == Width
  {
    seq(Width, k => k + 1 <= level)
  }

  /** Filled stars always come first: a row is a run of filled stars followed
      by a run of empty ones. */
  predicate FilledFirst(row: seq<bool>)
  {
    forall i, j :: 0 <= i < j < |row| && row[j] ==> row[i]
  }

  /** A filled-first row holds exactly `n` filled stars when its first `n`
      stars are filled and the others are not. */
  lemma {:induction false} FilledOfPrefix(row: seq<bool>, n: nat)
    requires n <= |row|
    requires forall k :: 0 <= k < |row| ==> (row[k] <==> k < n)
    ensures Filled(row) == n
  {
    if row != [] {
      FilledOfPrefix(row[1..], if n == 0 then 0 else n - 1);
    }
  }

  /** Whatever the level, a row has five stars, its filled stars come first,
      and it fills exactly the clamped level. */
  lemma RowShape(level: int)
    ensures |Row(level)| == Width
    ensures FilledFirst(Row(level))
    ensures Filled(Row(level)) == Clamp(level)
  {
    FilledOfPrefix(Row(level), Clamp(level));
  }
}
