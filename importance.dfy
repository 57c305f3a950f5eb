/**
 * Task importance. A single task has one level (`'high'`, `'low'` or `'none'`);
 * the filter keeps one independent boolean per level.
 */
module Importance {

  /** The three importance strings; `NoImportance` is the string `'none'`. */
  datatype Level = High | Low | NoImportance

  /** The string the components use for a level (checkbox name and id). */
  function Name(l: Level): (s: string)
    ensures |s| > 0
  {
    match l
    case High => "high"
    case Low => "low"
    case NoImportance => "none"
  }

  /** The filter's importance record `{ high, low, none }`: flags, not a single choice. */
  datatype Flags = Flags(high: bool, low: bool, none: bool)

  const AllOff := Flags(false, false, false)

  /** The flag named by a level. */
  function Get(f: Flags, l: Level): (b: bool)
    ensures f == AllOff ==> !b
  {
    match l
    case High => f.high
    case Low => f.low
    case NoImportance => f.none
  }

  /**
   * `{ ...prev, [name]: checked }`: the named flag takes the new value and the
   * other two keep theirs.
   */
  function Set(f: Flags, l: Level, checked: bool): (r: Flags)
    ensures Get(r, l) == checked
    ensures forall other: Level :: other != l ==> Get(r, other) == Get(f, other)
  {
    match l
    case High => f.(high := checked)
    case Low => f.(low := checked)
    case NoImportance => f.(none := checked)
  }
}
