/** SwiftUI preference keys. Both `ScrollOffsetKey` (the refresh views) and
    `PageOffsetKey` (the tab pager) declare `defaultValue = 0` and a reduce
    that overwrites the accumulated value with the next one. SwiftUI folds
    every value reported in a frame through reduce, starting from the
    default value. */
module PreferenceKey {

  const DefaultValue: real := 0.0

  /** `reduce(value: &value, nextValue:)`: `value = nextValue()`. */
  function Reduce(value: real, nextValue: real): real
  {
    nextValue
  }

  /** The fold SwiftUI performs: start from `value`, reduce each report in turn. */
  function Fold(value: real, reports: seq<real>): real
    decreases |reports|
  {
    if reports == [] then value else Fold(Reduce(value, reports[0]), reports[1..])
  }

  /** The value observed by `onPreferenceChange` for one frame of reports. */
  function Combined(reports: seq<real>): real
  {
    Fold(DefaultValue, reports)
  }

  /** Folding keeps the newest report, or the starting value when there is none. */
  lemma {:induction false} FoldKeepsLast(value: real, reports: seq<real>)
    ensures Fold(value, reports) == if reports == [] then value else reports[|reports| - 1]
    decreases |reports|
  {
    if reports != [] {
      FoldKeepsLast(Reduce(value, reports[0]), reports[1..]);
    }
  }

  /** The combined preference is the last value reported, or 0 with no report. */
  lemma CombinedIsLastOrDefault(reports: seq<real>)
    ensures Combined(reports) == if reports == [] then 0.0 else reports[|reports| - 1]
  {
    FoldKeepsLast(DefaultValue, reports);
  }
}
