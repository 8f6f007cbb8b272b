/** Types shared by every module of the model. */
module Prelude {

  datatype Option<+T> = None | Some(value: T)

  /** Seconds since the epoch; the source keeps them as floating point numbers. */
  type Time = real

  /** The full name of a channel, split at the dots: `root.a.b` is `["root", "a", "b"]`. */
  type Path = seq<string>

  const ROOT: Path := ["root"]

  lemma {:induction false} SubsetSize<T>(s: set<T>, t: set<T>)
    requires s <= t
    ensures |s| <= |t|
    decreases |s|
  {
    if s != {} {
      var x :| x in s;
      SubsetSize(s - {x}, t - {x});
    }
  }
}
