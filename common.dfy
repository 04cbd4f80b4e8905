/** Values shared by every part of the model: optional values, results carrying
    Go's error text, label-keyed counters and error wrapping. */
module Common {

  datatype Option<+T> = None | Some(value: T)

  /** A Go `(value, error)` pair: exactly one side is meaningful. The error is
      kept as the text `err.Error()` would print. */
  datatype Result<+T> = Ok(value: T) | Err(error: string)

  /** The label values one series of an instrument is selected by
      (the arguments of Prometheus's `WithLabelValues`). */
  type Labels = seq<string>

  /** The value a counter shows for the series `k`; a series never touched reads 0. */
  function Count(m: map<Labels, nat>, k: Labels): nat {
    if k in m then m[k] else 0
  }

  /** `Inc()` on the series `k`: that series rises by one, every other keeps its value. */
  function Bump(m: map<Labels, nat>, k: Labels): (r: map<Labels, nat>)
    ensures Count(r, k) == Count(m, k) + 1
    ensures forall j :: j != k ==> Count(r, j) == Count(m, j)
    ensures r.Keys == m.Keys + {k}
  {
    m[k := Count(m, k) + 1]
  }

  /** The text of `fmt.Errorf(prefix + ": %w", err)`: the prefix, a colon and a
      space, then the wrapped error unchanged. */
  function Wrap(prefix: string, err: string): (r: string)
    ensures |r| == |prefix| + 2 + |err|
    ensures r[..|prefix|] == prefix && r[|prefix|..|prefix| + 2] == ": " && r[|prefix| + 2..] == err
  {
    prefix + ": " + err
  }
}
