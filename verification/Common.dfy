/** Small types shared by every module of the project. */
module Common {

  datatype Option<+T> = None | Some(value: T)

  /** How a call to the outside world ends, seen from the caller.
      `Crashed` stands for the process dying during the call. */
  datatype Reply = Ok | Failed | Crashed

  lemma {:induction false} DistinctCount<T>(s: seq<T>, x: T)
    requires forall i, j :: 0 <= i < j < |s| ==> s[i] != s[j]
    ensures multiset(s)[x] == if x in s then 1 else 0
  {
    if s != [] {
      var t := s[..|s| - 1];
      assert s == t + [s[|s| - 1]];
      DistinctCount(t, x);
    }
  }
}
