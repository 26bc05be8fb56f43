/** internal/runtime/command_store.go and internal/terminal/recovery_store.go: a file that
    holds one state and is replaced as a whole. */
module StateFile {
  import opened Common

  /** A call whose outcome the agent cannot influence; in calm weather it succeeds. */
  method Attempt(calm: bool) returns (r: Reply)
    ensures calm ==> r.Ok?
  {
    r := *;
    if calm { r := Ok; }
  }

  /** Bytes of a state file: a complete encoding, or the torn beginning of one. */
  datatype Content<T> = Torn | Whole(state: T)

  /** A temporary file is written, synced and renamed over the state file; the mode of the
      final file is set, and its directory synced, after that. */
  class FileStore<T> {
    const calm: bool
    var file: Option<Content<T>>
    var temp: Option<Content<T>>

    constructor (calm: bool)
      ensures Valid() && Stored() == None && this.calm == calm
    {
      this.calm, file, temp := calm, None, None;
    }

    /** The state file is never torn. */
    ghost predicate Valid()
      reads this
    {
      file != Some(Torn)
    }

    function Stored(): Option<T>
      requires Valid()
      reads this
    {
      if file.None? then None else Some(file.value.state)
    }

    method Load() returns (r: Reply, s: Option<T>)
      requires Valid()
      ensures r.Ok? ==> s == Stored()
      ensures calm ==> r.Ok?
    {
      s := None;
      r := Attempt(calm);                   // unreadable, oversized or undecodable: an error
      if r.Ok? && file.Some? {
        s := Some(file.value.state);
      }
    }

    /** Success means the new state; an error leaves the old state or the new one. */
    method Save(state: T) returns (r: Reply)
      requires Valid()
      modifies this
      ensures Valid()
      ensures r.Ok? ==> Stored() == Some(state)
      ensures Stored() == old(Stored()) || Stored() == Some(state)
      ensures calm ==> r.Ok?
    {
      r := Attempt(calm);                   // encode, make the directory, create the temporary file
      if !r.Ok? { return; }
      temp := Some(Torn);
      r := Attempt(calm);                   // mode and write
      if !r.Ok? { RemoveTemp(); return; }
      temp := Some(Whole(state));
      r := Attempt(calm);                   // sync and close
      if !r.Ok? { RemoveTemp(); return; }
      r := Attempt(calm);                   // rename
      if !r.Ok? { RemoveTemp(); return; }
      file, temp := temp, None;
      r := Attempt(calm);                   // mode of the final file, sync of its directory
    }

    /** The deferred removal; after a crash it may not have run. */
    method RemoveTemp()
      modifies this`temp
    {
      var r := Attempt(calm);
      if r.Ok? { temp := None; }
    }

    method Clear() returns (r: Reply)
      requires Valid()
      modifies this`file
      ensures Valid()
      ensures r.Ok? ==> Stored() == None
      ensures Stored() == old(Stored()) || Stored() == None
      ensures calm ==> r.Ok?
    {
      var removed: bool := *;
      if removed { file := None; }
      r := Attempt(calm);
      if r.Ok? { file := None; }
    }
  }
}
