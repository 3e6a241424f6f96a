/** add_arg: the NULL-terminated argument array that is handed to execvp. */
module ArgList {
  import opened Posix

  const START_AV_SZ: nat := 16

  /** An argument with nothing in it is not added. */
  function NonEmpty(s: string): seq<string> {
    if s == "" then [] else [s]
  }

  class ArgList {
    var newac: nat
    var newav: array?<Option<string>>   // None is the NULL pointer
    var cap: nat

    /** The slots in use hold non-empty strings, a NULL follows them, and at most half the space is unused. */
    ghost predicate Valid()
      reads this, newav
    {
      && (newav == null ==> newac == 0)
      && (newav != null ==>
            && newav.Length == cap && newac < cap
            && (cap == START_AV_SZ || (cap > START_AV_SZ && cap <= 2 * newac))
            && (forall i :: 0 <= i < newac ==> newav[i].Some? && newav[i].value != "")
            && newav[newac] == None)
    }

    ghost function Contents(): (args: seq<string>)
      requires Valid()
      reads this, newav
      ensures |args| == newac
    {
      if newav == null then []
      else seq(newac, i requires 0 <= i < newac && Valid() && newav != null reads this, newav => newav[i].value)
    }

    constructor ()
      ensures Valid() && newav == null && Contents() == []
    {
      newac, newav, cap := 0, null, START_AV_SZ;
    }

    /** Room for one more argument and the NULL behind it. */
    method MakeRoom()
      requires Valid()
      modifies this
      ensures newac == old(newac) && newav != null
      ensures newav == old(newav) || fresh(newav)
      ensures newav.Length == cap && newac + 1 < cap
      ensures cap == START_AV_SZ || (cap > START_AV_SZ && cap <= 2 * (newac + 1))
      ensures forall i :: 0 <= i < newac ==>
        newav[i].Some? && newav[i].value == old(Contents())[i] && newav[i].value != ""
    {
      if newav == null {
        newav := new Option<string>[START_AV_SZ](_ => None);
        cap := START_AV_SZ;
      } else if newac >= cap - 1 {
        var larger := new Option<string>[cap * 2](_ => None);
        var i := 0;
        while i < newac
          invariant i <= newac && newav == old(newav) && newac == old(newac) && cap == old(cap)
          invariant forall k :: 0 <= k < i ==> larger[k] == newav[k]
        {
          larger[i] := newav[i];
          i := i + 1;
        }
        newav, cap := larger, cap * 2;
      }
    }

    method AddArg(s: string)
      requires Valid()
      modifies this, newav
      ensures Valid()
      ensures newav == old(newav) || fresh(newav)
      ensures Contents() == old(Contents()) + NonEmpty(s)
    {
      if |s| == 0 {
        return;
      }
      ghost var before := Contents();
      MakeRoom();
      newav[newac] := Some(s);
      newac := newac + 1;
      newav[newac] := None;
      assert Contents() == before + [s];
    }
  }
}
