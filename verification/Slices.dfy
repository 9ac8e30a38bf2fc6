/** A Go slice of ids: a window on a backing array that append fills in place and
    replaces only when it is full. */
module Slices {
  import opened Domain

  class Slice {
    var data: array<Id>
    var len: nat

    ghost predicate Valid()
      reads this
    {
      len <= data.Length
    }

    ghost function Items(): (items: seq<Id>)
      requires Valid()
      reads this, data
    {
      data[..len]
    }

    constructor (capacity: nat)
      ensures Valid() && fresh(data) && Items() == []
    {
      data := new Id[capacity];
      len := 0;
    }

    /** s[:0] as a second slice on the same backing array. */
    constructor Reusing(backing: array<Id>)
      ensures Valid() && data == backing && len == 0 && Items() == []
    {
      data := backing;
      len := 0;
    }

    /** s[:n]: the backing array stays. */
    method Truncate(n: nat)
      requires Valid() && n <= len
      modifies this`len
      ensures Valid() && Items() == old(Items())[..n]
    {
      len := n;
    }

    method Append(x: Id)
      requires Valid()
      modifies this, data
      ensures Valid() && Items() == old(Items()) + [x]
      ensures data == old(data) || fresh(data)
      ensures old(len < data.Length) ==> data == old(data) && data[..] == old(data[..])[old(len) := x]
    {
      if len == data.Length {
        var grown := new Id[2 * len + 1];
        for i := 0 to len
          invariant data == old(data) && len == old(len) && data[..] == old(data[..])
          invariant grown[..i] == data[..i]
        {
          grown[i] := data[i];
        }
        data := grown;
      }
      data[len] := x;
      len := len + 1;
    }
  }
}
