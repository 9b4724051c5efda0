/**
 * URLSearchParams as the dashboard uses it: an ordered list of name/value
 * pairs that `set` updates in place and `get` reads.
 */
module SearchParams {
  import opened Base

  type Entry = (string, string)

  /** The value of the first pair named `name`. */
  function Lookup(entries: seq<Entry>, name: string): (r: Option<string>)
    ensures r.None? <==> forall i :: 0 <= i < |entries| ==> entries[i].0 != name
  {
    if entries == [] then None
    else if entries[0].0 == name then Some(entries[0].1)
    else
      assert forall i :: 1 <= i < |entries| ==> entries[i] == entries[1..][i - 1];
      Lookup(entries[1..], name)
  }

  /** Every pair named `name` removed, the others kept in order. */
  function RemoveAll(entries: seq<Entry>, name: string): (r: seq<Entry>)
    ensures Lookup(r, name).None?
    ensures forall other :: other != name ==> Lookup(r, other) == Lookup(entries, other)
  {
    if entries == [] then []
    else if entries[0].0 == name then RemoveAll(entries[1..], name)
    else [entries[0]] + RemoveAll(entries[1..], name)
  }

  /**
   * `set(name, value)`: the first pair named `name` takes the value and any
   * later ones are removed; with no such pair, one is appended.
   */
  function SetEntry(entries: seq<Entry>, name: string, value: string): (r: seq<Entry>)
    ensures Lookup(r, name) == Some(value)
    ensures forall other :: other != name ==> Lookup(r, other) == Lookup(entries, other)
    ensures Lookup(entries, name).None? ==> r == entries + [(name, value)]
  {
    if entries == [] then [(name, value)]
    else if entries[0].0 == name then [(name, value)] + RemoveAll(entries[1..], name)
    else
      assert entries == [entries[0]] + entries[1..];
      [entries[0]] + SetEntry(entries[1..], name, value)
  }

  class URLSearchParams {
    var entries: seq<Entry>

    constructor ()
      ensures entries == []
    {
      entries := [];
    }

    /** `get(name)`: the value of the first pair with that name. */
    function Get(name: string): Option<string>
      reads this
    {
      Lookup(entries, name)
    }

    method Set(name: string, value: string)
      modifies this
      ensures entries == SetEntry(old(entries), name, value)
      ensures Get(name) == Some(value)
    {
      entries := SetEntry(entries, name, value);
    }
  }
}
