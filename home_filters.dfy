/**
 * The public home page's location filters (components/home-filters.tsx): the
 * current country/state/city read from the query string, and the change
 * handler that rewrites a copy of the query parameters with `set`/`delete`
 * calls, clears dependent filters, and navigates to the result.
 * The browser's `URLSearchParams` is modelled as a class over its ordered
 * list of name/value pairs.
 */
module HomeFilters {
  import opened Wrappers

  datatype Param = Param(name: string, value: string)

  /** `get(name)`: the value of the first pair with that name, `null` if none. */
  function Lookup(ps: seq<Param>, name: string): (r: Option<string>)
    ensures r.Some? <==> exists i :: 0 <= i < |ps| && ps[i].name == name
  {
    if ps == [] then None
    else if ps[0].name == name then Some(ps[0].value)
    else Lookup(ps[1..], name)
  }

  /** The pairs left after `delete(name)`: every pair with that name removed, the rest in order. */
  function Without(ps: seq<Param>, name: string): (r: seq<Param>)
    ensures forall i :: 0 <= i < |r| ==> r[i].name != name
    ensures |r| <= |ps|
  {
    if ps == [] then []
    else if ps[0].name == name then Without(ps[1..], name)
    else [ps[0]] + Without(ps[1..], name)
  }

  /** The pairs after `set(name, value)` when `name` is present: the first pair takes the value, later ones go. */
  function ReplaceFirst(ps: seq<Param>, name: string, value: string): seq<Param> {
    if ps == [] then []
    else if ps[0].name == name then [Param(name, value)] + Without(ps[1..], name)
    else [ps[0]] + ReplaceFirst(ps[1..], name, value)
  }

  /** The pairs after `set(name, value)`: replace in place when present, append otherwise. */
  function WithSet(ps: seq<Param>, name: string, value: string): seq<Param> {
    if Lookup(ps, name).Some? then ReplaceFirst(ps, name, value) else ps + [Param(name, value)]
  }

  /** `name=value` pairs joined with `&`. */
  function Serialize(ps: seq<Param>): string {
    if ps == [] then ""
    else
      var head := ps[0].name + "=" + ps[0].value;
      if |ps| == 1 then head else head + "&" + Serialize(ps[1..])
  }

  /** After `delete(name)` nothing is found under `name`, and every other name reads as before. */
  lemma {:induction false} LookupWithout(ps: seq<Param>, name: string, other: string)
    ensures Lookup(Without(ps, name), name) == None
    ensures other != name ==> Lookup(Without(ps, name), other) == Lookup(ps, other)
  {
    if ps != [] {
      LookupWithout(ps[1..], name, other);
    }
  }

  lemma {:induction false} LookupReplaceFirst(ps: seq<Param>, name: string, value: string, other: string)
    requires Lookup(ps, name).Some?
    ensures Lookup(ReplaceFirst(ps, name, value), name) == Some(value)
    ensures other != name ==> Lookup(ReplaceFirst(ps, name, value), other) == Lookup(ps, other)
  {
    if ps[0].name == name {
      LookupWithout(ps[1..], name, other);
    } else {
      LookupReplaceFirst(ps[1..], name, value, other);
    }
  }

  lemma {:induction false} LookupAppend(ps: seq<Param>, p: Param, other: string)
    ensures Lookup(ps + [p], other) == if Lookup(ps, other).Some? then Lookup(ps, other)
                                       else if p.name == other then Some(p.value) else None
  {
    if ps != [] {
      assert (ps + [p])[1..] == ps[1..] + [p];
      LookupAppend(ps[1..], p, other);
    }
  }

  /** After `set(name, value)`, `name` reads `value` and every other name reads as before. */
  lemma LookupWithSet(ps: seq<Param>, name: string, value: string, other: string)
    ensures Lookup(WithSet(ps, name, value), name) == Some(value)
    ensures other != name ==> Lookup(WithSet(ps, name, value), other) == Lookup(ps, other)
  {
    if Lookup(ps, name).Some? {
      LookupReplaceFirst(ps, name, value, other);
    } else {
      LookupAppend(ps, Param(name, value), name);
      LookupAppend(ps, Param(name, value), other);
    }
  }

  /** A filter's current selection: `searchParams.get(name) || ''`. */
  function CurrentFilter(ps: seq<Param>, name: string): (r: string)
    ensures Lookup(ps, name).None? ==> r == ""
    ensures Lookup(ps, name).Some? ==> r == Lookup(ps, name).value
  {
    Lookup(ps, name).GetOr("")
  }

  class SearchParams {
    var pairs: seq<Param>

    /** `new URLSearchParams(searchParams.toString())`: a copy of the current pairs. */
    constructor (pairs: seq<Param>)
      ensures this.pairs == pairs
    {
      this.pairs := pairs;
    }

    method Set(name: string, value: string)
      modifies this
      ensures pairs == WithSet(old(pairs), name, value)
      ensures Lookup(pairs, name) == Some(value)
      ensures forall other :: other != name ==> Lookup(pairs, other) == Lookup(old(pairs), other)
    {
      pairs := WithSet(pairs, name, value);
      forall other | other != name
        ensures Lookup(pairs, other) == Lookup(old(pairs), other)
      {
        LookupWithSet(old(pairs), name, value, other);
      }
      LookupWithSet(old(pairs), name, value, name);
    }

    method Delete(name: string)
      modifies this
      ensures pairs == Without(old(pairs), name)
      ensures Lookup(pairs, name) == None
      ensures forall other :: other != name ==> Lookup(pairs, other) == Lookup(old(pairs), other)
    {
      pairs := Without(pairs, name);
      forall other | other != name
        ensures Lookup(pairs, other) == Lookup(old(pairs), other)
      {
        LookupWithout(old(pairs), name, other);
      }
      LookupWithout(old(pairs), name, name);
    }
  }

  /** The parameters a change of `name` removes besides setting or clearing `name` itself. */
  predicate Cascades(name: string, other: string) {
    (name == "country" && (other == "state" || other == "city")) || (name == "state" && other == "city")
  }

  /** The pairs left once the parameters `name` cascades to are deleted, in the order the code deletes them. */
  function Cascaded(pairs: seq<Param>, name: string): seq<Param> {
    if name == "country" then Without(Without(pairs, "state"), "city")
    else if name == "state" then Without(pairs, "city")
    else pairs
  }

  /**
   * `handleFilterChange`: returns the new query parameters and the URL the
   * router is sent to. A non-empty value selects, an empty one clears; a new
   * country clears state and city, a new state clears city; every other
   * parameter, the parent filters included, keeps its value.
   */
  method HandleFilterChange(current: seq<Param>, name: string, value: string)
    returns (next: seq<Param>, target: string)
    ensures next == Cascaded(if value != "" then WithSet(current, name, value) else Without(current, name), name)
    ensures target == "/?" + Serialize(next)
    ensures value != "" ==> Lookup(next, name) == Some(value)
    ensures value == "" ==> Lookup(next, name) == None
    ensures forall other :: Cascades(name, other) ==> Lookup(next, other) == None
    ensures forall other :: other != name && !Cascades(name, other) ==> Lookup(next, other) == Lookup(current, other)
  {
    var params := new SearchParams(current);
    if value != "" {
      params.Set(name, value);
    } else {
      params.Delete(name);
    }
    ghost var afterFirst := params.pairs;
    assert forall other :: other != name ==> Lookup(afterFirst, other) == Lookup(current, other);
    if name == "country" {
      params.Delete("state");
      params.Delete("city");
    }
    if name == "state" {
      params.Delete("city");
    }
    assert forall other :: !Cascades(name, other) ==> Lookup(params.pairs, other) == Lookup(afterFirst, other);
    next := params.pairs;
    target := "/?" + Serialize(next);
  }
}
