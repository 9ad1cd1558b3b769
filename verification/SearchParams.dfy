/**
 * The query of the listing's URL as URLSearchParams holds it: an ordered list of name/value
 * pairs (section 6.2 of the WHATWG URL Standard), with get, set and delete as the standard
 * defines them.
 */
module SearchParams {
  import opened Wrappers

  datatype Pair = Pair(name: string, value: string)

  type Params = seq<Pair>

  predicate Has(ps: Params, name: string) {
    exists i :: 0 <= i < |ps| && ps[i].name == name
  }

  /** get(name): the value of the first pair with that name, or null. */
  function Get(ps: Params, name: string): (r: Option<string>)
    ensures r.Some? <==> Has(ps, name)
  {
    if ps == [] then None
    else if ps[0].name == name then Some(ps[0].value)
    else
      var r := Get(ps[1..], name);
      assert Has(ps, name) ==> Has(ps[1..], name) by {
        if Has(ps, name) {
          var i :| 0 <= i < |ps| && ps[i].name == name;
          assert ps[1..][i - 1].name == name;
        }
      }
      assert Has(ps[1..], name) ==> Has(ps, name) by {
        if Has(ps[1..], name) {
          var i :| 0 <= i < |ps[1..]| && ps[1..][i].name == name;
          assert ps[i + 1].name == name;
        }
      }
      r
  }

  /** delete(name): remove every pair with that name. */
  function Delete(ps: Params, name: string): (r: Params)
    ensures |r| <= |ps|
  {
    if ps == [] then []
    else if ps[0].name == name then Delete(ps[1..], name)
    else [ps[0]] + Delete(ps[1..], name)
  }

  /** Gives the first pair called name the new value and removes the later ones. */
  function ReplaceFirst(ps: Params, name: string, value: string): Params {
    if ps == [] then []
    else if ps[0].name == name then [Pair(name, value)] + Delete(ps[1..], name)
    else [ps[0]] + ReplaceFirst(ps[1..], name, value)
  }

  /**
   * set(name, value): if a pair with that name exists, the first one takes the value and the
   * others are removed; otherwise the pair is appended.
   */
  function Set(ps: Params, name: string, value: string): Params {
    if Has(ps, name) then ReplaceFirst(ps, name, value) else ps + [Pair(name, value)]
  }

  /** The number of pairs with a given name. */
  function Count(ps: Params, name: string): nat {
    if ps == [] then 0 else (if ps[0].name == name then 1 else 0) + Count(ps[1..], name)
  }

  lemma {:induction false} GetDelete(ps: Params, name: string, other: string)
    ensures Get(Delete(ps, name), other) == if other == name then None else Get(ps, other)
    ensures Count(Delete(ps, name), name) == 0
  {
    if ps != [] {
      GetDelete(ps[1..], name, other);
    }
  }

  lemma {:induction false} GetReplaceFirst(ps: Params, name: string, value: string, other: string)
    requires Has(ps, name)
    ensures Get(ReplaceFirst(ps, name, value), other) == if other == name then Some(value) else Get(ps, other)
    ensures Count(ReplaceFirst(ps, name, value), name) == 1
  {
    if ps[0].name == name {
      GetDelete(ps[1..], name, other);
    } else {
      assert Has(ps[1..], name) by {
        var i :| 0 <= i < |ps| && ps[i].name == name;
        assert ps[1..][i - 1].name == name;
      }
      GetReplaceFirst(ps[1..], name, value, other);
    }
  }

  lemma {:induction false} GetAppend(ps: Params, p: Pair, other: string)
    ensures Get(ps + [p], other) == if Has(ps, other) then Get(ps, other) else if p.name == other then Some(p.value) else None
    ensures Count(ps + [p], other) == Count(ps, other) + (if p.name == other then 1 else 0)
  {
    if ps != [] {
      assert (ps + [p])[1..] == ps[1..] + [p];
      GetAppend(ps[1..], p, other);
    }
  }

  lemma {:induction false} CountZeroMeansAbsent(ps: Params, name: string)
    ensures Count(ps, name) == 0 <==> !Has(ps, name)
  {
    if ps != [] {
      CountZeroMeansAbsent(ps[1..], name);
    }
  }

  /**
   * After set(name, value), get(name) yields value, name occurs exactly once, and every other
   * name reads as before.
   */
  lemma GetSet(ps: Params, name: string, value: string, other: string)
    ensures Get(Set(ps, name, value), other) == if other == name then Some(value) else Get(ps, other)
    ensures Count(Set(ps, name, value), name) == 1
  {
    if Has(ps, name) {
      GetReplaceFirst(ps, name, value, other);
    } else {
      GetAppend(ps, Pair(name, value), other);
      GetAppend(ps, Pair(name, value), name);
      CountZeroMeansAbsent(ps, name);
    }
  }

  /** set() leaves the pairs of other names where they were: deleting name afterwards undoes it. */
  lemma {:induction false} DeleteAfterSet(ps: Params, name: string, value: string)
    ensures Delete(Set(ps, name, value), name) == Delete(ps, name)
  {
    if Has(ps, name) {
      DeleteReplaceFirst(ps, name, value);
    } else {
      DeleteAppend(ps, Pair(name, value), name);
    }
  }

  lemma {:induction false} DeleteReplaceFirst(ps: Params, name: string, value: string)
    ensures Delete(ReplaceFirst(ps, name, value), name) == Delete(ps, name)
  {
    if ps != [] {
      if ps[0].name == name {
        DeleteIdempotent(ps[1..], name);
      } else {
        DeleteReplaceFirst(ps[1..], name, value);
      }
    }
  }

  lemma {:induction false} DeleteAppend(ps: Params, p: Pair, name: string)
    ensures Delete(ps + [p], name) == Delete(ps, name) + (if p.name == name then [] else [p])
  {
    if ps != [] {
      assert (ps + [p])[1..] == ps[1..] + [p];
      DeleteAppend(ps[1..], p, name);
    }
  }

  lemma {:induction false} DeleteIdempotent(ps: Params, name: string)
    ensures Delete(Delete(ps, name), name) == Delete(ps, name)
  {
    if ps != [] {
      DeleteIdempotent(ps[1..], name);
    }
  }
}
