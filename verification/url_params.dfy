/**
 * `URLSearchParams` as the ordered list of name/value pairs it holds, with
 * the two operations the source uses: `get` and `set` (section 6.2 of the
 * WHATWG URL Standard). Percent-encoding and the text form are left out.
 */
module UrlParams {
  import opened Wrappers
  import opened Seqs

  type Params = seq<(string, string)>

  /** Some pair carries the name. */
  predicate Has(ps: Params, name: string) {
    exists i :: 0 <= i < |ps| && ps[i].0 == name
  }

  /** `params.get(name)`: the value of the first pair with that name. */
  function Get(ps: Params, name: string): (r: Option<string>)
    ensures r.Some? <==> Has(ps, name)
    ensures r.Some? ==> (name, r.value) in ps
    ensures r.Some? ==> exists i :: 0 <= i < |ps| && ps[i] == (name, r.value) && forall j :: 0 <= j < i ==> ps[j].0 != name
  {
    if ps == [] then None
    else if ps[0].0 == name then Some(ps[0].1)
    else
      var r := Get(ps[1..], name);
      assert Has(ps[1..], name) ==> Has(ps, name) by {
        if Has(ps[1..], name) {
          var i :| 0 <= i < |ps[1..]| && ps[1..][i].0 == name;
          assert ps[i + 1].0 == name;
        }
      }
      assert Has(ps, name) ==> Has(ps[1..], name) by {
        if Has(ps, name) {
          var i :| 0 <= i < |ps| && ps[i].0 == name;
          assert ps[1..][i - 1].0 == name;
        }
      }
      assert r.Some? ==> exists i :: 0 <= i < |ps| && ps[i] == (name, r.value) && forall j :: 0 <= j < i ==> ps[j].0 != name by {
        if r.Some? {
          var i :| 0 <= i < |ps[1..]| && ps[1..][i] == (name, r.value) && forall j :: 0 <= j < i ==> ps[1..][j].0 != name;
          assert ps[i + 1] == (name, r.value);
          forall j | 0 <= j < i + 1
            ensures ps[j].0 != name
          {
            if j > 0 {
              assert ps[j] == ps[1..][j - 1];
            }
          }
        }
      }
      r
  }

  /** `params.set(name, value)`: the first pair with that name takes the
      value and the later ones are removed; with none, the pair is appended. */
  function Set(ps: Params, name: string, value: string): (r: Params)
    ensures Get(r, name) == Some(value)
    ensures forall n :: n != name ==> Get(r, n) == Get(ps, n)
  {
    if Get(ps, name).None? then
      assert forall n :: Get(ps + [(name, value)], n) == if n == name then Some(value) else Get(ps, n) by {
        forall n {
          GetAppend(ps, name, value, n);
        }
      }
      ps + [(name, value)]
    else
      assert forall n :: n != name ==> Get(Replace(ps, name, value), n) == Get(ps, n) by {
        forall n {
          GetReplace(ps, name, value, n);
        }
      }
      GetReplace(ps, name, value, name);
      Replace(ps, name, value)
  }

  function Replace(ps: Params, name: string, value: string): Params {
    if ps == [] then []
    else if ps[0].0 == name then [(name, value)] + Filter(ps[1..], (p: (string, string)) => p.0 != name)
    else [ps[0]] + Replace(ps[1..], name, value)
  }

  // ---------------------------------------------------------------- lemmas

  /** After `set(name, value)`, `get(name)` is `value` and every other name
      reads as before. */
  lemma ParamAfterSet(ps: Params, name: string, value: string, other: string)
    ensures Get(Set(ps, name, value), name) == Some(value)
    ensures other != name ==> Get(Set(ps, name, value), other) == Get(ps, other)
  {
    if Get(ps, name).None? {
      GetAppend(ps, name, value, name);
      GetAppend(ps, name, value, other);
    } else {
      GetReplace(ps, name, value, other);
    }
  }

  /** `set` leaves exactly one pair with the name. */
  lemma {:induction false} SetSingle(ps: Params, name: string, value: string)
    ensures CountName(Set(ps, name, value), name) == 1
  {
    if Get(ps, name).None? {
      CountNameNone(ps, name);
      CountNameAppend(ps, [(name, value)], name);
    } else {
      ReplaceSingle(ps, name, value);
    }
  }

  function CountName(ps: Params, name: string): nat {
    Count(ps, (p: (string, string)) => p.0 == name)
  }

  lemma {:induction false} CountNameNone(ps: Params, name: string)
    requires Get(ps, name).None?
    ensures CountName(ps, name) == 0
  {
    if ps != [] {
      CountNameNone(ps[1..], name);
    }
  }

  lemma CountNameAppend(a: Params, b: Params, name: string)
    ensures CountName(a + b, name) == CountName(a, name) + CountName(b, name)
  {
    FilterAppend(a, b, (p: (string, string)) => p.0 == name);
  }

  lemma {:induction false} ReplaceSingle(ps: Params, name: string, value: string)
    requires Get(ps, name).Some?
    ensures CountName(Replace(ps, name, value), name) == 1
  {
    var isName := (p: (string, string)) => p.0 == name;
    var notName := (p: (string, string)) => p.0 != name;
    if ps[0].0 == name {
      var rest := Filter(ps[1..], notName);
      CountNameAppend([(name, value)], rest, name);
      assert [(name, value)][1..] == [];
      FilterNonePass(rest, isName);
    } else {
      ReplaceSingle(ps[1..], name, value);
      CountNameAppend([ps[0]], Replace(ps[1..], name, value), name);
      assert [ps[0]][1..] == [];
    }
  }

  lemma {:induction false} GetAppend(ps: Params, name: string, value: string, n: string)
    requires Get(ps, name).None?
    ensures Get(ps + [(name, value)], n) == if n == name then Some(value) else Get(ps, n)
  {
    if ps == [] {
    } else {
      assert (ps + [(name, value)])[1..] == ps[1..] + [(name, value)];
      if ps[0].0 != n {
        GetAppend(ps[1..], name, value, n);
      }
    }
  }

  lemma {:induction false} GetReplace(ps: Params, name: string, value: string, n: string)
    requires Get(ps, name).Some?
    ensures Get(Replace(ps, name, value), name) == Some(value)
    ensures n != name ==> Get(Replace(ps, name, value), n) == Get(ps, n)
  {
    if ps[0].0 == name {
      if n != name {
        GetFilterOther(ps[1..], name, n);
      }
    } else {
      GetReplace(ps[1..], name, value, n);
    }
  }

  /** Removing the pairs of one name does not change what another name reads. */
  lemma {:induction false} GetFilterOther(ps: Params, name: string, n: string)
    requires n != name
    ensures Get(Filter(ps, (p: (string, string)) => p.0 != name), n) == Get(ps, n)
  {
    var notName := (p: (string, string)) => p.0 != name;
    if ps != [] {
      GetFilterOther(ps[1..], name, n);
      var f := Filter(ps, notName);
      if ps[0].0 != name {
        assert f == [ps[0]] + Filter(ps[1..], notName);
        assert f[1..] == Filter(ps[1..], notName);
      } else {
        assert f == Filter(ps[1..], notName);
      }
    }
  }
}
