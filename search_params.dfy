/**
 * The browser's URLSearchParams, which holds the shareable filter and sort state of the
 * product listing: an ordered list of name/value pairs in which a name may repeat.
 * Only the operations the listing page uses are modelled (getAll, get, append, delete,
 * set), following the URL Standard's definitions of them.
 */
module SearchParams {
  import opened Wrappers

  datatype Param = Param(name: string, value: string)
  type Params = seq<Param>

  /** getAll(name): the values of every pair named `name`, in list order. */
  function GetAll(ps: Params, name: string): seq<string>
  {
    if ps == [] then []
    else (if ps[0].name == name then [ps[0].value] else []) + GetAll(ps[1..], name)
  }

  /** The values a concatenated list holds under any name are those of its two parts, in order. */
  lemma {:induction false} GetAllConcat(a: Params, b: Params)
    ensures forall n :: GetAll(a + b, n) == GetAll(a, n) + GetAll(b, n)
  {
    if a == [] {
      assert a + b == b;
    } else {
      assert (a + b)[0] == a[0];
      assert (a + b)[1..] == a[1..] + b;
      GetAllConcat(a[1..], b);
    }
  }

  lemma GetAllSingle(p: Param)
    ensures forall n :: GetAll([p], n) == if p.name == n then [p.value] else []
  {
    forall n ensures GetAll([p], n) == if p.name == n then [p.value] else [] {
      assert [p][1..] == [];
    }
  }

  /** get(name): the value of the first pair named `name`, or null when there is none. */
  function Get(ps: Params, name: string): (v: Option<string>)
    ensures v == if GetAll(ps, name) == [] then None else Some(GetAll(ps, name)[0])
  {
    if ps == [] then None
    else if ps[0].name == name then Some(ps[0].value)
    else Get(ps[1..], name)
  }

  /** append(name, value): adds a pair at the end of the list. */
  function Append(ps: Params, name: string, value: string): (r: Params)
    ensures GetAll(r, name) == GetAll(ps, name) + [value]
    ensures forall n :: n != name ==> GetAll(r, n) == GetAll(ps, n)
  {
    GetAllConcat(ps, [Param(name, value)]);
    GetAllSingle(Param(name, value));
    ps + [Param(name, value)]
  }

  /** delete(name): removes every pair named `name`, keeping the others in order. */
  function Delete(ps: Params, name: string): (r: Params)
    ensures GetAll(r, name) == []
    ensures forall n :: n != name ==> GetAll(r, n) == GetAll(ps, n)
  {
    if ps == [] then []
    else if ps[0].name == name then Delete(ps[1..], name)
    else
      var rest := Delete(ps[1..], name);
      GetAllConcat([ps[0]], rest);
      [ps[0]] + rest
  }

  /**
   * set(name, value): when some pair is named `name`, the first one takes the new value
   * and the others are removed; otherwise the pair is appended.
   */
  function Set(ps: Params, name: string, value: string): (r: Params)
    ensures GetAll(r, name) == [value]
    ensures forall n :: n != name ==> GetAll(r, n) == GetAll(ps, n)
  {
    if ps == [] then [Param(name, value)]
    else if ps[0].name == name then
      var rest := Delete(ps[1..], name);
      GetAllConcat([Param(name, value)], rest);
      [Param(name, value)] + rest
    else
      var rest := Set(ps[1..], name, value);
      GetAllConcat([ps[0]], rest);
      [ps[0]] + rest
  }

  /** `values.forEach(v => params.append(name, v))`: appends one pair per value, in order. */
  function AppendAll(ps: Params, name: string, values: seq<string>): (r: Params)
    ensures GetAll(r, name) == GetAll(ps, name) + values
    ensures forall n :: n != name ==> GetAll(r, n) == GetAll(ps, n)
    decreases |values|
  {
    if values == [] then ps
    else AppendAll(Append(ps, name, values[0]), name, values[1..])
  }
}
