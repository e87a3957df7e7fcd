/** The list transformations the stores and the project service apply to
    arrays of records: filter by id, map-replace by id, find by id, and
    filter by position. */
module Records {
  import opened Js

  /** rs.filter(r => r.id !== id) */
  function WithoutId(rs: seq<Record>, id: Value): (t: seq<Record>)
    ensures |t| <= |rs|
    ensures forall r :: r in t <==> r in rs && IdOf(r) != id
  {
    if rs == [] then []
    else if IdOf(rs[0]) != id then [rs[0]] + WithoutId(rs[1..], id)
    else WithoutId(rs[1..], id)
  }

  /** Filtering distributes over concatenation: the surviving records keep
      their relative order. */
  lemma {:induction false} WithoutIdAppend(a: seq<Record>, b: seq<Record>, id: Value)
    ensures WithoutId(a + b, id) == WithoutId(a, id) + WithoutId(b, id)
  {
    if a == [] {
      assert a + b == b;
    } else {
      assert (a + b)[1..] == a[1..] + b;
      WithoutIdAppend(a[1..], b, id);
    }
  }

  /** Filtering out an id nobody has changes nothing. */
  lemma {:induction false} WithoutAbsentId(rs: seq<Record>, id: Value)
    requires forall r :: r in rs ==> IdOf(r) != id
    ensures WithoutId(rs, id) == rs
  {
    if rs != [] {
      assert rs[0] in rs;
      assert forall r :: r in rs[1..] ==> r in rs;
      WithoutAbsentId(rs[1..], id);
    }
  }

  /** rs.map(r => r.id === id ? replacement : r) */
  function ReplaceWhereId(rs: seq<Record>, id: Value, replacement: Record): (t: seq<Record>)
    ensures |t| == |rs|
    ensures forall i :: 0 <= i < |rs| && IdOf(rs[i]) == id ==> t[i] == replacement
    ensures forall i :: 0 <= i < |rs| && IdOf(rs[i]) != id ==> t[i] == rs[i]
  {
    if rs == [] then []
    else [if IdOf(rs[0]) == id then replacement else rs[0]] + ReplaceWhereId(rs[1..], id, replacement)
  }

  /** rs.map(r => r.id === id ? {...r, ...updates} : r) */
  function MergeWhereId(rs: seq<Record>, id: Value, updates: Record): (t: seq<Record>)
    ensures |t| == |rs|
    ensures forall i :: 0 <= i < |rs| && IdOf(rs[i]) == id ==> t[i] == Spread(rs[i], updates)
    ensures forall i :: 0 <= i < |rs| && IdOf(rs[i]) != id ==> t[i] == rs[i]
  {
    if rs == [] then []
    else [if IdOf(rs[0]) == id then Spread(rs[0], updates) else rs[0]] + MergeWhereId(rs[1..], id, updates)
  }

  /** rs.find(r => r.id === id): the first record with that id, if any. */
  function FindId(rs: seq<Record>, id: Value): (r: Option<Record>)
    ensures r.None? <==> forall x :: x in rs ==> IdOf(x) != id
    ensures r.Some? ==> exists i :: 0 <= i < |rs| && rs[i] == r.value && IdOf(rs[i]) == id &&
                                   forall j :: 0 <= j < i ==> IdOf(rs[j]) != id
  {
    if rs == [] then None
    else if IdOf(rs[0]) == id then Some(rs[0])
    else
      var r := FindId(rs[1..], id);
      if r.Some? then
        var i :| 0 <= i < |rs[1..]| && rs[1..][i] == r.value && IdOf(rs[1..][i]) == id &&
                 forall j :: 0 <= j < i ==> IdOf(rs[1..][j]) != id;
        assert rs[i + 1] == r.value;
        r
      else r
  }

  /** After a replacement by a record that carries the same id, looking the
      id up finds that record, provided some record had the id. */
  lemma FindAfterReplace(rs: seq<Record>, id: Value, replacement: Record)
    requires IdOf(replacement) == id
    requires exists x :: x in rs && IdOf(x) == id
    ensures FindId(ReplaceWhereId(rs, id, replacement), id) == Some(replacement)
  {
    var t := ReplaceWhereId(rs, id, replacement);
    var r := FindId(t, id);
    var x :| x in rs && IdOf(x) == id;
    var k :| 0 <= k < |rs| && rs[k] == x;
    assert t[k] == replacement;
    var i :| 0 <= i < |t| && t[i] == r.value && IdOf(t[i]) == id &&
             forall j :: 0 <= j < i ==> IdOf(t[j]) != id;
    assert IdOf(rs[i]) == id;
  }

  /** After filtering an id out, it cannot be found any more. */
  lemma FindAfterRemove(rs: seq<Record>, id: Value)
    ensures FindId(WithoutId(rs, id), id) == None
  {
  }

  /** xs.filter((_, i) => i !== index): the element at index is dropped
      when index is a position of xs, and nothing otherwise. */
  function WithoutIndex<T>(xs: seq<T>, index: int): (t: seq<T>)
    ensures 0 <= index < |xs| ==> |t| == |xs| - 1
    ensures 0 <= index < |xs| ==> forall i :: 0 <= i < |t| ==> t[i] == if i < index then xs[i] else xs[i + 1]
    ensures !(0 <= index < |xs|) ==> t == xs
  {
    if 0 <= index < |xs| then xs[..index] + xs[index + 1..] else xs
  }

  /** xs[index], undefined outside the array. */
  function At(xs: seq<Value>, index: int): (v: Value)
    ensures 0 <= index < |xs| ==> v == xs[index] && v in xs
    ensures !(0 <= index < |xs|) ==> v == Undefined
  {
    if 0 <= index < |xs| then xs[index] else Undefined
  }
}
