/** Small lookup tables kept as ordered lists of entries, the way the sources declare
    their extension-to-MIME-type tables. */
module Tables {
  import opened Wrappers

  /** The value a table gives a key, from its first entry with that key. */
  function Lookup<V>(table: seq<(string, V)>, key: string): Option<V>
  {
    if table == [] then None
    else if table[0].0 == key then Some(table[0].1)
    else Lookup(table[1..], key)
  }

  /** A lookup finds exactly the table's keys, and only values the table pairs with them. */
  lemma {:induction false} LookupFinds<V>(table: seq<(string, V)>, key: string)
    ensures Lookup(table, key).Some? <==> exists i :: 0 <= i < |table| && table[i].0 == key
    ensures Lookup(table, key).Some? ==> exists i :: 0 <= i < |table| && table[i] == (key, Lookup(table, key).value)
  {
    if table != [] && table[0].0 != key {
      LookupFinds(table[1..], key);
      if Lookup(table, key).Some? {
        var i :| 0 <= i < |table[1..]| && table[1..][i] == (key, Lookup(table, key).value);
        assert table[i + 1] == table[1..][i];
      }
      if exists i :: 0 <= i < |table| && table[i].0 == key {
        var i :| 0 <= i < |table| && table[i].0 == key;
        assert table[1..][i - 1] == table[i];
      }
    }
  }

  /** A four-entry table's lookup tries the entries in order. */
  lemma {:induction false} LookupOf4<V>(table: seq<(string, V)>, key: string)
    requires |table| == 4
    ensures Lookup(table, key) ==
      if table[0].0 == key then Some(table[0].1)
      else if table[1].0 == key then Some(table[1].1)
      else if table[2].0 == key then Some(table[2].1)
      else if table[3].0 == key then Some(table[3].1)
      else None
  {
    var t1 := table[1..];
    var t2 := t1[1..];
    var t3 := t2[1..];
    assert t3[1..] == [] && t3[0] == table[3] && t2[0] == table[2] && t1[0] == table[1];
    assert Lookup(t3, key) == if table[3].0 == key then Some(table[3].1) else None;
    assert Lookup(t2, key) == if table[2].0 == key then Some(table[2].1) else Lookup(t3, key);
    assert Lookup(t1, key) == if table[1].0 == key then Some(table[1].1) else Lookup(t2, key);
  }

  /** Whether key is one of the listed values (Python's `in` on a set of strings). */
  function Member(values: seq<string>, key: string): bool
  {
    if values == [] then false else values[0] == key || Member(values[1..], key)
  }

  lemma {:induction false} MemberIn(values: seq<string>, key: string)
    ensures Member(values, key) <==> key in values
  {
    if values != [] {
      MemberIn(values[1..], key);
      assert values == [values[0]] + values[1..];
    }
  }

  /** A four-value membership test compares with each value. */
  lemma {:induction false} MemberOf4(values: seq<string>, key: string)
    requires |values| == 4
    ensures Member(values, key) <==> key == values[0] || key == values[1] || key == values[2] || key == values[3]
  {
    var v1 := values[1..];
    var v2 := v1[1..];
    var v3 := v2[1..];
    assert v3[1..] == [] && v3[0] == values[3] && v2[0] == values[2] && v1[0] == values[1];
    assert Member(v3, key) == (key == values[3]);
    assert Member(v2, key) == (key == values[2] || Member(v3, key));
    assert Member(v1, key) == (key == values[1] || Member(v2, key));
  }
}
