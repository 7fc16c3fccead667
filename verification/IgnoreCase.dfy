/**
 * `Dictionary<string, V>` built with `StringComparer.OrdinalIgnoreCase`, as a value: each
 * operation returns the new contents.
 *
 * A table maps the case-folded form of a name to the entry stored for it. The entry keeps the
 * name as it was first added: assigning through the indexer to a name already present (in any
 * casing) replaces the value and keeps the stored name.
 */
module IgnoreCase {
  import opened Wrappers

  /** Ordinal upper-casing of one character (ASCII letters only). */
  function ToUpper(c: char): char
  {
    if 'a' <= c <= 'z' then (c as int - 32) as char else c
  }

  /** The normal form under which two names compare equal ignoring case. */
  function Fold(s: string): (f: string)
    ensures |f| == |s|
    ensures |s| > 0 ==> f[0] == ToUpper(s[0])
  {
    seq(|s|, i requires 0 <= i < |s| => ToUpper(s[i]))
  }

  predicate EqualsIgnoreCase(a: string, b: string)
  {
    Fold(a) == Fold(b)
  }

  /** Folding is idempotent: a folded name is its own normal form. */
  lemma FoldIdempotent(s: string)
    ensures Fold(Fold(s)) == Fold(s)
  {
    var f := Fold(s);
    assert forall i | 0 <= i < |s| :: Fold(f)[i] == ToUpper(ToUpper(s[i])) == f[i];
  }

  datatype Entry<V> = Entry(name: string, value: V)

  /** The contents of a case-insensitive dictionary: folded name to stored entry. */
  type Table<V> = map<string, Entry<V>>

  /** Every entry sits under the folded form of its own stored name. */
  predicate WellKeyed<V>(t: Table<V>)
  {
    forall k | k in t :: Fold(t[k].name) == k
  }

  /** In a well-keyed table no two stored names differ only by case. */
  lemma NoNamesDifferOnlyByCase<V>(t: Table<V>, k1: string, k2: string)
    requires WellKeyed(t) && k1 in t && k2 in t && k1 != k2
    ensures !EqualsIgnoreCase(t[k1].name, t[k2].name)
  {
  }

  /** `TryGetValue`: the value stored under a name, in any casing. */
  function Lookup<V>(t: Table<V>, name: string): Option<V>
  {
    if Fold(name) in t then Some(t[Fold(name)].value) else None
  }

  /** `dictionary[name] = value`: replaces the value, keeping a name already stored. */
  function Insert<V>(t: Table<V>, name: string, value: V): (r: Table<V>)
    ensures WellKeyed(t) ==> WellKeyed(r)
    ensures r.Keys == t.Keys + {Fold(name)}
    ensures Lookup(r, name) == Some(value)
    ensures Fold(name) in t ==> r[Fold(name)].name == t[Fold(name)].name
    ensures Fold(name) !in t ==> r[Fold(name)].name == name
    ensures forall k | k in t && k != Fold(name) :: r[k] == t[k]
  {
    var k := Fold(name);
    t[k := Entry(if k in t then t[k].name else name, value)]
  }

  /**
   * `Add(name, value)`. .NET throws ArgumentException when the name is already present in any
   * casing; callers here must show that it is not.
   */
  function Add<V>(t: Table<V>, name: string, value: V): Table<V>
    requires Fold(name) !in t
  {
    t[Fold(name) := Entry(name, value)]
  }

  /** A successful add keeps the table well keyed, adds the name and keeps every other entry. */
  lemma AddFacts<V>(t: Table<V>, name: string, value: V)
    requires Fold(name) !in t
    ensures WellKeyed(t) ==> WellKeyed(Add(t, name, value))
    ensures Add(t, name, value).Keys == t.Keys + {Fold(name)}
    ensures Add(t, name, value)[Fold(name)] == Entry(name, value)
    ensures forall k | k in t :: Add(t, name, value)[k] == t[k]
  {
  }

  /**
   * `Add(name, value)` with its ArgumentException caught: the table is unchanged when the name
   * is already present in any casing.
   */
  function TryAdd<V>(t: Table<V>, name: string, value: V): Table<V>
  {
    if Fold(name) in t then t else t[Fold(name) := Entry(name, value)]
  }

  /** A failed add changes nothing; a successful one adds the name and keeps every other entry. */
  lemma TryAddFacts<V>(t: Table<V>, name: string, value: V)
    ensures WellKeyed(t) ==> WellKeyed(TryAdd(t, name, value))
    ensures TryAdd(t, name, value).Keys == t.Keys + {Fold(name)}
    ensures Fold(name) !in t ==> TryAdd(t, name, value)[Fold(name)] == Entry(name, value)
    ensures forall k | k in t :: TryAdd(t, name, value)[k] == t[k]
  {
  }

  /** The folded names of a sequence of name/value pairs. */
  function NamesOf<V>(items: seq<(string, V)>): set<string>
    decreases |items|
  {
    if |items| == 0 then {} else NamesOf(items[..|items| - 1]) + {Fold(items[|items| - 1].0)}
  }

  /** A folded name is among NamesOf exactly when some item carries it. */
  lemma {:induction false} NamesOfMember<V>(items: seq<(string, V)>, x: string)
    ensures x in NamesOf(items) <==> exists i :: 0 <= i < |items| && Fold(items[i].0) == x
    decreases |items|
  {
    if |items| > 0 {
      var n := |items| - 1;
      NamesOfMember(items[..n], x);
      if x in NamesOf(items[..n]) {
        var i :| 0 <= i < n && Fold(items[..n][i].0) == x;
        assert items[i] == items[..n][i];
      }
      if exists i :: 0 <= i < |items| && Fold(items[i].0) == x {
        var i :| 0 <= i < |items| && Fold(items[i].0) == x;
        if i < n {
          assert items[i] == items[..n][i];
        }
      }
    }
  }

  /** `foreach (var item in items) t[item.Key] = item.Value;` */
  function Overlay<V>(t: Table<V>, items: seq<(string, V)>): Table<V>
    decreases |items|
  {
    if |items| == 0 then t
    else Insert(Overlay(t, items[..|items| - 1]), items[|items| - 1].0, items[|items| - 1].1)
  }

  lemma {:induction false} OverlayWellKeyed<V>(t: Table<V>, items: seq<(string, V)>)
    requires WellKeyed(t)
    ensures WellKeyed(Overlay(t, items))
    decreases |items|
  {
    if |items| > 0 {
      OverlayWellKeyed(t, items[..|items| - 1]);
    }
  }

  /** An overlay adds exactly the names of its items. */
  lemma {:induction false} OverlayKeys<V>(t: Table<V>, items: seq<(string, V)>)
    ensures Overlay(t, items).Keys == t.Keys + NamesOf(items)
    decreases |items|
  {
    if |items| > 0 {
      OverlayKeys(t, items[..|items| - 1]);
    }
  }

  /** The last item naming a key (in any casing) decides its value. */
  lemma {:induction false} OverlayLastWins<V>(t: Table<V>, items: seq<(string, V)>, i: nat)
    requires i < |items|
    requires forall j :: i < j < |items| ==> Fold(items[j].0) != Fold(items[i].0)
    ensures Lookup(Overlay(t, items), items[i].0) == Some(items[i].1)
    decreases |items|
  {
    var n := |items| - 1;
    var prev := Overlay(t, items[..n]);
    assert Overlay(t, items) == Insert(prev, items[n].0, items[n].1);
    if i < n {
      var init := items[..n];
      assert init[i] == items[i];
      assert forall j :: i < j < n ==> init[j] == items[j];
      OverlayLastWins(t, init, i);
      var k := Fold(items[i].0);
      assert k in prev && prev[k].value == items[i].1;
      assert k != Fold(items[n].0);
    }
  }

  /**
   * A key that no item names keeps its entry, stored name and value; a key that an item names
   * keeps the name it had in the table.
   */
  lemma {:induction false} OverlayUntouched<V>(t: Table<V>, items: seq<(string, V)>, k: string)
    requires Fold(k) !in NamesOf(items)
    ensures Fold(k) in Overlay(t, items) <==> Fold(k) in t
    ensures Fold(k) in t ==> Overlay(t, items)[Fold(k)] == t[Fold(k)]
    ensures Lookup(Overlay(t, items), k) == Lookup(t, k)
    decreases |items|
  {
    if |items| > 0 {
      OverlayUntouched(t, items[..|items| - 1], k);
    }
  }

  /** An overlay never renames: a key already in the table keeps its stored name. */
  lemma {:induction false} OverlayKeepsNames<V>(t: Table<V>, items: seq<(string, V)>, k: string)
    requires k in t
    ensures k in Overlay(t, items) && Overlay(t, items)[k].name == t[k].name
    decreases |items|
  {
    if |items| > 0 {
      OverlayKeepsNames(t, items[..|items| - 1], k);
    }
  }

  /** `foreach (var item in items) dictionary[item.Key] = item.Value;` on a copy of `t`. */
  method SetAll<V>(t: Table<V>, items: seq<(string, V)>) returns (r: Table<V>)
    ensures r == Overlay(t, items)
    ensures WellKeyed(t) ==> WellKeyed(r)
  {
    r := t;
    for i := 0 to |items|
      invariant r == Overlay(t, items[..i])
      invariant WellKeyed(t) ==> WellKeyed(r)
    {
      assert items[..i + 1][..i] == items[..i];
      r := Insert(r, items[i].0, items[i].1);
    }
    assert items[..|items|] == items;
  }
}
