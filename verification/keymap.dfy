/** Hierarchical keymaps and their flattening into the client's static keysym table.

    A keymap node names a parent (or none) and lists keysym descriptions in an
    array that ends at the first entry whose keysym is 0. Loading a node loads
    its parent first and then copies the node's own entries, in array order,
    into a flat table indexed by keysym. Before the first load the table is all
    zero, so a keysym nobody defines reads back as the all-zero description.
 */
module Keymaps {
  import opened Results

  /** One keysym description: the keysym it is stored under, the scancode sent
      for it and the scancode flags. Loading copies the whole entry. */
  datatype KeysymDesc = KeysymDesc(keysym: int, scancode: int, flags: int)

  /** The all-zero description the cleared table holds in every slot. */
  const Zero := KeysymDesc(0, 0, 0)

  /** A keymap node: its name, its mapping array (terminated by an entry with
      keysym 0), an optional parent, and the server keyboard layout it selects.
      Being an inductive datatype, every parent chain is finite and acyclic. */
  datatype Keymap = Keymap(name: string, mapping: seq<KeysymDesc>, parent: Option<Keymap>, layout: int)

  /** The flat keysym table. Keysyms absent from the map hold `Zero`. */
  type Table = map<int, KeysymDesc>

  /** The cleared table the client starts from. */
  const Cleared: Table := map[]

  /** The entry the table holds for keysym `k`. */
  function Lookup(t: Table, k: int): KeysymDesc {
    if k in t then t[k] else Zero
  }

  /** Every stored entry sits under its own keysym. */
  ghost predicate WellIndexed(t: Table) {
    forall k :: k in t ==> t[k].keysym == k
  }

  /** The keysyms a sequence of entries would write. */
  function Keysyms(entries: seq<KeysymDesc>): set<int> {
    set i | 0 <= i < |entries| :: entries[i].keysym
  }

  /** The entries of a mapping array that loading copies: those before the
      first sentinel (keysym 0), or all of them when there is no sentinel. */
  function Active(mapping: seq<KeysymDesc>): (r: seq<KeysymDesc>)
    ensures |r| <= |mapping| && r == mapping[..|r|]
    ensures forall i :: 0 <= i < |r| ==> r[i].keysym != 0
    ensures |r| < |mapping| ==> mapping[|r|].keysym == 0
  {
    if |mapping| == 0 || mapping[0].keysym == 0 then []
    else [mapping[0]] + Active(mapping[1..])
  }

  /** Copying a mapping array into the table, one entry at a time in array
      order, stopping at the sentinel. */
  function LoadMapping(t: Table, mapping: seq<KeysymDesc>): (r: Table)
    ensures r.Keys == t.Keys + Keysyms(Active(mapping))
    ensures forall k :: k !in Keysyms(Active(mapping)) ==> Lookup(r, k) == Lookup(t, k)
    ensures WellIndexed(t) ==> WellIndexed(r)
    decreases |mapping|
  {
    if |mapping| == 0 || mapping[0].keysym == 0 then t
    else
      KeysymsOfActive(mapping);
      LoadMapping(t[mapping[0].keysym := mapping[0]], mapping[1..])
  }

  /** The keysyms an array writes: its first entry's, then those of the rest. */
  lemma KeysymsOfActive(mapping: seq<KeysymDesc>)
    requires |mapping| > 0 && mapping[0].keysym != 0
    ensures Keysyms(Active(mapping)) == {mapping[0].keysym} + Keysyms(Active(mapping[1..]))
  {
    var a := Active(mapping);
    assert a == [mapping[0]] + Active(mapping[1..]);
    forall k | k in Keysyms(a)
      ensures k in {mapping[0].keysym} + Keysyms(Active(mapping[1..]))
    {
      var i :| 0 <= i < |a| && a[i].keysym == k;
      if i > 0 {
        assert Active(mapping[1..])[i - 1] == a[i];
      }
    }
    forall k | k in Keysyms(Active(mapping[1..]))
      ensures k in Keysyms(a)
    {
      var i :| 0 <= i < |Active(mapping[1..])| && Active(mapping[1..])[i].keysym == k;
      assert a[i + 1] == Active(mapping[1..])[i];
    }
    assert a[0].keysym in Keysyms(a);
  }

  /** Loading a keymap: its parent first (if any), then its own mapping. */
  function LoadKeymap(t: Table, km: Keymap): Table
    decreases km
  {
    var base := if km.parent.Some? then LoadKeymap(t, km.parent.value) else t;
    LoadMapping(base, km.mapping)
  }

  /** The active entries of every node of the chain, root first: the order in
      which loading writes them. */
  function ChainEntries(km: Keymap): (r: seq<KeysymDesc>)
    ensures forall i :: 0 <= i < |r| ==> r[i].keysym != 0
    decreases km
  {
    if km.parent.Some? then ChainEntries(km.parent.value) + Active(km.mapping)
    else Active(km.mapping)
  }

  /** Entry `i` of `entries` is the last one for its keysym. */
  ghost predicate LastFor(entries: seq<KeysymDesc>, i: int) {
    0 <= i < |entries| && forall j :: i < j < |entries| ==> entries[j].keysym != entries[i].keysym
  }

  // ---------------------------------------------------------------------
  // One mapping array
  // ---------------------------------------------------------------------

  /** Within one mapping array the later of two entries for the same keysym
      wins: the table ends up holding the last active entry for each keysym. */
  lemma {:induction false} LoadMappingLastWins(t: Table, mapping: seq<KeysymDesc>, i: int)
    requires LastFor(Active(mapping), i)
    ensures Lookup(LoadMapping(t, mapping), Active(mapping)[i].keysym) == Active(mapping)[i]
    decreases |mapping|
  {
    var a := Active(mapping);
    var k := a[i].keysym;
    assert mapping[0].keysym != 0 && a == [mapping[0]] + Active(mapping[1..]);
    var t' := t[mapping[0].keysym := mapping[0]];
    if i == 0 {
      assert k !in Keysyms(Active(mapping[1..])) by {
        forall j | 0 <= j < |Active(mapping[1..])|
          ensures Active(mapping[1..])[j].keysym != k
        {
          assert Active(mapping[1..])[j] == a[j + 1];
        }
      }
    } else {
      assert LastFor(Active(mapping[1..]), i - 1) by {
        forall j | i - 1 < j < |Active(mapping[1..])|
          ensures Active(mapping[1..])[j].keysym != Active(mapping[1..])[i - 1].keysym
        {
          assert Active(mapping[1..])[j] == a[j + 1];
        }
      }
      LoadMappingLastWins(t', mapping[1..], i - 1);
    }
  }

  /** Nothing at or after the sentinel is ever read: cutting the array at a
      sentinel does not change what loading it writes. */
  lemma {:induction false} LoadMappingStopsAtSentinel(t: Table, mapping: seq<KeysymDesc>, i: int)
    requires 0 <= i < |mapping| && mapping[i].keysym == 0
    ensures LoadMapping(t, mapping) == LoadMapping(t, mapping[..i])
    decreases i
  {
    var prefix := mapping[..i];
    if i == 0 {
      assert prefix == [];
    } else if mapping[0].keysym == 0 {
      assert prefix[0] == mapping[0];
    } else {
      var t' := t[mapping[0].keysym := mapping[0]];
      LoadMappingStopsAtSentinel(t', mapping[1..], i - 1);
      assert prefix[0] == mapping[0] && prefix[1..] == mapping[1..][..i - 1];
    }
  }

  /** Loading two sentinel-free runs one after the other is loading their
      concatenation. */
  lemma {:induction false} LoadMappingAppend(t: Table, a: seq<KeysymDesc>, b: seq<KeysymDesc>)
    requires forall i :: 0 <= i < |a| ==> a[i].keysym != 0
    ensures LoadMapping(t, a + b) == LoadMapping(LoadMapping(t, a), b)
    decreases |a|
  {
    if |a| == 0 {
      assert a + b == b;
    } else {
      var t' := t[a[0].keysym := a[0]];
      assert (a + b)[0] == a[0] && (a + b)[1..] == a[1..] + b;
      LoadMappingAppend(t', a[1..], b);
    }
  }

  /** A sentinel-free sequence is its own active part. */
  lemma {:induction false} ActiveOfSentinelFree(a: seq<KeysymDesc>)
    requires forall i :: 0 <= i < |a| ==> a[i].keysym != 0
    ensures Active(a) == a
    decreases |a|
  {
    if |a| > 0 {
      ActiveOfSentinelFree(a[1..]);
    }
  }

  // ---------------------------------------------------------------------
  // A chain of keymaps
  // ---------------------------------------------------------------------

  /** Loading a keymap is loading the active entries of its whole chain, root
      first, as one flat run: the parent is complete before the child writes. */
  lemma {:induction false} LoadKeymapIsFlatLoad(t: Table, km: Keymap)
    ensures LoadKeymap(t, km) == LoadMapping(t, ChainEntries(km))
    decreases km
  {
    ActiveOfSentinelFree(Active(km.mapping));
    if km.parent.Some? {
      var p := km.parent.value;
      LoadKeymapIsFlatLoad(t, p);
      LoadMappingAppend(t, ChainEntries(p), Active(km.mapping));
      assert LoadMapping(LoadKeymap(t, p), km.mapping) == LoadMapping(LoadKeymap(t, p), Active(km.mapping))
        by { ActiveLoadsLikeMapping(LoadKeymap(t, p), km.mapping); }
    } else {
      ActiveLoadsLikeMapping(t, km.mapping);
    }
  }

  /** Loading a mapping array is loading its active prefix. */
  lemma ActiveLoadsLikeMapping(t: Table, mapping: seq<KeysymDesc>)
    ensures LoadMapping(t, mapping) == LoadMapping(t, Active(mapping))
  {
    var n := |Active(mapping)|;
    ActiveOfSentinelFree(Active(mapping));
    if n < |mapping| {
      LoadMappingStopsAtSentinel(t, mapping, n);
    } else {
      assert mapping == Active(mapping);
    }
  }

  /** Last writer wins across the chain: for every keysym the flat table holds
      the last entry for it in root-to-leaf order, so a descendant's entry
      overrides every ancestor's, and within a node the later entry wins. */
  lemma LoadKeymapLastWins(t: Table, km: Keymap, i: int)
    requires LastFor(ChainEntries(km), i)
    ensures Lookup(LoadKeymap(t, km), ChainEntries(km)[i].keysym) == ChainEntries(km)[i]
  {
    LoadKeymapIsFlatLoad(t, km);
    ActiveOfSentinelFree(ChainEntries(km));
    LoadMappingLastWins(t, ChainEntries(km), i);
  }

  /** A node's own definition of a keysym beats everything its ancestors say. */
  lemma NodeOverridesAncestors(t: Table, km: Keymap, i: int)
    requires LastFor(Active(km.mapping), i)
    ensures Lookup(LoadKeymap(t, km), Active(km.mapping)[i].keysym) == Active(km.mapping)[i]
  {
    var base := if km.parent.Some? then LoadKeymap(t, km.parent.value) else t;
    LoadMappingLastWins(base, km.mapping, i);
  }

  /** A keysym the node itself does not define reads exactly as after loading
      the parent alone: the child's entries touch nothing else. */
  lemma InheritedFromParent(t: Table, km: Keymap, k: int)
    requires km.parent.Some? && k !in Keysyms(Active(km.mapping))
    ensures Lookup(LoadKeymap(t, km), k) == Lookup(LoadKeymap(t, km.parent.value), k)
  {
  }

  /** The frame condition: a keysym no node of the chain defines keeps its
      initial table value; in particular keysym 0 is never written. */
  lemma {:induction false} LoadKeymapFrame(t: Table, km: Keymap, k: int)
    requires k !in Keysyms(ChainEntries(km))
    ensures Lookup(LoadKeymap(t, km), k) == Lookup(t, k)
    decreases km
  {
    if km.parent.Some? {
      var p := km.parent.value;
      assert Keysyms(ChainEntries(p)) <= Keysyms(ChainEntries(km)) by {
        forall j | 0 <= j < |ChainEntries(p)|
          ensures ChainEntries(p)[j].keysym in Keysyms(ChainEntries(km))
        {
          assert ChainEntries(km)[j] == ChainEntries(p)[j];
        }
      }
      assert Keysyms(Active(km.mapping)) <= Keysyms(ChainEntries(km)) by {
        forall j | 0 <= j < |Active(km.mapping)|
          ensures Active(km.mapping)[j].keysym in Keysyms(ChainEntries(km))
        {
          assert ChainEntries(km)[|ChainEntries(p)| + j] == Active(km.mapping)[j];
        }
      }
      LoadKeymapFrame(t, p, k);
    } else {
      assert ChainEntries(km) == Active(km.mapping);
    }
  }

  /** The sentinel keysym 0 is never written, whatever the chain. */
  lemma SentinelNeverWritten(t: Table, km: Keymap)
    ensures Lookup(LoadKeymap(t, km), 0) == Lookup(t, 0)
  {
    LoadKeymapFrame(t, km, 0);
  }

  /** The table the client builds from a cleared start: each written slot holds
      an entry for its own keysym, and exactly the keysyms of the chain are
      written; every other keysym still reads as zero. */
  function LoadClientKeymap(km: Keymap): (r: Table)
    ensures WellIndexed(r)
    ensures r.Keys == Keysyms(ChainEntries(km))
    ensures forall k :: k !in Keysyms(ChainEntries(km)) ==> Lookup(r, k) == Zero
  {
    LoadKeymapIsFlatLoad(Cleared, km);
    ActiveOfSentinelFree(ChainEntries(km));
    LoadKeymap(Cleared, km)
  }

  // ---------------------------------------------------------------------
  // The loop as written
  // ---------------------------------------------------------------------

  /** The copy loop over one mapping array, advancing an index the way the
      C loop advances `mapping` until it reaches the sentinel. */
  method CopyMapping(t: Table, mapping: seq<KeysymDesc>) returns (r: Table, copied: nat)
    ensures copied == |Active(mapping)|
    ensures r == LoadMapping(t, mapping)
  {
    r := t;
    copied := 0;
    while copied < |mapping| && mapping[copied].keysym != 0
      invariant copied <= |Active(mapping)|
      invariant Active(mapping[copied..]) == Active(mapping)[copied..]
      invariant LoadMapping(r, mapping[copied..]) == LoadMapping(t, mapping)
      decreases |mapping| - copied
    {
      var rest := mapping[copied..];
      assert rest[0] == mapping[copied] && rest[1..] == mapping[copied + 1..];
      r := r[mapping[copied].keysym := mapping[copied]];
      copied := copied + 1;
    }
  }

  /** The recursive load: the parent chain first, then this node's loop. */
  method LoadKeymapInto(t: Table, km: Keymap) returns (r: Table)
    ensures r == LoadKeymap(t, km)
    decreases km
  {
    var base := t;
    if km.parent.Some? {
      base := LoadKeymapInto(t, km.parent.value);
    }
    var copied;
    r, copied := CopyMapping(base, km.mapping);
  }
}
