/** Lookup of attributes by name over the mesh's ordered attribute
    descriptors: how many slots carry a name, and which slot is the `n`-th
    (zero-based, in stored order) of those. */
module AttributeLookup {
  import opened MeshTypes
  import opened MeshDescriptors

  /** The number of slots of `attributes` that carry `name`. */
  function CountOf(attributes: seq<MeshAttributeData>, name: MeshAttributeName): (n: nat)
    ensures n <= |attributes|
  {
    if attributes == [] then 0
    else CountOf(attributes[..|attributes| - 1], name)
         + (if attributes[|attributes| - 1].name == name then 1 else 0)
  }

  lemma CountOfWhole(attributes: seq<MeshAttributeData>, name: MeshAttributeName)
    ensures CountOf(attributes[..|attributes|], name) == CountOf(attributes, name)
  {
    assert attributes[..|attributes|] == attributes;
  }

  /** Slot `i` is occurrence `n` of `name`: it carries the name, and exactly
      `n` earlier slots do. */
  ghost predicate IsOccurrence(attributes: seq<MeshAttributeData>, name: MeshAttributeName, n: nat, i: nat)
  {
    i < |attributes| && attributes[i].name == name && CountOf(attributes[..i], name) == n
  }

  /** The slot of occurrence `n` of `name`. */
  function NthSlot(attributes: seq<MeshAttributeData>, name: MeshAttributeName, n: nat): (i: nat)
    requires n < CountOf(attributes, name)
    ensures IsOccurrence(attributes, name, n, i)
  {
    var last := |attributes| - 1;
    var prefix := attributes[..last];
    if attributes[last].name == name && CountOf(prefix, name) == n then last
    else
      var i := NthSlot(prefix, name, n);
      assert prefix[..i] == attributes[..i];
      i
  }

  /** Counting a sequence counts its two parts. */
  lemma {:induction false} CountOfSplit(attributes: seq<MeshAttributeData>, name: MeshAttributeName, j: nat)
    requires j <= |attributes|
    ensures CountOf(attributes, name) == CountOf(attributes[..j], name) + CountOf(attributes[j..], name)
    decreases |attributes|
  {
    if j < |attributes| {
      var last := |attributes| - 1;
      var prefix := attributes[..last];
      CountOfSplit(prefix, name, j);
      assert prefix[..j] == attributes[..j];
      assert attributes[j..][..|attributes[j..]| - 1] == prefix[j..];
    } else {
      assert attributes[..j] == attributes;
    }
  }

  /** A name is counted exactly when some slot carries it. */
  lemma {:induction false} CountOfPositive(attributes: seq<MeshAttributeData>, name: MeshAttributeName)
    ensures CountOf(attributes, name) > 0 <==> exists i :: 0 <= i < |attributes| && attributes[i].name == name
  {
    if attributes != [] {
      var last := |attributes| - 1;
      var prefix := attributes[..last];
      CountOfPositive(prefix, name);
      if CountOf(prefix, name) > 0 {
        var i :| 0 <= i < |prefix| && prefix[i].name == name;
        assert attributes[i].name == name;
      }
      if exists i :: 0 <= i < |attributes| && attributes[i].name == name {
        var i :| 0 <= i < |attributes| && attributes[i].name == name;
        if i < last {
          assert prefix[i].name == name;
        }
      }
    }
  }

  /** A slot that carries `name` adds one to the count of every longer
      prefix. */
  lemma CountOfPastOccurrence(attributes: seq<MeshAttributeData>, name: MeshAttributeName, lo: nat, hi: nat)
    requires lo < hi <= |attributes| && attributes[lo].name == name
    ensures CountOf(attributes[..hi], name) > CountOf(attributes[..lo], name)
  {
    var s := attributes[..hi];
    CountOfSplit(s, name, lo);
    CountOfSplit(s[lo..], name, 1);
    assert s[..lo] == attributes[..lo];
    assert s[lo..][..1] == [attributes[lo]];
    assert CountOf([attributes[lo]], name) == 1 by {
      assert [attributes[lo]][..0] == [];
    }
  }

  /** Occurrence `n` sits at one slot only: the one `NthSlot` names. So a
      lookup by name and occurrence is determined by the stored order. */
  lemma OccurrenceUnique(attributes: seq<MeshAttributeData>, name: MeshAttributeName, n: nat, i: nat)
    requires IsOccurrence(attributes, name, n, i)
    ensures n < CountOf(attributes, name)
    ensures i == NthSlot(attributes, name, n)
  {
    CountOfPastOccurrence(attributes, name, i, |attributes|);
    assert attributes[..|attributes|] == attributes;
    var j := NthSlot(attributes, name, n);
    if j < i {
      CountOfPastOccurrence(attributes, name, j, i);
    } else if i < j {
      CountOfPastOccurrence(attributes, name, i, j);
    }
  }

  /** The ordering the lookup must follow: with descriptors
      Colors, Positions3D, Colors in that order, occurrences 0 and 1 of
      Colors are slots 0 and 2, and there is no occurrence 2. */
  lemma ColorsExample(a: MeshAttributeData, b: MeshAttributeData, c: MeshAttributeData)
    requires a.name == Colors && b.name == Positions3D && c.name == Colors
    ensures CountOf([a, b, c], Colors) == 2
    ensures NthSlot([a, b, c], Colors, 0) == 0
    ensures NthSlot([a, b, c], Colors, 1) == 2
  {
    var s := [a, b, c];
    assert s[..2] == [a, b] && s[..2][..1] == [a] && s[..2][..1][..0] == [];
    assert IsOccurrence(s, Colors, 0, 0);
    OccurrenceUnique(s, Colors, 0, 0);
    assert IsOccurrence(s, Colors, 1, 2);
    OccurrenceUnique(s, Colors, 1, 2);
  }
}
