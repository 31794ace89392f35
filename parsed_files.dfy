/**
 * What both workflow readers (widesim/parse/workflow/Parser.java and
 * widesim/parse/dax/DaxParser.java) derive in the same way once a document
 * is read: file records, size totals, the last-wins file-size map, and the
 * `computeIfAbsent(k, new ArrayList).add(v)` grouping of pairs by key.
 */
module ParsedFiles {

  /** A file a task declares: its id and its size in bytes. */
  datatype File = File(id: string, size: int)

  /** `files.stream().map(File::getSize).reduce(seed, Long::sum)`. */
  function TotalSize(files: seq<File>, seed: int): int
  {
    if files == [] then seed else TotalSize(files[..|files| - 1], seed) + files[|files| - 1].size
  }

  /** The reduction's seed is added once to the plain total. */
  lemma {:induction false} TotalSizeShift(files: seq<File>, seed: int)
    ensures TotalSize(files, seed) == seed + TotalSize(files, 0)
  {
    if files != [] {
      TotalSizeShift(files[..|files| - 1], seed);
    }
  }

  /** With no negative size, a total is never below its seed. */
  lemma {:induction false} TotalSizeAtLeastSeed(files: seq<File>, seed: int)
    requires forall i :: 0 <= i < |files| ==> files[i].size >= 0
    ensures TotalSize(files, seed) >= seed
  {
    if files != [] {
      TotalSizeAtLeastSeed(files[..|files| - 1], seed);
    }
  }

  /** `fileMap.put(f.getId(), f.getSize())` for each file in turn: a later size for the same id replaces an earlier one. */
  function FileMapOf(files: seq<File>): map<string, int>
  {
    if files == [] then map[] else FileMapOf(files[..|files| - 1])[files[|files| - 1].id := files[|files| - 1].size]
  }

  /** The map holds exactly the listed ids, each with the size of its last listing. */
  lemma {:induction false} FileMapIff(files: seq<File>, id: string)
    ensures id in FileMapOf(files) <==> exists i :: 0 <= i < |files| && files[i].id == id
    ensures id in FileMapOf(files) ==>
      exists i :: 0 <= i < |files| && files[i].id == id && FileMapOf(files)[id] == files[i].size
        && forall j :: i < j < |files| ==> files[j].id != id
  {
    if files != [] {
      var init := files[..|files| - 1];
      FileMapIff(init, id);
      if id != files[|files| - 1].id {
        if exists i :: 0 <= i < |files| && files[i].id == id {
          var i :| 0 <= i < |files| && files[i].id == id;
          assert init[i] == files[i];
        }
        if id in FileMapOf(files) {
          var i :| 0 <= i < |init| && init[i].id == id && FileMapOf(init)[id] == init[i].size
            && forall j :: i < j < |init| ==> init[j].id != id;
          assert files[i] == init[i];
        }
      }
    }
  }

  /** `m.computeIfAbsent(k, new ArrayList).add(v)` for each pair (k, v) in turn. */
  function Grouped<K(==), V>(pairs: seq<(K, V)>): map<K, seq<V>>
  {
    if pairs == [] then map[]
    else
      var m := Grouped(pairs[..|pairs| - 1]);
      var p := pairs[|pairs| - 1];
      m[p.0 := (if p.0 in m then m[p.0] else []) + [p.1]]
  }

  /** The values paired with `k`, in pair order. */
  function ValuesOf<K(==), V>(pairs: seq<(K, V)>, k: K): seq<V>
  {
    if pairs == [] then []
    else ValuesOf(pairs[..|pairs| - 1], k) + (if pairs[|pairs| - 1].0 == k then [pairs[|pairs| - 1].1] else [])
  }

  /** A value is listed under `k` exactly when the pair (k, v) occurs. */
  lemma {:induction false} ValuesOfIff<K, V>(pairs: seq<(K, V)>, k: K, v: V)
    ensures v in ValuesOf(pairs, k) <==> exists i :: 0 <= i < |pairs| && pairs[i] == (k, v)
  {
    if pairs != [] {
      var init := pairs[..|pairs| - 1];
      ValuesOfIff(init, k, v);
      if exists i :: 0 <= i < |pairs| && pairs[i] == (k, v) {
        var i :| 0 <= i < |pairs| && pairs[i] == (k, v);
        if i < |init| { assert init[i] == pairs[i]; }
      }
      if exists i :: 0 <= i < |init| && init[i] == (k, v) {
        var i :| 0 <= i < |init| && init[i] == (k, v);
        assert pairs[i] == init[i];
      }
    }
  }

  /**
   * The grouping has a key for each key that occurs, and no other; under it
   * lie that key's values in pair order, so none of them is ever empty.
   */
  lemma {:induction false} GroupedIff<K, V>(pairs: seq<(K, V)>, k: K)
    ensures k in Grouped(pairs) <==> exists i :: 0 <= i < |pairs| && pairs[i].0 == k
    ensures k in Grouped(pairs) ==> Grouped(pairs)[k] == ValuesOf(pairs, k) && Grouped(pairs)[k] != []
    ensures k !in Grouped(pairs) ==> ValuesOf(pairs, k) == []
  {
    if pairs != [] {
      var init := pairs[..|pairs| - 1];
      GroupedIff(init, k);
      if exists i :: 0 <= i < |pairs| && pairs[i].0 == k {
        var i :| 0 <= i < |pairs| && pairs[i].0 == k;
        if i < |init| { assert init[i] == pairs[i]; }
      }
      if exists i :: 0 <= i < |init| && init[i].0 == k {
        var i :| 0 <= i < |init| && init[i].0 == k;
        assert pairs[i] == init[i];
      }
    }
  }

  /** The pairs with key and value swapped. */
  function Swapped<K, V>(pairs: seq<(K, V)>): (r: seq<(V, K)>)
    ensures |r| == |pairs| && forall i :: 0 <= i < |pairs| ==> r[i] == (pairs[i].1, pairs[i].0)
  {
    if pairs == [] then [] else Swapped(pairs[..|pairs| - 1]) + [(pairs[|pairs| - 1].1, pairs[|pairs| - 1].0)]
  }

  /** Grouping both ways round: v is listed under k exactly when k is listed under v in the swapped grouping. */
  lemma GroupedBothWays<K, V>(pairs: seq<(K, V)>, k: K, v: V)
    ensures (k in Grouped(pairs) && v in Grouped(pairs)[k]) <==> (v in Grouped(Swapped(pairs)) && k in Grouped(Swapped(pairs))[v])
  {
    var sw := Swapped(pairs);
    GroupedIff(pairs, k);
    GroupedIff(sw, v);
    ValuesOfIff(pairs, k, v);
    ValuesOfIff(sw, v, k);
    if exists i :: 0 <= i < |pairs| && pairs[i] == (k, v) {
      var i :| 0 <= i < |pairs| && pairs[i] == (k, v);
      assert sw[i] == (v, k);
    }
    if exists i :: 0 <= i < |sw| && sw[i] == (v, k) {
      var i :| 0 <= i < |sw| && sw[i] == (v, k);
      assert pairs[i] == (k, v);
    }
  }

  /** One more pair: the grouping of a longer prefix is one computeIfAbsent-and-add step. */
  lemma GroupedStep<K, V>(pairs: seq<(K, V)>, i: int)
    requires 0 <= i < |pairs|
    ensures Grouped(pairs[..i + 1]) == var m := Grouped(pairs[..i]); m[pairs[i].0 := (if pairs[i].0 in m then m[pairs[i].0] else []) + [pairs[i].1]]
  {
    assert pairs[..i + 1][..i] == pairs[..i];
  }

  /** Appending a pair is one computeIfAbsent-and-add step on the grouping. */
  lemma GroupedAppend<K, V>(pairs: seq<(K, V)>, p: (K, V))
    ensures Grouped(pairs + [p]) == var m := Grouped(pairs); m[p.0 := (if p.0 in m then m[p.0] else []) + [p.1]]
  {
    assert (pairs + [p])[..|pairs|] == pairs;
  }

  /** The computeIfAbsent-and-add loop over a list of pairs. */
  method Group<K(==), V>(pairs: seq<(K, V)>) returns (groups: map<K, seq<V>>)
    ensures groups == Grouped(pairs)
  {
    groups := map[];
    for i := 0 to |pairs|
      invariant groups == Grouped(pairs[..i])
    {
      var (key, value) := pairs[i];
      if key !in groups {
        groups := groups[key := []];
      }
      GroupedStep(pairs, i);
      groups := groups[key := groups[key] + [value]];
    }
    assert pairs[..|pairs|] == pairs;
  }
}
