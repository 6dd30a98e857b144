/**
 * The key renaming in `get_model` of `common/torch_utils.py`: a checkpoint saved
 * from a `DataParallel` model names its parameters `module.<name>`; before
 * loading, every key that starts with `module.` loses those seven characters and
 * the entries are copied, in order, into a fresh `OrderedDict`.
 */
module TorchUtils {
  import opened Strings

  const ModulePrefix: string := "module."

  /**
   * An `OrderedDict` from parameter names: the keys in insertion order and the
   * mapping itself.
   */
  datatype StateDict<V> = StateDict(keys: seq<string>, entries: map<string, V>)
  {
    /** The order lists every key of the mapping exactly once. */
    predicate Valid() {
      && (forall i, j :: 0 <= i < j < |keys| ==> keys[i] != keys[j])
      && (forall k :: k in keys ==> k in entries)
      && (forall k :: k in entries ==> k in keys)
    }
  }

  /** `d[k] = v` on an `OrderedDict`: a new key goes last, a present key keeps its place and takes the new value. */
  function Insert<V>(d: StateDict<V>, k: string, v: V): StateDict<V> {
    if k in d.entries then StateDict(d.keys, d.entries[k := v])
    else StateDict(d.keys + [k], d.entries[k := v])
  }

  /** Insertion keeps the order and the mapping in step. */
  lemma InsertKeepsValid<V>(d: StateDict<V>, k: string, v: V)
    requires d.Valid()
    ensures Insert(d, k, v).Valid()
  {
  }

  /** The name a checkpoint key is loaded under: `k[7:]` when `k` starts with `module.`, else `k`. */
  function Renamed(k: string): string {
    if StartsWith(k, ModulePrefix) then k[7..] else k
  }

  /** A key with the prefix loses exactly the prefix (`k[7:]` with 7 its length); any other key is kept. */
  lemma RenamedStripsPrefix(k: string)
    ensures StartsWith(k, ModulePrefix) ==> ModulePrefix + Renamed(k) == k
    ensures !StartsWith(k, ModulePrefix) ==> Renamed(k) == k
  {
    if StartsWith(k, ModulePrefix) {
      assert k == k[..7] + k[7..];
    }
  }

  /** Only one prefix is stripped. */
  lemma RenamedStripsOnce()
    ensures Renamed("module.module.a") == "module.a"
    ensures Renamed("module.") == "" && Renamed("modulea") == "modulea"
  {
    assert "module.module.a"[..7] == ModulePrefix;
    assert "modulea"[..7] != ModulePrefix by { assert "modulea"[6] != '.'; }
  }

  /** A prefixed name is renamed back to the name it was prefixed to. */
  lemma RenamedUndoesPrefix(k: string)
    ensures Renamed(ModulePrefix + k) == k
  {
    assert (ModulePrefix + k)[..7] == ModulePrefix;
  }

  /** The dictionary the loop has built after it has visited the keys `ks` in order. */
  function Remap<V>(ks: seq<string>, entries: map<string, V>): (d: StateDict<V>)
    requires forall k :: k in ks ==> k in entries
    ensures |d.keys| <= |ks|
    decreases |ks|
  {
    if ks == [] then StateDict([], map[])
    else
      var last := ks[|ks| - 1];
      Insert(Remap(ks[..|ks| - 1], entries), Renamed(last), entries[last])
  }

  /**
   * The loop of `get_model` that fills `model_state_cpu` from `model_state`:
   * its result is Remap of all the checkpoint's keys.
   */
  method StripModulePrefix<V>(modelState: StateDict<V>) returns (modelStateCpu: StateDict<V>)
    requires modelState.Valid()
    ensures modelStateCpu == Remap(modelState.keys, modelState.entries)
    ensures modelStateCpu.Valid() && |modelStateCpu.entries| <= |modelState.entries|
  {
    modelStateCpu := StateDict([], map[]);
    var i := 0;
    while i < |modelState.keys|
      invariant 0 <= i <= |modelState.keys|
      invariant modelStateCpu == Remap(modelState.keys[..i], modelState.entries)
    {
      var k := modelState.keys[i];
      RemapStep(modelState.keys, modelState.entries, i);
      if StartsWith(k, ModulePrefix) {
        var kNew := k[7..];
        assert kNew == Renamed(k);
        modelStateCpu := Insert(modelStateCpu, kNew, modelState.entries[k]);
      } else {
        modelStateCpu := Insert(modelStateCpu, k, modelState.entries[k]);
      }
      i := i + 1;
    }
    assert modelState.keys[..i] == modelState.keys;
    RemapValid(modelState.keys, modelState.entries);
    ValidSize(modelStateCpu);
    ValidSize(modelState);
  }

  /** The loaded dictionary is a valid `OrderedDict`. */
  lemma {:induction false} RemapValid<V>(ks: seq<string>, entries: map<string, V>)
    requires forall k :: k in ks ==> k in entries
    ensures Remap(ks, entries).Valid()
    decreases |ks|
  {
    if ks != [] {
      var n := |ks| - 1;
      RemapValid(ks[..n], entries);
      InsertKeepsValid(Remap(ks[..n], entries), Renamed(ks[n]), entries[ks[n]]);
    }
  }

  /** Visiting one more key inserts its renamed form. */
  lemma RemapStep<V>(ks: seq<string>, entries: map<string, V>, i: nat)
    requires forall k :: k in ks ==> k in entries
    requires i < |ks|
    ensures Remap(ks[..i + 1], entries) == Insert(Remap(ks[..i], entries), Renamed(ks[i]), entries[ks[i]])
  {
    assert ks[..i + 1][..i] == ks[..i];
  }

  /** The loaded names are exactly the renamed checkpoint keys: nothing is added, nothing dropped. */
  lemma {:induction false} RemapKeys<V>(ks: seq<string>, entries: map<string, V>, k: string)
    requires forall k :: k in ks ==> k in entries
    ensures k in Remap(ks, entries).entries <==> exists i :: 0 <= i < |ks| && Renamed(ks[i]) == k
    decreases |ks|
  {
    if ks != [] {
      var init := ks[..|ks| - 1];
      RemapKeys(init, entries, k);
      if exists i :: 0 <= i < |init| && Renamed(init[i]) == k {
        var i :| 0 <= i < |init| && Renamed(init[i]) == k;
        assert Renamed(ks[i]) == k;
      }
      if exists i :: 0 <= i < |ks| && Renamed(ks[i]) == k {
        var i :| 0 <= i < |ks| && Renamed(ks[i]) == k;
        if i < |init| {
          assert Renamed(init[i]) == k;
        }
      }
    }
  }

  /**
   * A key whose renamed form no later key shares is loaded with its own value; on
   * a collision such as `module.a` followed by `a`, the later key wins.
   */
  lemma {:induction false} RemapLastWins<V>(ks: seq<string>, entries: map<string, V>, i: nat)
    requires forall k :: k in ks ==> k in entries
    requires i < |ks|
    requires forall j :: i < j < |ks| ==> Renamed(ks[j]) != Renamed(ks[i])
    ensures Renamed(ks[i]) in Remap(ks, entries).entries
    ensures Remap(ks, entries).entries[Renamed(ks[i])] == entries[ks[i]]
    decreases |ks|
  {
    var init := ks[..|ks| - 1];
    if i < |init| {
      RemapLastWins(init, entries, i);
      assert Renamed(ks[|ks| - 1]) != Renamed(ks[i]);
    }
  }

  /** Every loaded value is the value of the last checkpoint key that was renamed to its name. */
  lemma {:induction false} RemapOrigin<V>(ks: seq<string>, entries: map<string, V>, k: string)
    requires forall k :: k in ks ==> k in entries
    requires k in Remap(ks, entries).entries
    ensures exists i ::
      && 0 <= i < |ks| && Renamed(ks[i]) == k
      && (forall j :: i < j < |ks| ==> Renamed(ks[j]) != k)
      && Remap(ks, entries).entries[k] == entries[ks[i]]
    decreases |ks|
  {
    var n := |ks| - 1;
    if Renamed(ks[n]) == k {
      RemapLastWins(ks, entries, n);
    } else {
      var init := ks[..n];
      var prev := Remap(init, entries);
      assert Remap(ks, entries).entries == prev.entries[Renamed(ks[n]) := entries[ks[n]]];
      RemapOrigin(init, entries, k);
      var i :| 0 <= i < |init| && Renamed(init[i]) == k
        && (forall j :: i < j < |init| ==> Renamed(init[j]) != k)
        && prev.entries[k] == entries[init[i]];
      assert forall j :: i < j < |ks| ==> Renamed(ks[j]) != k by {
        forall j | i < j < |ks| ensures Renamed(ks[j]) != k {
          if j < n { assert ks[j] == init[j]; }
        }
      }
      assert ks[i] == init[i];
    }
  }

  /** The renamed keys, in the order of the checkpoint. */
  function RenamedKeys(ks: seq<string>): (rs: seq<string>)
    ensures |rs| == |ks| && forall i :: 0 <= i < |ks| ==> rs[i] == Renamed(ks[i])
  {
    seq(|ks|, i requires 0 <= i < |ks| => Renamed(ks[i]))
  }

  /**
   * When no two keys are renamed to the same name, the loaded dictionary has the
   * renamed keys in checkpoint order, each with its own value.
   */
  lemma RemapWithoutCollisions<V>(ks: seq<string>, entries: map<string, V>)
    requires forall k :: k in ks ==> k in entries
    requires forall i, j :: 0 <= i < j < |ks| ==> Renamed(ks[i]) != Renamed(ks[j])
    ensures Remap(ks, entries).keys == RenamedKeys(ks)
    ensures forall i :: 0 <= i < |ks| ==>
      Renamed(ks[i]) in Remap(ks, entries).entries && Remap(ks, entries).entries[Renamed(ks[i])] == entries[ks[i]]
  {
    RemapOrderWithoutCollisions(ks, entries);
    forall i | 0 <= i < |ks|
      ensures Renamed(ks[i]) in Remap(ks, entries).entries && Remap(ks, entries).entries[Renamed(ks[i])] == entries[ks[i]]
    {
      RemapLastWins(ks, entries, i);
    }
  }

  lemma {:induction false} RemapOrderWithoutCollisions<V>(ks: seq<string>, entries: map<string, V>)
    requires forall k :: k in ks ==> k in entries
    requires forall i, j :: 0 <= i < j < |ks| ==> Renamed(ks[i]) != Renamed(ks[j])
    ensures Remap(ks, entries).keys == RenamedKeys(ks)
    decreases |ks|
  {
    if ks != [] {
      var n := |ks| - 1;
      var init := ks[..n];
      RemapOrderWithoutCollisions(init, entries);
      var prev := Remap(init, entries);
      RemapValid(init, entries);
      assert Renamed(ks[n]) !in prev.keys by {
        forall i | 0 <= i < |prev.keys| ensures prev.keys[i] != Renamed(ks[n]) {
          assert prev.keys[i] == Renamed(ks[i]);
        }
      }
      assert RenamedKeys(ks) == RenamedKeys(init) + [Renamed(ks[n])];
    }
  }

  /** Two valid dictionaries with the same key order and the same value at every key are equal. */
  lemma SameDict<V>(r: StateDict<V>, d: StateDict<V>)
    requires r.Valid() && d.Valid() && r.keys == d.keys
    requires forall i :: 0 <= i < |d.keys| ==> r.entries[d.keys[i]] == d.entries[d.keys[i]]
    ensures r == d
  {
    forall k | k in d.entries ensures k in r.entries && r.entries[k] == d.entries[k] {
      var i :| 0 <= i < |d.keys| && d.keys[i] == k;
    }
    assert r.entries == d.entries;
  }

  /** A checkpoint with no `module.` key loads as it is. */
  lemma NoPrefixIsIdentity<V>(d: StateDict<V>)
    requires d.Valid()
    requires forall i :: 0 <= i < |d.keys| ==> !StartsWith(d.keys[i], ModulePrefix)
    ensures Remap(d.keys, d.entries) == d
  {
    assert forall i :: 0 <= i < |d.keys| ==> Renamed(d.keys[i]) == d.keys[i];
    RemapWithoutCollisions(d.keys, d.entries);
    RemapValid(d.keys, d.entries);
    SameDict(Remap(d.keys, d.entries), d);
  }

  /**
   * A checkpoint whose keys are `module.` + the keys of `d`, in the same order and
   * with the same values, loads as `d`: a `DataParallel` checkpoint loads exactly
   * like the single-device one it was saved from.
   */
  lemma PrefixedLoadsAsUnprefixed<V>(ckpt: StateDict<V>, d: StateDict<V>)
    requires ckpt.Valid() && d.Valid()
    requires |ckpt.keys| == |d.keys|
    requires forall i :: 0 <= i < |d.keys| ==>
      ckpt.keys[i] == ModulePrefix + d.keys[i] && ckpt.entries[ckpt.keys[i]] == d.entries[d.keys[i]]
    ensures Remap(ckpt.keys, ckpt.entries) == d
  {
    PrefixedKeysRenamed(ckpt.keys, d.keys);
    RemapWithoutCollisions(ckpt.keys, ckpt.entries);
    RemapValid(ckpt.keys, ckpt.entries);
    SameDict(Remap(ckpt.keys, ckpt.entries), d);
  }

  lemma PrefixedKeysRenamed(cks: seq<string>, ks: seq<string>)
    requires |cks| == |ks| && forall i :: 0 <= i < |ks| ==> cks[i] == ModulePrefix + ks[i]
    ensures RenamedKeys(cks) == ks
  {
    forall i | 0 <= i < |ks| ensures Renamed(cks[i]) == ks[i] {
      RenamedUndoesPrefix(ks[i]);
    }
  }

  /** `module.a` followed by `a`: one entry `a`, holding the value of the later key. */
  lemma CollisionKeepsLater<V>(v1: V, v2: V)
    ensures var ks := ["module.a", "a"];
      var loaded := Remap(ks, map["module.a" := v1, "a" := v2]);
      loaded.keys == ["a"] && loaded.entries == map["a" := v2]
  {
    RenamedUndoesPrefix("a");
    assert ["module.a", "a"][..1] == ["module.a"];
    assert ["module.a"][..0] == [];
    assert !StartsWith("a", ModulePrefix);
  }

  /** In a valid dictionary there are as many entries as keys in the order. */
  lemma ValidSize<V>(d: StateDict<V>)
    requires d.Valid()
    ensures |d.entries| == |d.keys|
  {
    assert d.entries.Keys == set k | k in d.keys;
    DistinctCard(d.keys);
  }

  lemma {:induction false} DistinctCard(ks: seq<string>)
    requires forall i, j :: 0 <= i < j < |ks| ==> ks[i] != ks[j]
    ensures |set k | k in ks| == |ks|
    decreases |ks|
  {
    if ks != [] {
      var init := ks[..|ks| - 1];
      DistinctCard(init);
      assert (set k | k in ks) == (set k | k in init) + {ks[|ks| - 1]};
      assert ks[|ks| - 1] !in init;
    }
  }
}
