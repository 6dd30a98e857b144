/**
 * The configuration presets of `submodules/ace.py` and the module-level
 * defaults they read. The presets share one mutable state: the fixed-shift
 * ImageNet presets rebind the module-level `shifts` (they declare it `global`),
 * the CIFAR fixed-shift preset binds a local of that name instead, and the
 * `_random` presets pass whatever the module-level `shifts` holds at the time.
 */
module Presets {
  import opened Results
  import opened Ace
  import opened Strings

  /** The preset's `assert` on the dataset tag failed. */
  datatype PresetError = DatasetMismatch

  /** The shift table of the defaults: eight unit moves for `unet`, horizontal ones for `unet_v1`, vertical ones for `unet_v2`. */
  function DefaultShifts(): map<string, seq<Offset>> {
    map["unet" := [(0, 1), (1, 0), (0, -1), (-1, 0), (1, 1), (-1, -1), (1, -1), (-1, 1)],
        "unet_v1" := [(1, 0), (-1, 0)],
        "unet_v2" := [(0, 1), (0, -1)]]
  }

  /** The shift table of the fixed-shift presets: only (0, 0), for every autoencoder. */
  function ZeroShifts(): map<string, seq<Offset>> {
    map["unet" := [(0, 0)], "unet_v1" := [(0, 0)], "unet_v2" := [(0, 0)]]
  }

  /** Python's `sub in s` on strings: `sub` occurs somewhere in `s`. */
  predicate Contains(s: string, sub: string)
    decreases |s|
  {
    StartsWith(s, sub) || (|s| > 0 && Contains(s[1..], sub))
  }

  /** `sub` occurs in `s` at position `i`. */
  predicate OccursAt(s: string, sub: string, i: int) {
    0 <= i <= |s| - |sub| && s[i..i + |sub|] == sub
  }

  /** Contains is the existence of a position where `sub` occurs. */
  lemma {:induction false} ContainsAt(s: string, sub: string)
    ensures Contains(s, sub) <==> exists i :: OccursAt(s, sub, i)
    decreases |s|
  {
    if |s| > 0 {
      ContainsAt(s[1..], sub);
      if StartsWith(s, sub) {
        assert s[0..|sub|] == s[..|sub|];
        assert OccursAt(s, sub, 0);
      }
      if Contains(s[1..], sub) {
        var i :| OccursAt(s[1..], sub, i);
        assert s[i + 1..i + 1 + |sub|] == s[1..][i..i + |sub|];
        assert OccursAt(s, sub, i + 1);
      }
      if exists i :: OccursAt(s, sub, i) {
        var i :| OccursAt(s, sub, i);
        if i > 0 {
          assert s[1..][i - 1..i - 1 + |sub|] == s[i..i + |sub|];
          assert OccursAt(s[1..], sub, i - 1);
        } else {
          assert s[..|sub|] == s[0..|sub|];
        }
      }
    } else {
      if Contains(s, sub) {
        assert OccursAt(s, sub, 0);
      }
      if exists i :: OccursAt(s, sub, i) {
        var i :| OccursAt(s, sub, i);
        assert i == 0 && sub == [] && s[..0] == [];
      }
    }
  }

  /** The module-level variables of `submodules/ace.py`. */
  class ModuleState {
    var classifiers: seq<string>
    var autoencoders: seq<string>
    var stacks: seq<int>
    var lambdas: seq<real>
    var shifts: map<string, seq<Offset>>

    /**
     * Every autoencoder has a shift set, in the current table and in the zero
     * table, so the ACE constructor can look each one up.
     */
    predicate Valid()
      reads this
    {
      forall a :: a in autoencoders ==> a in shifts && a in ZeroShifts()
    }

    /** The state as the module defines it on import. */
    constructor ()
      ensures Valid()
      ensures classifiers == ["densenet121", "resnet50", "vgg19", "vgg19_bn", "alexnet"]
      ensures autoencoders == ["unet", "unet_v1", "unet_v2"]
      ensures stacks == [5] && lambdas == [0.0, 0.5, 1.0]
      ensures shifts == DefaultShifts()
    {
      classifiers := ["densenet121", "resnet50", "vgg19", "vgg19_bn", "alexnet"];
      autoencoders := ["unet", "unet_v1", "unet_v2"];
      stacks := [5];
      lambdas := [0.0, 0.5, 1.0];
      shifts := DefaultShifts();
    }

    /** `ace`: the full defaults, on ImageNet only. */
    method AceDefaults(dataset: string, fineTune: bool) returns (r: Result<ACE, PresetError>)
      requires Valid()
      ensures r.Err? <==> dataset != "ImageNet"
      ensures r.Ok? ==>
        fresh(r.value) && r.value.Valid() && r.value.BuiltFrom(classifiers, autoencoders, stacks, lambdas, shifts, fineTune)
    {
      if dataset != "ImageNet" {
        return Err(DatasetMismatch);
      }
      var ace := new ACE(classifiers, autoencoders, stacks, lambdas, shifts, fineTune);
      r := Ok(ace);
    }

    /**
     * The fixed-shift ImageNet presets: one classifier, weight 1, and the zero
     * shift table, which is also written to the module-level `shifts`.
     */
    method FixedShiftImageNet(classifier: string, dataset: string, fineTune: bool) returns (r: Result<ACE, PresetError>)
      requires Valid()
      modifies this`shifts
      ensures Valid()
      ensures r.Err? <==> dataset != "ImageNet"
      ensures shifts == if r.Ok? then ZeroShifts() else old(shifts)
      ensures r.Ok? ==>
        fresh(r.value) && r.value.Valid() && r.value.BuiltFrom([classifier], autoencoders, stacks, [1.0], ZeroShifts(), fineTune)
    {
      if dataset != "ImageNet" {
        return Err(DatasetMismatch);
      }
      shifts := ZeroShifts();
      var ace := new ACE([classifier], autoencoders, stacks, [1.0], shifts, fineTune);
      r := Ok(ace);
    }

    /** `ace_resnet50`: the fixed-shift preset with `resnet50`. */
    method AceResnet50(dataset: string, fineTune: bool) returns (r: Result<ACE, PresetError>)
      requires Valid()
      modifies this`shifts
      ensures Valid()
      ensures r.Err? <==> dataset != "ImageNet"
      ensures shifts == if r.Ok? then ZeroShifts() else old(shifts)
      ensures r.Ok? ==>
        fresh(r.value) && r.value.Valid() && r.value.BuiltFrom(["resnet50"], autoencoders, stacks, [1.0], ZeroShifts(), fineTune)
    {
      r := FixedShiftImageNet("resnet50", dataset, fineTune);
    }

    /** `ace_resnet101`: the fixed-shift preset with `resnet101`. */
    method AceResnet101(dataset: string, fineTune: bool) returns (r: Result<ACE, PresetError>)
      requires Valid()
      modifies this`shifts
      ensures Valid()
      ensures r.Err? <==> dataset != "ImageNet"
      ensures shifts == if r.Ok? then ZeroShifts() else old(shifts)
      ensures r.Ok? ==>
        fresh(r.value) && r.value.Valid() && r.value.BuiltFrom(["resnet101"], autoencoders, stacks, [1.0], ZeroShifts(), fineTune)
    {
      r := FixedShiftImageNet("resnet101", dataset, fineTune);
    }

    /** `ace_densenet121`: the fixed-shift preset with `densenet121`. */
    method AceDensenet121(dataset: string, fineTune: bool) returns (r: Result<ACE, PresetError>)
      requires Valid()
      modifies this`shifts
      ensures Valid()
      ensures r.Err? <==> dataset != "ImageNet"
      ensures shifts == if r.Ok? then ZeroShifts() else old(shifts)
      ensures r.Ok? ==>
        fresh(r.value) && r.value.Valid() && r.value.BuiltFrom(["densenet121"], autoencoders, stacks, [1.0], ZeroShifts(), fineTune)
    {
      r := FixedShiftImageNet("densenet121", dataset, fineTune);
    }

    /** `ace_vgg19`: the fixed-shift preset with `vgg19`. */
    method AceVgg19(dataset: string, fineTune: bool) returns (r: Result<ACE, PresetError>)
      requires Valid()
      modifies this`shifts
      ensures Valid()
      ensures r.Err? <==> dataset != "ImageNet"
      ensures shifts == if r.Ok? then ZeroShifts() else old(shifts)
      ensures r.Ok? ==>
        fresh(r.value) && r.value.Valid() && r.value.BuiltFrom(["vgg19"], autoencoders, stacks, [1.0], ZeroShifts(), fineTune)
    {
      r := FixedShiftImageNet("vgg19", dataset, fineTune);
    }

    /** `ace_vgg19_bn`: the fixed-shift preset with `vgg19_bn`. */
    method AceVgg19Bn(dataset: string, fineTune: bool) returns (r: Result<ACE, PresetError>)
      requires Valid()
      modifies this`shifts
      ensures Valid()
      ensures r.Err? <==> dataset != "ImageNet"
      ensures shifts == if r.Ok? then ZeroShifts() else old(shifts)
      ensures r.Ok? ==>
        fresh(r.value) && r.value.Valid() && r.value.BuiltFrom(["vgg19_bn"], autoencoders, stacks, [1.0], ZeroShifts(), fineTune)
    {
      r := FixedShiftImageNet("vgg19_bn", dataset, fineTune);
    }

    /**
     * The `_random` ImageNet presets: one classifier, weight 1, and the shift
     * table the module-level `shifts` holds now; nothing is written.
     */
    method CurrentShiftImageNet(classifier: string, dataset: string, fineTune: bool) returns (r: Result<ACE, PresetError>)
      requires Valid()
      ensures r.Err? <==> dataset != "ImageNet"
      ensures r.Ok? ==>
        fresh(r.value) && r.value.Valid() && r.value.BuiltFrom([classifier], autoencoders, stacks, [1.0], shifts, fineTune)
    {
      if dataset != "ImageNet" {
        return Err(DatasetMismatch);
      }
      var ace := new ACE([classifier], autoencoders, stacks, [1.0], shifts, fineTune);
      r := Ok(ace);
    }

    /** `ace_resnet101_random`. */
    method AceResnet101Random(dataset: string, fineTune: bool) returns (r: Result<ACE, PresetError>)
      requires Valid()
      ensures r.Err? <==> dataset != "ImageNet"
      ensures r.Ok? ==>
        fresh(r.value) && r.value.Valid() && r.value.BuiltFrom(["resnet101"], autoencoders, stacks, [1.0], shifts, fineTune)
    {
      r := CurrentShiftImageNet("resnet101", dataset, fineTune);
    }

    /** `ace_densenet121_random`. */
    method AceDensenet121Random(dataset: string, fineTune: bool) returns (r: Result<ACE, PresetError>)
      requires Valid()
      ensures r.Err? <==> dataset != "ImageNet"
      ensures r.Ok? ==>
        fresh(r.value) && r.value.Valid() && r.value.BuiltFrom(["densenet121"], autoencoders, stacks, [1.0], shifts, fineTune)
    {
      r := CurrentShiftImageNet("densenet121", dataset, fineTune);
    }

    /** `ace_vgg19_random`. */
    method AceVgg19Random(dataset: string, fineTune: bool) returns (r: Result<ACE, PresetError>)
      requires Valid()
      ensures r.Err? <==> dataset != "ImageNet"
      ensures r.Ok? ==>
        fresh(r.value) && r.value.Valid() && r.value.BuiltFrom(["vgg19"], autoencoders, stacks, [1.0], shifts, fineTune)
    {
      r := CurrentShiftImageNet("vgg19", dataset, fineTune);
    }

    /**
     * `ace_cifar`: `ResNet18`, weight 1 and the zero shift table, which here is a
     * local binding, so the module-level `shifts` is left as it is.
     */
    method AceCifar(dataset: string, fineTune: bool) returns (r: Result<ACE, PresetError>)
      requires Valid()
      ensures r.Err? <==> !Contains(dataset, "CIFAR")
      ensures r.Ok? ==>
        fresh(r.value) && r.value.Valid() && r.value.BuiltFrom(["ResNet18"], autoencoders, stacks, [1.0], ZeroShifts(), fineTune)
    {
      if !Contains(dataset, "CIFAR") {
        return Err(DatasetMismatch);
      }
      var localShifts := ZeroShifts();
      var ace := new ACE(["ResNet18"], autoencoders, stacks, [1.0], localShifts, fineTune);
      r := Ok(ace);
    }

    /** `ace_cifar_random`: `ResNet18`, weight 1 and the current module-level `shifts`. */
    method AceCifarRandom(dataset: string, fineTune: bool) returns (r: Result<ACE, PresetError>)
      requires Valid()
      ensures r.Err? <==> !Contains(dataset, "CIFAR")
      ensures r.Ok? ==>
        fresh(r.value) && r.value.Valid() && r.value.BuiltFrom(["ResNet18"], autoencoders, stacks, [1.0], shifts, fineTune)
    {
      if !Contains(dataset, "CIFAR") {
        return Err(DatasetMismatch);
      }
      var ace := new ACE(["ResNet18"], autoencoders, stacks, [1.0], shifts, fineTune);
      r := Ok(ace);
    }
  }

  /**
   * After a fixed-shift ImageNet preset has run, a `_random` preset builds its
   * ACE with the zero shift table: the fixed preset's table leaks through the
   * module-level `shifts`. Before it, the same `_random` preset sees the defaults.
   */
  method FixedPresetLeaksIntoRandom(fineTune: bool) returns (before: seq<seq<Offset>>, after: seq<seq<Offset>>)
    ensures before == [DefaultShifts()["unet"], DefaultShifts()["unet_v1"], DefaultShifts()["unet_v2"]]
    ensures after == [[(0, 0)], [(0, 0)], [(0, 0)]]
  {
    var state := new ModuleState();
    var first := state.AceVgg19Random("ImageNet", fineTune);
    before := first.value.shifts;
    var _ := state.AceResnet50("ImageNet", fineTune);
    var second := state.AceVgg19Random("ImageNet", fineTune);
    after := second.value.shifts;
  }

  /** `ace_cifar` leaves the module-level `shifts` alone: a later `ace_cifar_random` sees the defaults. */
  method CifarPresetKeepsShifts(fineTune: bool) returns (seen: seq<seq<Offset>>)
    ensures seen == [DefaultShifts()["unet"], DefaultShifts()["unet_v1"], DefaultShifts()["unet_v2"]]
  {
    var state := new ModuleState();
    ContainsAt("CIFAR10", "CIFAR");
    assert OccursAt("CIFAR10", "CIFAR", 0);
    var _ := state.AceCifar("CIFAR10", fineTune);
    var second := state.AceCifarRandom("CIFAR10", fineTune);
    seen := second.value.shifts;
  }
}
