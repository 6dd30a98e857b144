# ACE ensemble defense: shift/blend chain, presets and checkpoint key renaming

This project is a Dafny model of two pieces of integer, index and string logic in the ACE-Defense repository. Each is proved against a specification.

1. **The ACE ensemble** (`submodules/ace.py`). An `ACE` module holds a pool of classifiers, a pool of autoencoders with one shift set each, the allowed stack depths and the allowed blend weights. A forward pass draws a classifier, a depth `k`, and then `k` autoencoders, `k` blend weights and `k` shifts. It runs a chain of stages. Each stage translates the current image by its shift with zero fill: `pad_shape`, then `nn.ZeroPad2d`, then a crop. It then feeds the shifted view to the stage's autoencoder and replaces the current image by `λ·ae(x_shift) + (1−λ)·x_shift`. The drawn classifier is applied at the end unless `ae_only` is set. The configuration presets read and write module-level state. The fixed-shift ImageNet presets overwrite the module-level `shifts`. `ace_cifar` binds a local of that name. The `_random` presets read whatever the module-level `shifts` holds.
2. **Checkpoint key renaming** (`common/torch_utils.py`). Before a checkpoint is loaded, every parameter name that starts with `module.` loses those 7 characters. The entries are copied in order into a fresh `OrderedDict`.

Modules:

- `Images` (images.dfy): an image plane is `seq<seq<real>>`, the last two axes of an N×C×H×W tensor. It also has shape predicates and `At`, which reads a pixel and gives zero outside the image.
- `Shift` (shift.dfy): `PadShape`, `ZeroPad`, `Crop` and `ShiftImage`, the translate-with-zero-fill they make up.
- `Ace` (ace.dfy): `Blend`, the chain of stages as a function (`Chain`), and the class `ACE`. Its constructor loops over the names, `ValidDraw` says which draws the sampling can produce, and `Forward` is the stage loop.
- `Presets` (presets.dfy): the class `ModuleState`, holding the module-level defaults, with one method per preset.
- `TorchUtils` (torch_utils.dfy): `StateDict` (an `OrderedDict`: key order plus mapping), `Insert` (`d[k] = v`), `Renamed`, `Remap`, and the loop `StripModulePrefix`. `Remap` is the dictionary built after a given prefix of the keys.
- `Strings` (strings.dfy): `StartsWith`, Python's `str.startswith`, shared by the CIFAR dataset check and the key renaming.
- `Results` (results.dfy): `Result<T, E>` for operations the source aborts with an exception.

Modelling choices:

- **Networks are parameters.** An autoencoder or classifier is a `ModelHandle`: its name and whether it is frozen. What the networks compute is passed to `Forward` as functions `ModelHandle -> Image -> Image` (`Autoencoders`) and `ModelHandle -> Image -> seq<real>` (`Classifiers`).
- **Random draws are inputs.** The draws are an explicit `Draw` argument. Every statement about `Forward` holds for every draw that `ValidDraw` admits:
  - the depth is in `stacks`;
  - every index is in range;
  - every weight is in `lambdas`;
  - stage `i`'s shift is in the shift set of stage `i`'s own autoencoder.
- **`forward` is modelled as intended, not as written.** As written, `submodules/ace.py:60` has an unclosed parenthesis. The list `shifts` built at lines 55-57 is never filled. Line 60 indexes `self.shifts` by a module object. The model uses the evident intent: one shift per drawn autoencoder, from that autoencoder's own shift set, used for that stage's pad and crop.
- **Shape mismatch is an error.** If an autoencoder returns an image of another shape, the blend cannot be formed; the model returns `Err(ShapeMismatch)`.
- **Unknown autoencoder names are excluded by the constructor.** Looking up `shifts[a]` for an autoencoder with no shift set raises `KeyError` in the source (`submodules/ace.py:43`). The constructor therefore requires every autoencoder name to be a key of the shift table.
- **A failed dataset check is an error.** A preset whose `assert` on the dataset fails returns `Err(DatasetMismatch)` and changes nothing.
- **The presets rebind the module-level `shifts`.** The fixed-shift ImageNet presets declare `shifts` global and assign the zero table to it (`submodules/ace.py:99-102`), so every later `_random` preset sees that table.
- **Building never checks the pools.** The constructor copies the pools without testing them for emptiness (`submodules/ace.py:23-45`). Sampling at `submodules/ace.py:48-53` needs a non-empty classifier pool and a non-empty depth pool. It needs non-empty autoencoder and weight pools only when the drawn depth is positive: a depth-0 draw from empty autoencoder and weight pools exists (`DrawNeedsPools`).
- **Only classifiers are frozen.** The constructor freezes the classifiers' parameters when `fine_tune` is off (`submodules/ace.py:31-33`); the autoencoders stay trainable.

## Model

| member | source | states |
|---|---|---|
| `Shift.PadShape` | submodules/ace.py:72-78 | the four pad amounts are non-negative, `left − right == x` and `up − down == y`, and at most one of each pair is nonzero |
| `Shift.PadShapeUnique` | submodules/ace.py:73-76 | those properties determine the split: any split with them is `pad_shape(x, y)`, so `left = max(x,0)`, `right = max(−x,0)`, and likewise for up/down |
| `Shift.PadShapeOfZero` | submodules/ace.py:73-76 | `pad_shape(0, 0)` is `(0, 0, 0, 0)` |
| `Shift.PadRow` | submodules/ace.py:62 | a padded row has `l + w + r` pixels: zeros, then the row's pixels at their offset, then zeros |
| `Shift.ZeroPad` | submodules/ace.py:62 | the padded image has `u + H + d` rows of `l + W + r` pixels; each pixel is the input pixel moved `u` rows down and `l` columns right, or zero outside the input |
| `Shift.Crop` | submodules/ace.py:63-65 | the slice `[r0:r1, c0:c1]` has `r1 − r0` rows of `c1 − c0` pixels, with pixel `(i, j)` being `q[r0+i][c0+j]` |
| `Shift.CropOfPadIsShift` | submodules/ace.py:61-65 | cropping the padded image at `[d:h−u, r:w−l]` reads pixel `(i, j)` from input position `(i + d − u, j + r − l)` |
| `Shift.ShiftImage` | submodules/ace.py:61-65 | for any signed shift the result has exactly H rows and W columns, and `out[i][j] == in[i−dy][j−dx]` where that index is inside the image and 0 otherwise |
| `Shift.ShiftIsRect` | submodules/ace.py:61-65 | a shifted image is rectangular with the input's width |
| `Shift.ShiftByZero` | submodules/ace.py:61-65 | shift `(0, 0)` is the identity |
| `Shift.ShiftThenUnshift` | submodules/ace.py:61-65 | shifting by `(dx, dy)` and then by `(−dx, −dy)` restores every pixel whose shifted position stays inside the image and zeroes the rest: a round trip except on the vacated border |
| `Ace.Blend` | submodules/ace.py:66 | the blend of a reconstruction and a shifted view of the same shape has that shape |
| `Ace.BlendWithZero` | submodules/ace.py:66 | with `λ = 0` the blend is `x_shift` exactly |
| `Ace.BlendWithOne` | submodules/ace.py:66 | with `λ = 1` the blend is `autoencoder(x_shift)` exactly |
| `Ace.Chain` | submodules/ace.py:59-66 | a successful chain of stages returns an image with the input's shape |
| `Ace.ChainAppend` | submodules/ace.py:59-66 | running stages `a + b` is running `a` and then `b` on its result, and an error in `a` ends the chain |
| `Ace.ChainOfBypassedStages` | submodules/ace.py:59-66 | if every weight is 0, every shift is `(0, 0)` and the autoencoders keep shapes, the chain returns its input |
| `Ace.ChainOfOneTrustedStage` | submodules/ace.py:59-66 | one stage with weight 1 and shift `(0, 0)` returns exactly that autoencoder's output on the input |
| `Ace.ACE.constructor` | submodules/ace.py:15-45 | the classifiers and autoencoders are one handle per name, in order, and classifiers are frozen unless `fine_tune`; `len(self.shifts) == len(self.autoencoders)` and `self.shifts[i] == shifts[autoencoders[i]]`; every autoencoder name must be a key of `shifts` |
| `Ace.ACE.DrawNeedsPools` | submodules/ace.py:48-53 | a valid draw needs at least one classifier and one depth; a draw of depth `k > 0` also needs an autoencoder and a blend weight, and every drawn autoencoder's shift set is non-empty |
| `Ace.ACE.StagesOf` | submodules/ace.py:52-61 | a valid draw selects `k` stages, stage `i` running the pool's autoencoder at the drawn index `i`, with a weight from `lambdas` and a shift from that autoencoder's shift set |
| `Ace.ACE.Forward` | submodules/ace.py:47-70 | for every valid draw, the loop's result is the chain of the drawn stages. With `ae_only` it returns that image, which has the input's shape; otherwise it returns the drawn classifier applied to it. A shape mismatch propagates. With `k = 0` it returns the input, or the classifier applied to the input |
| `Ace.SingletonPools` | submodules/ace.py:15-70 | with one classifier, one autoencoder `U`, depth 1, weight 1 and only shift `(0, 0)`, every valid draw of the built `ACE` is that one draw, and `forward(x, ae_only=True)` is `U(x)` |
| `Ace.EmptyPoolsDepthZero` | submodules/ace.py:23-53 | the constructor accepts empty autoencoder and weight pools, and with depth pool `[0]` the depth-0 draw is valid and `forward(x, ae_only=True)` returns `x` |
| `Presets.ContainsAt` | submodules/ace.py:161 | Python's `"CIFAR" in dataset` holds exactly when `"CIFAR"` occurs at some position of the tag |
| `Presets.ModuleState.constructor` | submodules/ace.py:81-89 | the module-level defaults: five classifiers, three autoencoders, depths `[5]`, weights `[0, 0.5, 1]`, and the default shift table |
| `Presets.ModuleState.AceDefaults` | submodules/ace.py:92-95 | `ace` fails exactly when the dataset is not `"ImageNet"`; otherwise it builds an ACE from all the module-level values |
| `Presets.ModuleState.FixedShiftImageNet` | submodules/ace.py:97-135 | on `"ImageNet"` it writes the zero table to the module-level `shifts` and builds an ACE from one classifier, weight 1 and the zero table; on other datasets it fails and changes nothing |
| `Presets.ModuleState.AceResnet50` | submodules/ace.py:97-103 | `ace_resnet50`: the fixed-shift preset with `resnet50` |
| `Presets.ModuleState.AceResnet101` | submodules/ace.py:105-111 | `ace_resnet101`: the fixed-shift preset with `resnet101` |
| `Presets.ModuleState.AceDensenet121` | submodules/ace.py:113-119 | `ace_densenet121`: the fixed-shift preset with `densenet121` |
| `Presets.ModuleState.AceVgg19` | submodules/ace.py:121-127 | `ace_vgg19`: the fixed-shift preset with `vgg19` |
| `Presets.ModuleState.AceVgg19Bn` | submodules/ace.py:129-135 | `ace_vgg19_bn`: the fixed-shift preset with `vgg19_bn` |
| `Presets.ModuleState.CurrentShiftImageNet` | submodules/ace.py:138-157 | the `_random` ImageNet presets fail exactly off `"ImageNet"`; on it they build an ACE with the module-level `shifts` as it is now, and they write nothing |
| `Presets.ModuleState.AceResnet101Random` | submodules/ace.py:138-143 | `ace_resnet101_random`: the current-shift preset with `resnet101` |
| `Presets.ModuleState.AceDensenet121Random` | submodules/ace.py:145-150 | `ace_densenet121_random`: the current-shift preset with `densenet121` |
| `Presets.ModuleState.AceVgg19Random` | submodules/ace.py:152-157 | `ace_vgg19_random`: the current-shift preset with `vgg19` |
| `Presets.ModuleState.AceCifar` | submodules/ace.py:160-166 | `ace_cifar` fails exactly when `"CIFAR"` is not a substring of the dataset; it builds its ACE from the zero table and writes no module-level state |
| `Presets.ModuleState.AceCifarRandom` | submodules/ace.py:168-173 | `ace_cifar_random` fails exactly when `"CIFAR"` is not a substring of the dataset; it builds its ACE with the current module-level `shifts` |
| `Presets.FixedPresetLeaksIntoRandom` | submodules/ace.py:97-157 | a `_random` preset sees the default shift sets, but after `ace_resnet50` has run it sees only `(0, 0)` for every autoencoder |
| `Presets.CifarPresetKeepsShifts` | submodules/ace.py:160-173 | after `ace_cifar`, `ace_cifar_random` still sees the default shift sets |
| `TorchUtils.InsertKeepsValid` | common/torch_utils.py:31-33 | assigning into an `OrderedDict` keeps every key listed exactly once in the order |
| `TorchUtils.RenamedStripsPrefix` | common/torch_utils.py:29-33 | a key starting with `module.` loses exactly those 7 characters (prefix + result == key); any other key is copied unchanged |
| `TorchUtils.RenamedStripsOnce` | common/torch_utils.py:29-30 | only one prefix is stripped: `"module.module.a"` ↦ `"module.a"` |
| `TorchUtils.RenamedUndoesPrefix` | common/torch_utils.py:29-30 | `"module." + k` is loaded under `k`, for every `k` |
| `TorchUtils.Remap` | common/torch_utils.py:27-33 | the dictionary built from `n` keys lists at most `n` keys |
| `TorchUtils.RemapValid` | common/torch_utils.py:27-33 | the dictionary the loop builds is a well-formed `OrderedDict` |
| `TorchUtils.RemapStep` | common/torch_utils.py:28-33 | visiting one more key inserts its renamed form with its value |
| `TorchUtils.StripModulePrefix` | common/torch_utils.py:27-33 | the loop's output is the dictionary built from all the input's keys in order; it is well-formed and no larger than the input |
| `TorchUtils.RemapKeys` | common/torch_utils.py:27-33 | the output holds a key exactly when some input key is renamed to it: no other key is added |
| `TorchUtils.RemapLastWins` | common/torch_utils.py:27-33 | an input key that no later key collides with is present under its renamed name, with its own value |
| `TorchUtils.RemapOrigin` | common/torch_utils.py:27-33 | every output value is the value of the last input key renamed to that name |
| `TorchUtils.RemapOrderWithoutCollisions` | common/torch_utils.py:27-33 | without collisions the output's key order is the input's key order, renamed |
| `TorchUtils.RemapWithoutCollisions` | common/torch_utils.py:27-33 | without collisions every input key appears renamed, in order, with its own value |
| `TorchUtils.NoPrefixIsIdentity` | common/torch_utils.py:32-33 | on a checkpoint with no prefixed key the loop is the identity |
| `TorchUtils.PrefixedLoadsAsUnprefixed` | common/torch_utils.py:27-33 | if every key of the input is `"module." + k` for the keys `k` of a dictionary `D`, in order and with the same values, the output equals `D` |
| `TorchUtils.CollisionKeepsLater` | common/torch_utils.py:27-33 | with `"module.a"` then `"a"`, the output is the single entry `a` holding the later value |

## Left out

- The random sampling itself (`np.random.choice`, `submodules/ace.py:48-57`): draws are explicit `Draw` inputs constrained by `ACE.ValidDraw`. Distribution and coverage claims are not modelled.
- As-written `forward` (lines 55-61): the unclosed parenthesis, the never-filled `shifts` list and indexing `self.shifts` by a module object are not modelled. The intended per-stage shift draw is.
- Network internals, `nn.Module`/`nn.ModuleList` machinery, `get_model`'s loading and the `requires_grad` loop (`submodules/ace.py:29-33`): reduced to a `ModelHandle` with a `frozen` flag. What the networks compute is an input function.
- Batch and channel axes: every modelled operation acts on the last two axes pixel by pixel, so one image plane stands for the tensor.
- Floating point: pixels and blend weights are ideal `real`s. NaN, rounding and the int/float distinction between `lambdas = [1]` and `[1.0]` are not modelled.
- Torch broadcasting: an autoencoder output of another shape is an error (`ShapeMismatch`). Broadcasting shapes that torch would accept are not modelled.
- `self.args` and the copied `args` namespace (`submodules/ace.py:18-20`): only `fine_tune` (the `fineTune` parameter) and `dataset` are modelled.
- The `**kwargs` of the presets and of `ACE`: unused by the source's core and not modelled.
- In `get_model`: the `getattr` model lookup, checkpoint path resolution from NSML environment variables, `torch.load`/`load_state_dict`, `.cuda()`/`.half()` and `DataParallel` (`common/torch_utils.py:11-24, 34-44`). These are I/O and device plumbing.
- `compute_loss` (`common/torch_utils.py:45-67`): torch loss criteria over floats.
- `get_optimizer` (`common/torch_utils.py:70-99`): a thin wrapper over `torch.optim`.
- `init_params` (`common/torch_utils.py:102-124`): random Xavier initialisation.
- `submodules/attacks/__init__.py`: only `sys.path` edits and star imports of attack modules that are not part of this model.
