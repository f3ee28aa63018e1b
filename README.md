# AdaMax gradient updater (nd4j) in Dafny

This project models `org.nd4j.linalg.learning.AdaMaxUpdater`. That is the
AdaMax variant of Adam used by nd4j's training loop. It turns a raw gradient
into the parameter delta, in place, using two state tensors:

- `m`: the moving average of the gradient;
- `u`: an exponentially weighted infinity norm.

The state is bound in one of two ways:

- detached: `setState` takes a map whose keys must be exactly `"M"` and `"V"`;
- view mode: `setStateViewArray` splits one flat row-vector buffer owned by
  the caller into two halves and reshapes them without copying.

In view mode the state aliases the caller's buffer.

Files:

- `tensors.dfy` (module `Tensors`): a tensor is a view, meaning a shape laid
  over a contiguous span of a shared `array<real>`. Two views over the same
  array alias each other. `Fill` is the in-place `assign`.
- `adamax_math.dfy` (module `AdaMaxMath`): the per-element arithmetic.
  - the moment and norm recurrences;
  - the power `beta1^(iteration+1)` as a recursive function;
  - the step size with its fallback to epsilon;
  - the constant `Delta` = 1e-32;
  - lemmas about all of these.
- `adamax_updater.dfy` (module `Learning`): the class `AdaMaxUpdater`.
  - fields `m` and `u` (an `Option`, because Java's fields may be null) and
    `gradientReshapeOrder`;
  - the hyperparameters beta1, beta2 and epsilon, and the learning-rate
    schedule as a function of (iteration, epoch);
  - the four operations, with their exceptions modelled as an `Outcome`.
- `adamax_scenarios.dfy` (module `AdaMaxScenarios`): callers proved from the
  contracts alone.

Where the model follows the code:

- The key of `u` in the state map is `"V"` (line 42), not `"U"`. The model
  uses `"V"`.
- `setStateViewArray` assigns both reshape results to `m` and `u` before it
  checks them. So after a failed reshape, the half that did reshape stays
  bound. The failed half is null. The buffer is already zero-filled if that
  was asked. `gradientReshapeOrder` is not updated. The model keeps all of this.
- Neither binding checks whether the other kind of binding happened before.
  Re-binding is allowed in either direction.
- `Delta` is added to `u` in place (line 117). So it stays in the state and
  feeds the next step's `beta2 * u`.

## Model

| member | source | states |
|---|---|---|
| `Tensors.Fill` | nd4j/nd4j-backends/nd4j-api-parent/nd4j-api/src/main/java/org/nd4j/linalg/learning/AdaMaxUpdater.java:74-75 | Every element of the view becomes the given value. Every other position of the buffer is unchanged. |
| `AdaMaxMath.PowOfOne` | nd4j/nd4j-backends/nd4j-api-parent/nd4j-api/src/main/java/org/nd4j/linalg/learning/AdaMaxUpdater.java:109 | `1^n == 1` for every n: the power computed at line 109 with beta1 = 1. A helper of `AdaMaxMath.AlphaDegenerate`, which states the degenerate step size. |
| `AdaMaxMath.PowInUnitInterval` | nd4j/nd4j-backends/nd4j-api-parent/nd4j-api/src/main/java/org/nd4j/linalg/learning/AdaMaxUpdater.java:109 | For `0 <= beta1 < 1` and n >= 1, `beta1^n` lies in `[0, beta1]`. So the bias correction `1 - beta1^(t+1)` lies in `(0, 1]`. |
| `AdaMaxMath.MomentBetween` | nd4j/nd4j-backends/nd4j-api-parent/nd4j-api/src/main/java/org/nd4j/linalg/learning/AdaMaxUpdater.java:101-102 | For `0 <= beta1 <= 1`, the new `m` lies between the old `m` and the gradient: a moving average never leaves the range of what it averages. |
| `AdaMaxMath.NormStep` | nd4j/nd4j-backends/nd4j-api-parent/nd4j-api/src/main/java/org/nd4j/linalg/learning/AdaMaxUpdater.java:104-117 | The new `u` is at least `abs(g) + Delta` and at least `beta2*u + Delta`, and equals one of the two. So it is strictly positive whatever the old `u` was. |
| `AdaMaxMath.Alpha` | nd4j/nd4j-backends/nd4j-api-parent/nd4j-api/src/main/java/org/nd4j/linalg/learning/AdaMaxUpdater.java:109-115 | The step size is either epsilon, or a value that times `1 - beta1^(t+1)` gives the learning rate. It is epsilon whenever it would be 0 or the correction is 0. Conversely, when the correction and the learning rate are both non-zero it is exactly `lr / (1 - beta1^(t+1))`. It is never 0 when epsilon is not 0. |
| `AdaMaxMath.AlphaBiasCorrected` | nd4j/nd4j-backends/nd4j-api-parent/nd4j-api/src/main/java/org/nd4j/linalg/learning/AdaMaxUpdater.java:109-115 | For `0 <= beta1 < 1`, the fallback fires exactly when the learning rate is 0. Otherwise the step size is `lr / (1 - beta1^(t+1))`, at least `lr` in magnitude and of the same sign. |
| `AdaMaxMath.AlphaDegenerate` | nd4j/nd4j-backends/nd4j-api-parent/nd4j-api/src/main/java/org/nd4j/linalg/learning/AdaMaxUpdater.java:112-115 | With `beta1 = 1` the correction is 0, and the step size is epsilon, not an infinity. |
| `AdaMaxMath.FirstStepFromZero` | nd4j/nd4j-backends/nd4j-api-parent/nd4j-api/src/main/java/org/nd4j/linalg/learning/AdaMaxUpdater.java:101-117 | From `m = u = 0`, one step gives `m = (1 - beta1) g` and `u = abs(g) + Delta`. |
| `AdaMaxMath.FirstUpdateBelowLearningRate` | nd4j/nd4j-backends/nd4j-api-parent/nd4j-api/src/main/java/org/nd4j/linalg/learning/AdaMaxUpdater.java:101-118 | From a zero state, with `0 <= beta1 < 1` and a positive learning rate, the first delta is strictly smaller than the learning rate in magnitude. |
| `AdaMaxMath.FirstStepSize` | nd4j/nd4j-backends/nd4j-api-parent/nd4j-api/src/main/java/org/nd4j/linalg/learning/AdaMaxUpdater.java:109-112 | With beta1 = 0.9 and lr = 0.001, iteration 0 gives step size 0.01. |
| `Learning.KeysAcceptedExactly` | nd4j/nd4j-backends/nd4j-api-parent/nd4j-api/src/main/java/org/nd4j/linalg/learning/AdaMaxUpdater.java:55-57 | The key test (contains "M", contains "V", size 2) accepts a map if and only if its key set is exactly {"M", "V"}. |
| `Learning.ViewHalvesPartition` | nd4j/nd4j-backends/nd4j-api-parent/nd4j-api/src/main/java/org/nd4j/linalg/learning/AdaMaxUpdater.java:76-84 | Both halves reshape if and only if the buffer length is twice the gradient's element count. The `m` view `[0, len/2)` and the `u` view `[len/2, len)` are then disjoint, adjacent, inside the buffer, and together cover all of it. |
| `Learning.AdaMaxUpdater.constructor` | nd4j/nd4j-backends/nd4j-api-parent/nd4j-api/src/main/java/org/nd4j/linalg/learning/AdaMaxUpdater.java:44-51 | Keeps the configuration. Starts with `m` and `u` null, so unbound. |
| `Learning.AdaMaxUpdater.SetState` | nd4j/nd4j-backends/nd4j-api-parent/nd4j-api/src/main/java/org/nd4j/linalg/learning/AdaMaxUpdater.java:54-60 | Throws an illegal-state exception, changing nothing, unless the map has keys "M" and "V" and size 2. Otherwise `m` becomes map["M"] and `u` becomes map["V"]. The reshape order never changes. |
| `Learning.AdaMaxUpdater.GetState` | nd4j/nd4j-backends/nd4j-api-parent/nd4j-api/src/main/java/org/nd4j/linalg/learning/AdaMaxUpdater.java:63-68 | Returns a map with key set exactly {"M", "V"}, holding the live `m` and `u`. The map passes `setState`'s key test. |
| `Learning.AdaMaxUpdater.SetStateViewArray` | nd4j/nd4j-backends/nd4j-api-parent/nd4j-api/src/main/java/org/nd4j/linalg/learning/AdaMaxUpdater.java:71-87 | A buffer that is not a row vector gives an illegal-argument exception and changes nothing. Otherwise the buffer is zero-filled if asked. Then `m` and `u` become the reshaped halves `[0, len/2)` and `[len/2, len)` of that same buffer, or null where a reshape fails. A failed reshape gives an illegal-state exception. On success the order is recorded, and with zero-fill both views read all zeros. Nothing outside the buffer's view changes. |
| `Learning.AdaMaxUpdater.ApplyUpdater` | nd4j/nd4j-backends/nd4j-api-parent/nd4j-api/src/main/java/org/nd4j/linalg/learning/AdaMaxUpdater.java:97-119 | Unbound state gives an illegal-state exception and changes nothing. Otherwise, for every element: `m = beta1*m + (1-beta1)*g`; `u = max(beta2*u, abs(g)) + Delta >= Delta`; and `g = m*alpha/u` with the new `m` and `u`, where alpha is the fallback-guarded step size of `lr(iteration, epoch)`. No other position of any buffer changes. |
| `Learning.AdaMaxUpdater.UpdateAll` | nd4j/nd4j-backends/nd4j-api-parent/nd4j-api/src/main/java/org/nd4j/linalg/learning/AdaMaxUpdater.java:101-118 | The elementwise pass: all elements of `m`, `u` and the gradient follow the three recurrences. Every position outside the three views is unchanged. |
| `Learning.AdaMaxUpdater.UpdateElement` | nd4j/nd4j-backends/nd4j-api-parent/nd4j-api/src/main/java/org/nd4j/linalg/learning/AdaMaxUpdater.java:101-118 | One element of each view follows the recurrences. Every other element of each view, and every position outside the views, is unchanged, even when `m` and `u` share a buffer. |
| `AdaMaxScenarios.CheckpointRoundTrip` | nd4j/nd4j-backends/nd4j-api-parent/nd4j-api/src/main/java/org/nd4j/linalg/learning/AdaMaxUpdater.java:54-67 | `setState(getState())` is accepted and leaves `m`, `u` and the order unchanged. |
| `AdaMaxScenarios.MissingKeyRefused` | nd4j/nd4j-backends/nd4j-api-parent/nd4j-api/src/main/java/org/nd4j/linalg/learning/AdaMaxUpdater.java:55-56 | A map holding only "M" is refused with an illegal-state exception, and the state is kept. |
| `AdaMaxScenarios.RebindKeepsLayout` | nd4j/nd4j-backends/nd4j-api-parent/nd4j-api/src/main/java/org/nd4j/linalg/learning/AdaMaxUpdater.java:76-82 | Binding the same buffer twice succeeds both times, with the same two views. |
| `AdaMaxScenarios.WriteThroughM` | nd4j/nd4j-backends/nd4j-api-parent/nd4j-api/src/main/java/org/nd4j/linalg/learning/AdaMaxUpdater.java:74-82 | After a zero-filling bind, a value written through `m` is visible in the caller's buffer, and every element of `u` is still 0. |
| `AdaMaxScenarios.WriteThroughU` | nd4j/nd4j-backends/nd4j-api-parent/nd4j-api/src/main/java/org/nd4j/linalg/learning/AdaMaxUpdater.java:74-82 | After a zero-filling bind, a value written through `u` is visible in the caller's buffer at position `len/2 + j`, and every element of `m` is still 0. |
| `AdaMaxScenarios.ApplyBeforeBinding` | nd4j/nd4j-backends/nd4j-api-parent/nd4j-api/src/main/java/org/nd4j/linalg/learning/AdaMaxUpdater.java:97-99 | A step on a fresh updater throws an illegal-state exception and leaves the gradient unchanged. |
| `AdaMaxScenarios.FirstStepFromZeroedBuffer` | nd4j/nd4j-backends/nd4j-api-parent/nd4j-api/src/main/java/org/nd4j/linalg/learning/AdaMaxUpdater.java:97-118 | With beta1 0.9, beta2 0.999, epsilon 1e-8 and lr 0.001, bind a zeroed buffer and step once. Each gradient element becomes `0.1 g * 0.01 / (abs(g) + Delta)`, which is below 0.001 in magnitude. |

## Left out

- Floating point: values are exact reals. `FastMath.pow` rounding, NaN and infinities are not modelled.
- `AdaMaxMath.Alpha`: the fallback to epsilon for an infinite or NaN step size (line 113) is modelled only where the divisor `1 - beta1^(t+1)` is exactly 0. The other IEEE cases are not captured: a divisor that is tiny but not 0 so that `lr / (1 - beta1t)` overflows to an infinity, a divisor that only rounds to 0 in doubles, `beta1t` overflowing to an infinity when beta1 > 1 and t is large (the source then falls back to epsilon, the model returns `lr / (1 - beta1^(t+1))`), and NaN or infinite inputs.
- `Learning.AdaMaxUpdater.ApplyUpdater`: requires `m`, `u` and the gradient to have equal length and to occupy non-overlapping memory. Overlapping operands (`m` and `u` aliased through `setState`, or a gradient sharing memory with the bound state, for instance a view of the buffer given to `setStateViewArray`) and mismatched lengths are excluded by the requires and not modelled.
- `Learning.AdaMaxUpdater.ApplyUpdater`: the source's sequence of whole-tensor operations (`muli`, `addi` of the temporary `gradient.mul(1 - beta1)`, the in-place `abs` of the gradient, `Max`, `addi`, `assign`, `muli`, `divi`) is modelled as one pass per element. For non-overlapping operands it gives the same final values. The intermediate states, such as the gradient holding `abs(g)`, are not modelled.
- `Learning.AdaMaxUpdater.ApplyUpdater`: `iteration` is a natural number. A negative Java `int`, and the 32-bit wrap-around of `iteration + 1`, are not modelled.
- Tensors are contiguous with element stride 1. `Shape.newShapeNoCopy` is modelled as a check that the element counts match. Its stride computation for 'c' and 'f' order is not part of this model. The order is only recorded. Elementwise operations pair elements by flat position.
- `INDArray.isRowVector` is not part of this model. A row vector is taken to be a shape `[1, n]`.
- `NDArrayIndex` slicing and `Nd4j.getExecutioner()` dispatch are not part of this model. A slice is a view with an offset and a length over the same buffer.
- `Learning.AdaMaxUpdater.SetState`: the exception message omits the listing of the map's actual keys. A null map (`@NonNull`) cannot arise.
- The `AdaMax` configuration class and its learning-rate schedules are not part of this model. beta1, beta2 and epsilon are constants of the updater, and the schedule is an arbitrary function of (iteration, epoch).
- The accessors, `equals` and `hashCode` generated by Lombok's `@Data`, device/host memory synchronisation and thread safety are not modelled.
