# Quadrotor control pipeline: bounded-integral PID, IRIS+ converter, controller registry

This project is a Dafny model of three parts of a quadrotor control stack. It proves properties of each.

- **`BoundedIntegralPIDController`** is a fully-actuated position controller. Each tick it:
  - splits the state and reference into position, velocity and feed-forward acceleration;
  - asks an inner double-integrator controller for a feedback `u` and a Lyapunov term `V_v`;
  - returns the force `MASS*(ad + u + g·e3 - d_est)`;
  - integrates a disturbance estimate `gains ⊙ V_v · (t_new - t_old)` and clamps it per axis.

  Its parameters serialise to a dictionary. The nested `(class name, parameters)` entry in that dictionary is decoded by looking the name up in a registry.
- **`IrisPlusConverter`** turns a desired 3-D force and yaw rate into the four-channel IRIS+ command `[roll, pitch, throttle, yaw]`. It:
  - clamps each channel;
  - recalibrates the neutral (hover) throttle, roll and pitch values from the median of recent forces;
  - keeps every recalibrated neutral inside a fixed safety range.
- **`di_ctrl_dictionary`** is the constant registry from names to double-integrator controller classes. Five names map to four classes, because one name is an alias.

Files:

| file | module | models |
|---|---|---|
| `wrappers.dfy` | `Wrappers` | `Option` and `Result` |
| `vectors.dfy` | `Vectors` | 3-vectors and 3×3 matrices as `seq<real>`; `numpy.clip` as `Clip` |
| `di_ctrl_dictionary.dfy` | `DoubleIntegratorControllers` | the registry, as a `map<string, DIClass>` |
| `median_filter.dfy` | `MedianFilter` | the median filter's sliding window; the median itself is opaque |
| `bounded_integral_pid_controller.dfy` | `BoundedIntegralPid` | parameter records, the control law and the controller class |
| `converter_neo.dfy` | `ConverterNeo` | `roll_pitch`, the channel maps, the recalibration rules and the converter class |

Each form follows the source:

- State that the source mutates is a Dafny `class` with `modifies` clauses.
- The numpy arrays behind `disturbance_estimate` and `d_est` are `array<real>` fields, so the aliasing set up at `__init__` is literal:
  - both names start on the same zero array;
  - `output` and `reset_disturbance_estimate` rebind `disturbance_estimate` to new arrays;
  - `d_est` keeps the first array.

  `Output` therefore proves that the force is the force of a zero disturbance.
- `string_to_parameters` is a `method` with a `while` loop that rewrites the dictionary entry by entry. The recursive function `DecodeContained` is its specification.
- `input_conveter` fills a fresh `array<real>` of four channels.

Three behaviours of the source that the model keeps as written:

- The neutrals are not kept in their safety ranges by every mutation. The constructor takes the throttle, roll and pitch neutrals as given, by default 1.0, 0.0 and 0.0 (converter_neo.py:42-44). The incomplete reset leaves roll and pitch alone (converter_neo.py:69-84). Only the clamping operations establish the ranges, and their contracts say so.
- The integral step updates `disturbance_estimate`, not `d_est` (bounded_integral_pid_controller.py:151-153). The force subtracts `d_est` (:136), which stays the initial zero array.
- The neutrals are clamped to PWM-like ranges (`[1350, 1600]` for throttle, `[1440, 1560]` for roll and pitch), while the final command is clipped to `[0, 1.5]` and `[-0.25, 0.25]`. After any reset the hover throttle therefore sits at its 1.5 ceiling (`ConverterNeo.CalibratedHoverThrottleSaturates`). Level roll and pitch sit at their 0.25 ceiling whenever their neutrals are in `[1440, 1560]`, which a complete reset guarantees (`ConverterNeo.CalibratedNeutralsSaturateAngles`); the incomplete reset, the default strategy, leaves the default neutrals of 0.0 alone, and those channels then stay at 0. The source does not say which of the two unit conventions is meant, so the model keeps both as written.

## Model

| member | source | states |
|---|---|---|
| `Vectors.Clip` | quad_control/src/type_uav/converter_neo.py:81 | `numpy.clip` on a scalar. For `lo <= hi` the result is in `[lo, hi]`: `lo` below the range, `hi` above it, `x` unchanged inside it. For `hi < lo` the result is `hi`, as numpy's `minimum(maximum(x, lo), hi)` gives. |
| `DoubleIntegratorControllers.RegisteredNames` | quad_control/scripts/controllers_hierarchical/double_integrator_controllers/di_ctrl_dictionary.py:6-12 | The registered names are every class's own name plus the default alias: five distinct strings. |
| `DoubleIntegratorControllers.Lookup` | quad_control/scripts/controllers_hierarchical/fully_actuated_controllers/bounded_integral_pid_controller.py:63 | `value[name]` succeeds exactly when the name is a key, and then yields the class registered under it. Otherwise it fails (a KeyError in the source). |
| `DoubleIntegratorControllers.RegistryHasFiveNames` | quad_control/scripts/controllers_hierarchical/double_integrator_controllers/di_ctrl_dictionary.py:6-12 | The registry's keys are exactly those five names, so it has five entries. |
| `DoubleIntegratorControllers.ClassNameResolves` | quad_control/scripts/controllers_hierarchical/double_integrator_controllers/di_ctrl_dictionary.py:7-11 | Each of the four classes is registered under its own `__name__` and resolves back to itself. |
| `DoubleIntegratorControllers.DefaultIsNeutral` | quad_control/scripts/controllers_hierarchical/double_integrator_controllers/di_ctrl_dictionary.py:8-9 | `"DoubleIntegratorDefaultController"` resolves to the neutral controller, the same class as `"DoubleIntegratorNeutralController"`. |
| `DoubleIntegratorControllers.FourDistinctClasses` | quad_control/scripts/controllers_hierarchical/double_integrator_controllers/di_ctrl_dictionary.py:6-12 | The values are exactly the four classes. Two different names share a class only when they are the alias and the neutral name. |
| `DoubleIntegratorControllers.UnregisteredNameFails` | quad_control/scripts/controllers_hierarchical/double_integrator_controllers/di_ctrl_dictionary.py:6-12 | Every name outside the five fails to resolve. |
| `DoubleIntegratorControllers.DefaultDicUnregistered` | quad_control/scripts/controllers_hierarchical/double_integrator_controllers/di_ctrl_dictionary.py:6-12 | `"DefaultDIC"` is not a key of `di_ctrl_dictionary`. This is a fact about that registry only: the PID's defaults look the key up in `database_dic`, which is not part of this model. |
| `BoundedIntegralPid.ParametersToString` | quad_control/scripts/controllers_hierarchical/fully_actuated_controllers/bounded_integral_pid_controller.py:34-53 | The serialised dictionary has exactly the six keys: the nested controller entry and the five numeric parameters. |
| `BoundedIntegralPid.ContainedObjects` | quad_control/scripts/controllers_hierarchical/fully_actuated_controllers/bounded_integral_pid_controller.py:24-25 | Exactly one entry is decoded: the nested controller key, against the registry given (`database_dic` in the source). |
| `BoundedIntegralPid.DecodeEntry` | quad_control/scripts/controllers_hierarchical/fully_actuated_controllers/bounded_integral_pid_controller.py:62-69 | Decoding the nested entry fails on a missing key, on an entry that is not a pair, and on a class name the registry lacks, with that reason. Otherwise it succeeds (if and only if). It keeps the key set and every other entry. It replaces the entry with an instance of the named class, built from the inner parameters, with `None` read as no arguments. |
| `BoundedIntegralPid.DecodeContained` | quad_control/scripts/controllers_hierarchical/fully_actuated_controllers/bounded_integral_pid_controller.py:61-71 | The loop's specification. A successful decode keeps the key set, turns every contained key into a controller instance, and leaves every key that is not contained untouched. |
| `BoundedIntegralPid.StringToParameters` | quad_control/scripts/controllers_hierarchical/fully_actuated_controllers/bounded_integral_pid_controller.py:57-71 | The in-place loop over the contained objects returns what `DecodeContained` specifies: the entries decoded in turn, with the first failure aborting. |
| `BoundedIntegralPid.ParametersRoundTrip` | quad_control/scripts/controllers_hierarchical/fully_actuated_controllers/bounded_integral_pid_controller.py:34-71 | Take any registry that knows the inner class under its own name. Decoding what `parameters_to_string` produced succeeds and gives back the same five numbers. The nested entry becomes an instance of that class with the same parameters. |
| `BoundedIntegralPid.RegistryRoundTrip` | quad_control/scripts/controllers_hierarchical/fully_actuated_controllers/bounded_integral_pid_controller.py:24-71 | With `di_ctrl_dictionary` as the registry, the round trip holds for every one of the four classes. |
| `BoundedIntegralPid.UnknownInnerNameFails` | quad_control/scripts/controllers_hierarchical/fully_actuated_controllers/bounded_integral_pid_controller.py:63 | A nested class name outside the registry makes decoding fail with that name, whatever the other entries are. |
| `BoundedIntegralPid.DefaultDicNotDecodable` | quad_control/scripts/controllers_hierarchical/fully_actuated_controllers/bounded_integral_pid_controller.py:63 | Decoded against `di_ctrl_dictionary`, a dictionary whose nested entry names `"DefaultDIC"` fails at the class lookup with that name. `parameters_to_string` stores the class's `__name__`, so it never produces such an entry itself; `database_dic`, the registry the source decodes against, is not part of this model. |
| `BoundedIntegralPid.FullActuation` | quad_control/scripts/controllers_hierarchical/fully_actuated_controllers/bounded_integral_pid_controller.py:136 | `MASS*(ad + u + g·e3 - d)`: the disturbance is subtracted in full, so a disturbance equal to `ad + u` leaves only the gravity compensation `(0, 0, MASS·9.81)`. |
| `BoundedIntegralPid.FullActuationComponents` | quad_control/scripts/controllers_hierarchical/fully_actuated_controllers/bounded_integral_pid_controller.py:136 | Per component, the force is the mass times (feed-forward + feedback − disturbance), with gravity 9.81 added on z only. |
| `BoundedIntegralPid.HoverForce` | quad_control/scripts/controllers_hierarchical/fully_actuated_controllers/bounded_integral_pid_controller.py:136 | With zero feedback, feed-forward and disturbance, the force is `(0, 0, MASS·9.81)`. |
| `BoundedIntegralPid.AxisStep` | quad_control/scripts/controllers_hierarchical/fully_actuated_controllers/bounded_integral_pid_controller.py:151-153 | One axis of the step `d + dt·(gain·V_v)`, clamped to `[-bound, bound]`. It is unchanged inside the range and saturates at the violated end. With a non-negative bound the result is always within it. |
| `BoundedIntegralPid.EstimateStep` | quad_control/scripts/controllers_hierarchical/fully_actuated_controllers/bounded_integral_pid_controller.py:142-153 | The same step on all three axes at once, with per-axis gains and bounds. |
| `BoundedIntegralPid.EstimateUnchangedAtSameTime` | quad_control/scripts/controllers_hierarchical/fully_actuated_controllers/bounded_integral_pid_controller.py:150-153 | With `t_new == t_old`, an estimate already within its bounds is left unchanged. |
| `BoundedIntegralPid.EstimateAfter` | quad_control/scripts/controllers_hierarchical/fully_actuated_controllers/bounded_integral_pid_controller.py:142-155 | The estimate after a run of `output` calls: with no calls, the estimate is unchanged; after at least one call every axis with a non-negative bound lies within it. |
| `BoundedIntegralPid.EstimateAfterBounded` | quad_control/scripts/controllers_hierarchical/fully_actuated_controllers/bounded_integral_pid_controller.py:142-155 | With non-negative bounds, any run of `output` calls (any `V_v`, any time stamps) leaves the estimate within its bounds. An estimate that starts within them never leaves. |
| `BoundedIntegralPid.BoundedIntegralPIDController.constructor` | quad_control/scripts/controllers_hierarchical/fully_actuated_controllers/bounded_integral_pid_controller.py:73-104 | The gains, bounds, mass and inner controller are stored. The estimate is a fresh zero array, `d_est` names that same array, and `t_old` is 0. |
| `BoundedIntegralPid.BoundedIntegralPIDController.Output` | quad_control/scripts/controllers_hierarchical/fully_actuated_controllers/bounded_integral_pid_controller.py:114-157 | The force is `MASS*(ad + u + g·e3 - d_est)`, where `u` is the inner controller's output on `ep = x - xd` and `ev = v - vd`. Because `d_est` is still the zero array, this is also the force of a zero disturbance. The new estimate is `EstimateStep` of the old one over `t - t_old`, on a fresh array: per axis, x and y step with `integral_gain_xy` and `bound_integral_xy` and z with `integral_gain_z` and `bound_integral_z`, each by `AxisStep`. Each axis lies within its non-negative bound. `t_old` becomes `t`. |
| `BoundedIntegralPid.BoundedIntegralPIDController.UpdateDisturbanceEstimate` | quad_control/scripts/controllers_hierarchical/fully_actuated_controllers/bounded_integral_pid_controller.py:142-155 | The estimate is rebound to a fresh array that holds `EstimateStep` of the old one: x and y by `AxisStep` with the horizontal gain and bound, z with its own. `d_est` still points at the zero array, and `t_old` becomes `t_new`. |
| `BoundedIntegralPid.BoundedIntegralPIDController.ResetDisturbanceEstimate` | quad_control/scripts/controllers_hierarchical/fully_actuated_controllers/bounded_integral_pid_controller.py:160-162 | The estimate becomes a fresh zero array. `t_old`, `d_est` and the configuration are unchanged. |
| `MedianFilter.Slide` | quad_control/src/type_uav/converter_neo.py:152 | After a push, the window holds the newest `min(old length + 1, size)` samples of the old window plus the new one. The new sample is last. |
| `MedianFilter.FilledWithRepeated` | quad_control/src/type_uav/converter_neo.py:34 | After at least `size` pushes of the same sample, the window holds exactly `size` copies of it, whatever it held before. |
| `MedianFilter.MedianFilter3D.constructor` | quad_control/src/type_uav/converter_neo.py:34 | The filter starts with an empty window of the given size. |
| `MedianFilter.MedianFilter3D.UpdateData` | quad_control/src/type_uav/converter_neo.py:152 | The window slides by exactly one sample. |
| `MedianFilter.MedianFilter3D.Output` | quad_control/src/type_uav/converter_neo.py:73 | The opaque per-axis median of the current window; nothing is stated about its value. |
| `ConverterNeo.DesiredDirection` | quad_control/src/type_uav/converter_neo.py:219-227 | At or below the threshold `0.1·g·m`, the direction is `e3`, whatever the force. Above it, the direction scaled by the norm gives back the force. |
| `ConverterNeo.RotatedDirection` | quad_control/src/type_uav/converter_neo.py:219-225 | `rot_z(-psi)` applied to the force over its norm above the threshold, and to `e3` at or below it. |
| `ConverterNeo.ClippedQuotient` | quad_control/src/type_uav/converter_neo.py:232-235 | `clip(x / cos(phi), -1, 1)` always lies in `[-1, 1]`. It equals the quotient when the quotient is in range and saturates at the exceeded end. |
| `ConverterNeo.RollPitchArguments` | quad_control/src/type_uav/converter_neo.py:219-236 | All three arguments passed to `arcsin` and `arctan2` lie in `[-1, 1]`. `sin_phi` is the negated y component of the rotated direction whenever that is in range. When `cos(phi) = 1`, the other two are the clipped x and z components. |
| `ConverterNeo.RollPitch` | quad_control/src/type_uav/converter_neo.py:212-238 | Roll is `arcsin` and pitch is `arctan2` of arguments that lie in `[-1, 1]`: the clipping guarantees the inverse functions stay in their domain. |
| `ConverterNeo.WeakForceFallsBackToVertical` | quad_control/src/type_uav/converter_neo.py:221-227 | Below the threshold the rotated direction is `rot_z(-psi)·e3`, so any two weak forces give the same roll and pitch. |
| `ConverterNeo.RollChannel` | quad_control/src/type_uav/converter_neo.py:196 | The roll neutral plus the compensated roll in PWM units: the neutral itself at zero roll, above it when gain times roll is positive, below it when negative. |
| `ConverterNeo.PitchChannel` | quad_control/src/type_uav/converter_neo.py:198 | The pitch neutral minus the compensated pitch: the neutral at zero pitch, below it when gain times pitch is positive, above it when negative. |
| `ConverterNeo.YawChannel` | quad_control/src/type_uav/converter_neo.py:200 | The yaw rate over its maximum, times 500: zero at zero rate, ±500 at full rate, and of the same sign as the rate. |
| `ConverterNeo.ThrottleChannel` | quad_control/src/type_uav/converter_neo.py:202 | The force along the thrust axis `R·e3`, times the neutral over `g·m`: the neutral when that projection equals the hover force `g·m`, zero when the force is orthogonal to the thrust axis. |
| `ConverterNeo.RawCommand` | quad_control/src/type_uav/converter_neo.py:190-202 | The four channels in IRIS+ order `[roll, pitch, throttle, yaw]`. A level desired attitude with zero yaw rate gives the roll and pitch neutrals and a zero yaw; the hover force along the thrust axis gives the throttle neutral. |
| `ConverterNeo.ClipCommand` | quad_control/src/type_uav/converter_neo.py:205-207 | Roll, pitch and yaw are clipped to `[-0.25, 0.25]` and throttle to `[0, 1.5]`. A channel already in range passes unchanged, and throttle above 1.5 becomes 1.5. |
| `ConverterNeo.ClipCommandAsWritten` | quad_control/src/type_uav/converter_neo.py:205-207 | The clip step as written returns the clipped command exactly when the module binds `np`; otherwise it raises `NameError` for `np`. |
| `ConverterNeo.ClipCommandAsWrittenRaises` | quad_control/src/type_uav/converter_neo.py:11-13 | With the names the module actually imports, the clip step raises `NameError` for every command. |
| `ConverterNeo.HoverThrottleIsNeutral` | quad_control/src/type_uav/converter_neo.py:202 | In level attitude, the hover force `(0, 0, m·g)` gives exactly the throttle neutral on the throttle channel before clipping. |
| `ConverterNeo.CalibratedHoverThrottleSaturates` | quad_control/src/type_uav/converter_neo.py:202-206 | With a throttle neutral in its safety range `[1350, 1600]`, the hover force drives the clipped throttle channel to its 1.5 ceiling. |
| `ConverterNeo.CalibratedNeutralsSaturateAngles` | quad_control/src/type_uav/converter_neo.py:196-207 | With roll and pitch neutrals in their safety range `[1440, 1560]`, a level command drives both clipped channels to their 0.25 ceiling. |
| `ConverterNeo.RescaledThrottleNeutral` | quad_control/src/type_uav/converter_neo.py:78-81 | The neutral times the median vertical force over `m·g`, clamped: always in `[1350, 1600]`, and equal to the scaled value when that is in range. |
| `ConverterNeo.DoubleForceDoublesNeutral` | quad_control/src/type_uav/converter_neo.py:78 | A median vertical force of `2·m·g` doubles the neutral before clamping. |
| `ConverterNeo.HoverForceKeepsNeutral` | quad_control/src/type_uav/converter_neo.py:78-81 | A median vertical force of exactly `m·g` leaves an in-range neutral unchanged. |
| `ConverterNeo.CompensatedRollNeutral` | quad_control/src/type_uav/converter_neo.py:110-111 | The roll neutral plus the compensated roll in PWM units, clamped: always in `[1440, 1560]`, and exact when in range. |
| `ConverterNeo.CompensatedPitchNeutral` | quad_control/src/type_uav/converter_neo.py:114-115 | The pitch neutral minus the compensated pitch in PWM units, clamped: always in `[1440, 1560]`, and exact when in range. |
| `ConverterNeo.CompensationSigns` | quad_control/src/type_uav/converter_neo.py:110-115 | The roll term is added and the pitch term subtracted: a pitch of `-a` moves the pitch neutral as a roll of `a` moves the roll neutral. With a non-negative gain, a larger roll never lowers the roll neutral and a larger pitch never raises the pitch neutral. |
| `ConverterNeo.IrisPlusConverter.constructor` | quad_control/src/type_uav/converter_neo.py:28-60 | The parameters are stored. The filter has window 70 and starts empty. Euler angles are zero and the rotation is the identity. The reset strategy is complete exactly when the flag is set, and it is a constant from then on. |
| `ConverterNeo.IrisPlusConverter.SetMass` | quad_control/src/type_uav/converter_neo.py:62-64 | Only the mass changes. |
| `ConverterNeo.IrisPlusConverter.GetKThrottleNeutral` | quad_control/src/type_uav/converter_neo.py:66-67 | Returns the current throttle neutral and changes nothing. |
| `ConverterNeo.IrisPlusConverter.IncompleteResetKTrottleNeutral` | quad_control/src/type_uav/converter_neo.py:69-84 | The throttle neutral becomes `RescaledThrottleNeutral` of the old one and the median vertical force, so it lies in `[1350, 1600]`. Roll and pitch neutrals, mass and orientation are unchanged. |
| `ConverterNeo.IrisPlusConverter.CompleteResetKTrottleNeutral` | quad_control/src/type_uav/converter_neo.py:86-118 | The same throttle rule. Then the roll and pitch neutrals become `CompensatedRollNeutral` and `CompensatedPitchNeutral` of the `roll_pitch` of the median force, so both lie in `[1440, 1560]`. Mass and orientation are unchanged. |
| `ConverterNeo.IrisPlusConverter.ResetKTrottleNeutral` | quad_control/src/type_uav/converter_neo.py:57-60 | The bound reset runs the strategy fixed at construction. The throttle rule always applies. Roll and pitch neutrals stay put under the incomplete strategy and are compensated under the complete one. |
| `ConverterNeo.IrisPlusConverter.SetKTrottleNeutral` | quad_control/src/type_uav/converter_neo.py:120-126 | The throttle neutral becomes `clip(v, 1350, 1600)`: `v` itself when in range. Nothing else changes. |
| `ConverterNeo.IrisPlusConverter.SetRotationMatrix` | quad_control/src/type_uav/converter_neo.py:135-148 | The rotation matrix and Euler angles are replaced as a whole. Neutrals and mass are unchanged. |
| `ConverterNeo.IrisPlusConverter.InputConveter` | quad_control/src/type_uav/converter_neo.py:150-210 | The force enters the median window exactly once. The returned fresh 4-array is `ClipCommand` of the raw channels: roll and pitch from `roll_pitch`, throttle as the force projected on `R·e3` times the neutral over `g·m`, and yaw. Its channels lie in `[-0.25, 0.25]` and `[0, 1.5]`. Neutrals, mass, rotation and Euler angles are unchanged. |

## Left out

- `rospy.get_param` and `rospy.logwarn`: an external parameter service and logging. The values the service would give (gravity, neutrals, mass, gains, the complete-reset flag) are constructor parameters, and the log calls are dropped.
- JSON text encoding and decoding (`json.dumps` / `json.loads`): the model works on the dictionary, with numbers, the nested `(name, parameters)` pair and `null` as `None`.
- `database_dic` is not part of this model. `StringToParameters` takes the registry as a parameter, and the lemmas instantiate it with `di_ctrl_dictionary`.
- The inner double-integrator controllers: their `output` is an abstract function field. Only `u` and `V_v` of its 12-tuple are kept, and the keyword arguments passed to the class are not checked against its constructor.
- `utility_functions.bound` is not part of this model. It is taken to be the element-wise clamp to `[-max, max]` that its call site describes.
- `MedianFilter3D` is not part of this model. Its window is modelled as the newest `size` samples (window 70), and the per-axis median is an opaque function fixed at construction, so nothing is proved about the median's value.
- `MedianFilter.MedianFilter3D.Output`: has no contract; it applies the opaque median to the window, and nothing is stated about its value, because the median's code is not part of this model.
- The PID's default arguments (`database_dic["DefaultDIC"]`, 0.0, 0.0, 0.5, 0.0 and 1.66779) are not modelled, since `database_dic` is not part of this model; `ParametersToString` and the constructor take every argument explicitly. Where the source always fills the nested parameters from the inner class's own `parameters_to_string()` JSON text, `ParametersToString` accepts any optional map of keyword arguments.
- `numpy.linalg.norm`, `rot_z`, `arcsin`, `cos` and `arctan2` are abstract functions. No inversion of the forward rotation convention is proved.
- `ConverterNeo.ClippedQuotient`: a zero `cos(phi)` is modelled by the sign of the IEEE infinity after clipping. 0/0 gives 0, where numpy gives NaN.
- Floating point in general: all arithmetic is over `real`. A zero `gravity·total_mass` would give numpy infinities or NaN, so the methods that divide by it require it to be positive.
- `set_rotation_matrix`: the quaternion-to-matrix and matrix-to-Euler conversions are not shown, so the method takes the resulting matrix and angles as arguments.
- `reset_parameters` (a no-op), `descriptive_message`, `description` and `__str__`: text only, no state.
- `gui/src/gui/choose_mission.py`: Qt widgets and ROS service calls.
- `BoundedIntegralPid.BoundedIntegralPIDController.Output`: the source slices position and velocity from `state[0:6]` and position, velocity and acceleration from `reference[0:9]`. It does not check their lengths, so the model requires at least 6 and 9 elements.

## Findings

| source | as written | input that shows it | evidently intended | confidence | as-written member | corrected member |
|---|---|---|---|---|---|---|
| quad_control/src/type_uav/converter_neo.py:205-207 | The final clamp calls `np.clip`, but the module imports `numpy`, `rospy` and `uts` and never binds `np`. | Any call of `input_conveter`: the force is pushed into the median filter, then the clamp raises `NameError` and no command is returned. | `numpy.clip`, as everywhere else in the file. | high; not executed | `ConverterNeo.ClipCommandAsWritten` (with `ConverterNeo.ClipCommandAsWrittenRaises`) | `ConverterNeo.ClipCommand`, used by `ConverterNeo.IrisPlusConverter.InputConveter` |
