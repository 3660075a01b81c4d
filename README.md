# bestman in Dafny

This project models the core of **bestman**, a Python layer that wraps vendor
robot-arm SDKs (a UFactory xArm and a Startouch arm) behind one robot interface.
It covers:

- **Configuration validation.** `RobotConfig.__post_init__` checks three things:
  - the required SDK keys are present;
  - the joint count matches `dof`;
  - every camera declares width, height and fps.

  It also covers the xArm, Startouch and camera config variants.
- **Driver registry.** A mutable dictionary maps a config class to the driver
  registered for it by `@register_robot`. `make_robot_from_config` looks up the
  exact class of a config there.
- **The two driver adapters** (`BestmanXarm`, `BestmanStartouch`) and the
  Startouch SDK wrapper `SingleArm`. Each is a class over an SDK handle; the
  handle keeps a ghost log of the calls it received. Their contracts state:
  - which SDK calls are made, and in what order;
  - mode gating (servo calls need mode 1, move calls switch to mode 0);
  - shape checks before any hardware call;
  - metre/millimetre scaling;
  - the clean-up after a failed connect.
- **Pose algebra:**
  - the Hamilton product and vector rotation on `[w, x, y, z]` quaternions;
  - the wxyz/xyzw reorderings;
  - quaternion/Euler conversion;
  - 4×4 homogeneous transforms and their composition.

  arctan2, arcsin, sin, cos, sqrt and scipy's `Rotation` are passed in as
  uninterpreted functions (`Geometry.Trig`, `Geometry.Rotations`).
- **Trajectory pipelines.** There are two:
  - the `TrajReplayer` class: loading, nearest-timestamp gripper widths clipped
    to [0, 88], mapping into the robot frame, decimation, and a clock-paced
    servo loop;
  - the Startouch replay script: line parsing with skip rules, alignment to the
    live start pose, and the paced playback loop.
- **Session selection.** This covers parsing `multi_sessions_YYYYMMDD_HHMMSS`
  timestamps, the newest-first and by-name orderings, and how an interactive
  answer resolves to an index.

Python exceptions become `Result` error values, checked in the order the code
checks them. The wall clock is a function from step number to reading. `time.sleep`
durations are outputs. Text-to-number parsing (`float()`, `int()`) is a function
parameter. Directory listings and `input()` answers are given as sequences.

Module layout: one module per source file, plus these helper modules:
- `Wrappers` (Option/Result) and `PyValues` (Python values and keyword dictionaries);
- `Strings` (Python `str.strip`/`str.split` and lexicographic order);
- `Sorting` (a stable insertion sort standing in for `sorted`);
- `Geometry` (vectors, matrices, quaternions).

## Model

| member | source | states |
|---|---|---|
| CameraConfig.New | bestman/src/bestman/camera/config.py:9-26 | a camera config keeps every field as given; height, width, fps and id default to unset, sdk_kwargs to an empty dictionary, dof to 6; its type is the registered choice name |
| CameraConfig.DefaultCameraUnset | bestman/src/bestman/camera/config.py:16-21 | a default camera has no height, width or fps and accepts any SDK keys (no key validation exists for cameras) |
| RobotConfig.Distinct | bestman/src/bestman/robots/config.py:31 | the set of keys, without repetitions, with exactly the members of the input |
| RobotConfig.MissingKeys | bestman/src/bestman/robots/config.py:31-34 | the missing keys are exactly the required keys not supplied, strictly ascending (sorted, each once) |
| RobotConfig.FilterOut | bestman/src/bestman/robots/config.py:31 | set difference: members are exactly the input's members outside the key set; no repetitions are introduced |
| RobotConfig.MissingKeysEmpty | bestman/src/bestman/robots/config.py:31-32 | nothing is missing if and only if every required key is supplied (extra keys never matter) |
| RobotConfig.OneMissingKey | bestman/src/bestman/robots/config.py:31-34 | with a single required key that is absent, the error lists exactly that key |
| RobotConfig.UnsetCameraAttr | bestman/src/bestman/robots/config.py:44-48 | reports the first unset attribute in the order width, height, fps, and none exactly when all three are set |
| RobotConfig.CheckCameras | bestman/src/bestman/robots/config.py:42-48 | passes exactly when every camera is complete; otherwise reports the unset attribute of the first incomplete camera in dictionary order |
| RobotConfig.Validate | bestman/src/bestman/robots/config.py:29-51 | a config is accepted exactly when the required keys are supplied, initial_joints exists with length dof, and every camera is complete; an accepted config is returned unchanged |
| RobotConfig.ValidateErrors | bestman/src/bestman/robots/config.py:31-40 | a missing-keys error happens exactly when some required key is absent, and carries the type, the sorted missing keys, the required list and the supplied keys; a length error carries dof and the actual length, which differ |
| RobotConfig.ExtraKwargsAccepted | bestman/src/bestman/robots/config.py:31-32 | adding SDK keys to a valid config keeps it valid |
| RobotConfig.KeysCheckedBeforeLength | bestman/src/bestman/robots/config.py:31-40 | a config failing both the key check and the length check reports the missing keys |
| RobotConfig.NoJointsNeverValid | bestman/src/bestman/robots/config.py:26-37 | a config without initial_joints never validates; with its keys present the error is the failed len(None) |
| RobotConfig.CameraAndGripperChecks | bestman/src/bestman/robots/config.py:42-51 | with no cameras the camera check is skipped; a first camera without width is rejected naming width; the gripper value never changes the outcome |
| RobotConfig.DefaultCameraRejected | bestman/src/bestman/robots/config.py:42-48 | a config otherwise valid but holding a default camera is rejected for its missing width |
| XArmConfig.New | bestman/src/bestman/robots/xarm/xarm_config.py:14-39 | an XArmConfig validates exactly when "port" is supplied and initial_joints has length dof; a valid one has type "xarm" and keeps its fields; without "port" the error names ["port"] |
| XArmConfig.DefaultRejected | bestman/src/bestman/robots/xarm/xarm_config.py:30-39 | the all-defaults XArmConfig fails the key check with an empty supplied key set |
| XArmConfig.Xarm7ExampleAccepted | examples/xarm/xarm7/02_move_joints.py:13-19 | the 7-joint example configuration with a "port" key validates |
| StartouchConfig.New | bestman/src/bestman/robots/startouch/startouch_config.py:15-42 | a StartouchConfig validates exactly when "can_interface_" is supplied and initial_joints has length dof; a valid one has type "startouch" and keeps its fields; otherwise the error names ["can_interface_"] |
| StartouchConfig.DefaultKwargsAccepted | bestman/src/bestman/robots/startouch/startouch_config.py:31-36 | the default sdk_kwargs satisfy the config's own requirement, given six initial joints |
| StartouchConfig.CanPortExampleRejected | examples/startouch/00_init_from_class.py:10-16 | sdk_kwargs {"can_port": "can0"} replace the default and fail the key check |
| Factory.ClassNames | bestman/src/bestman/robots/factory.py:32 | one name per registered class, in registry order |
| Factory.Registry.constructor | bestman/src/bestman/robots/factory.py:8 | the registry starts empty |
| Factory.Registry.Register | bestman/src/bestman/robots/factory.py:10-15 | the entry for the config class becomes the driver (overwriting silently, never removing), a new key goes to the end of the insertion order, and the driver is returned unchanged |
| Factory.Registry.Available | bestman/src/bestman/robots/factory.py:32 | the names of all registered config classes, in insertion order |
| Factory.Registry.MakeRobot | bestman/src/bestman/robots/factory.py:19-36 | no type gives an error before any lookup; an exactly registered class gives its driver built on the config; any other class gives an error listing every registered name; the registry is not changed |
| Factory.RegisterTwice | bestman/src/bestman/robots/factory.py:13 | registering the same class twice keeps only the second driver and does not reorder the keys |
| Registration.ImportXarmDriver | bestman/src/bestman/robots/xarm/bestman_xarm.py:18-19 | importing the xArm adapter registers BestmanXarm for XArmConfig |
| Registration.ImportStartouchDriver | bestman/src/bestman/robots/startouch/bestman_startouch.py:22-23 | importing the Startouch adapter registers BestmanStartouch for StartouchConfig |
| Registration.OnlyXarmImported | bestman/src/bestman/robots/factory.py:28-33 | with only the xArm adapter imported, an XArmConfig makes a BestmanXarm and a StartouchConfig is unsupported, the error listing ["XArmConfig"] |
| Registration.BothImported | bestman/src/bestman/robots/factory.py:28-36 | with both adapters imported each config makes its own driver, and any other class is unsupported, the error listing both names in import order |
| XArmDriver.XArmApi.constructor | bestman/src/bestman/robots/xarm/bestman_xarm.py:52 | the SDK handle is built from sdk_kwargs, starts with the controller's mode, reply code and position, and with no calls |
| XArmDriver.XArmApi.Send | bestman/src/bestman/robots/xarm/bestman_xarm.py:125-139 | an SDK call is logged; only set_mode changes the mode and only set_state changes the state; the reply code is returned |
| XArmDriver.SetupCalls | bestman/src/bestman/robots/xarm/bestman_xarm.py:54-59 | the connect sequence is clean_warn, clean_error, set_tcp_offset only when a tcp offset is configured, motion_enable(True), set_mode(0), with no call repeated |
| XArmDriver.SetupRun | bestman/src/bestman/robots/xarm/bestman_xarm.py:54-60 | the calls made are a prefix of the setup sequence; a rejected call ends it and appears only at its end, otherwise the whole sequence is made |
| XArmDriver.ModeReset | bestman/src/bestman/robots/xarm/bestman_xarm.py:167-168 | a move call issues set_mode(0) then set_state(0) only when the mode is not already 0 |
| XArmDriver.ScaleXyz | bestman/src/bestman/robots/xarm/bestman_xarm.py:329-330 | the first three components are scaled and the others pass through unchanged |
| XArmDriver.ToMillimetres | bestman/src/bestman/robots/xarm/bestman_xarm.py:200 | x, y and z multiplied by 1000, the angles unchanged |
| XArmDriver.ToMetres | bestman/src/bestman/robots/xarm/bestman_xarm.py:330 | x, y and z divided by 1000, the angles unchanged |
| XArmDriver.MetreMillimetreRoundTrip | bestman/src/bestman/robots/xarm/bestman_xarm.py:196-205 | converting to millimetres and back to metres (and the reverse) returns the original pose |
| XArmDriver.PositionCall | bestman/src/bestman/robots/xarm/bestman_xarm.py:196-205 | the set_position call carries xyz in millimetres and the angles unchanged, with the given is_radian and wait |
| XArmDriver.BestmanXarm.constructor | bestman/src/bestman/robots/xarm/bestman_xarm.py:29-33 | a fresh adapter has no SDK handle and no cameras |
| XArmDriver.BestmanXarm.Mode | bestman/src/bestman/robots/xarm/bestman_xarm.py:142-144 | reads the SDK's mode back; fails without a handle |
| XArmDriver.BestmanXarm.Connect | bestman/src/bestman/robots/xarm/bestman_xarm.py:50-65 | on success the handle holds exactly the setup sequence and is in mode 0; a setup call that raises stops the sequence there, the handle is disconnected and dropped, and a connection error names the call |
| XArmDriver.BestmanXarm.Abort | bestman/src/bestman/robots/xarm/bestman_xarm.py:61-65 | after a failed setup, the SDK receives disconnect, the handle is reset to None and a connection error is returned |
| XArmDriver.BestmanXarm.Setup | bestman/src/bestman/robots/xarm/bestman_xarm.py:55-59 | one setup call is logged; it raises exactly when the controller rejects that call |
| XArmDriver.BestmanXarm.RunSetup | bestman/src/bestman/robots/xarm/bestman_xarm.py:54-60 | runs the setup calls in order and stops at the first one the controller rejects, naming it; when none is rejected the handle ends in mode 0 |
| XArmDriver.BestmanXarm.Disconnect | bestman/src/bestman/robots/xarm/bestman_xarm.py:81-86 | the SDK receives disconnect when a handle exists; the handle is kept, so a second call disconnects again |
| XArmDriver.BestmanXarm.SetMode | bestman/src/bestman/robots/xarm/bestman_xarm.py:123-140 | issues set_mode(m) then set_state(0); afterwards the mode reads back m |
| XArmDriver.BestmanXarm.MoveToJointPositions | bestman/src/bestman/robots/xarm/bestman_xarm.py:153-178 | switches to mode 0 if needed before the length check; a joint list whose length is not dof is rejected after that switch; otherwise set_servo_angle is sent and the result is reply code == 0 |
| XArmDriver.BestmanXarm.MoveToEePose | bestman/src/bestman/robots/xarm/bestman_xarm.py:180-205 | mode switch first; a pose of length other than 6 is rejected; otherwise set_position with xyz in millimetres and angles unchanged, result code == 0 |
| XArmDriver.BestmanXarm.MoveToEePoseRpy | bestman/src/bestman/robots/xarm/bestman_xarm.py:207-237 | mode switch first; position then rpy must have length 3; otherwise set_position with xyz in millimetres, result code == 0 |
| XArmDriver.BestmanXarm.MoveToEePoseQuat | bestman/src/bestman/robots/xarm/bestman_xarm.py:239-246 | always fails as not implemented |
| XArmDriver.BestmanXarm.GoHome | bestman/src/bestman/robots/xarm/bestman_xarm.py:146-151 | always switches to mode 0; with initial_joints it moves there (a wrong length is rejected); without initial_joints it succeeds and nothing moves |
| XArmDriver.BestmanXarm.ServoToJointPositions | bestman/src/bestman/robots/xarm/bestman_xarm.py:248-256 | outside mode 1 it fails without any SDK call or mode change; in mode 1 it sends set_servo_angle_j and returns code == 0 |
| XArmDriver.BestmanXarm.ServoToEePose | bestman/src/bestman/robots/xarm/bestman_xarm.py:258-266 | outside mode 1 it fails without any SDK call or mode change; in mode 1 it sends set_servo_cartesian with the pose |
| XArmDriver.BestmanXarm.ServoToEePoseRpy | bestman/src/bestman/robots/xarm/bestman_xarm.py:268-273 | always fails as not implemented |
| XArmDriver.BestmanXarm.ServoToEePoseQuat | bestman/src/bestman/robots/xarm/bestman_xarm.py:275-280 | always fails as not implemented |
| XArmDriver.BestmanXarm.GetEePose | bestman/src/bestman/robots/xarm/bestman_xarm.py:320-332 | returns the SDK's own position list, rewritten in place with xyz divided by 1000 and angles unchanged |
| StartouchSdk.Sign | bestman/src/bestman/robots/startouch/startouch_sdk/startouchclass.py:34 | numpy's sign: 1, -1 or 0 by the sign of v |
| StartouchSdk.Roll | bestman/src/bestman/robots/startouch/startouch_sdk/startouchclass.py:27-29 | a quaternion with no x or y component has roll atan2(0, 1) |
| StartouchSdk.SinPitch | bestman/src/bestman/robots/startouch/startouch_sdk/startouchclass.py:32 | the sine of pitch lies between minus and plus the squared norm, so within [−1, 1] for a unit quaternion |
| StartouchSdk.Yaw | bestman/src/bestman/robots/startouch/startouch_sdk/startouchclass.py:39-41 | a quaternion with no y or z component has yaw atan2(0, 1) |
| StartouchSdk.CopySign | bestman/src/bestman/robots/startouch/startouch_sdk/startouchclass.py:67 | the magnitude of m with the sign of s |
| StartouchSdk.PitchBySign | bestman/src/bestman/robots/startouch/startouch_sdk/startouchclass.py:32-36 | below magnitude 1 the pitch is arcsin(sinp) |
| StartouchSdk.PitchByCopySign | bestman/src/bestman/robots/startouch/startouch_sdk/startouchclass.py:65-69 | below magnitude 1 the pitch is arcsin(sinp) |
| StartouchSdk.PitchClamp | bestman/src/bestman/robots/startouch/startouch_sdk/startouchclass.py:32-36 | the sign and copysign clamps agree, and a sinp of magnitude at least 1 gives exactly ±π/2 with its sign |
| StartouchSdk.QuaternionToEulerWxyz | bestman/src/bestman/robots/startouch/startouch_sdk/startouchclass.py:17-43 | defined exactly for 4-vectors; yields three angles whose pitch is the clamped arcsin of 2(wy − zx) |
| StartouchSdk.QuaternionToEulerXyzw | bestman/src/bestman/robots/startouch/startouch_sdk/startouchclass.py:46-76 | fails (ValueError) exactly when the input does not have 4 components; otherwise three angles, pitch as above with w read last |
| StartouchSdk.EulerConventionsAgree | bestman/src/bestman/robots/startouch/startouch_sdk/startouchclass.py:25-76 | the xyzw conversion of [x,y,z,w] equals the wxyz conversion of [w,x,y,z] |
| StartouchSdk.EulerToQuaternion | bestman/src/bestman/robots/startouch/startouch_sdk/startouchclass.py:79-103 | returns four components in [w,x,y,z] order |
| StartouchSdk.EulerToQuaternionIsProduct | bestman/src/bestman/robots/startouch/startouch_sdk/startouchclass.py:91-103 | the half-angle formulas equal the product yaw(z) ⊗ pitch(y) ⊗ roll(x) of axis rotations |
| StartouchSdk.EulerZeroIsIdentity | bestman/src/bestman/robots/startouch/startouch_sdk/startouchclass.py:91-103 | all-zero angles give [1,0,0,0] |
| StartouchSdk.ArmController.constructor | bestman/src/bestman/robots/startouch/startouch_sdk/startouchclass.py:119-127 | the native controller records its interface, CAN-FD and gripper options and starts with no calls |
| StartouchSdk.ArmController.Send | bestman/src/bestman/robots/startouch/startouch_sdk/startouchclass.py:129-331 | each controller command is appended to the call log |
| StartouchSdk.SingleArm.constructor | bestman/src/bestman/robots/startouch/startouch_sdk/startouchclass.py:119-127 | the wrapper opens a fresh controller with defaults "can0", gripper True, CAN-FD False |
| StartouchSdk.SingleArm.GoHome | bestman/src/bestman/robots/startouch/startouch_sdk/startouchclass.py:129-138 | sends six zero joints with tf = 3.0 and no control rate, so the controller keeps its own default, and returns True |
| StartouchSdk.SingleArm.GravityCompensation | bestman/src/bestman/robots/startouch/startouch_sdk/startouchclass.py:140-142 | forwards gravity compensation and returns True |
| StartouchSdk.SingleArm.SetJoint | bestman/src/bestman/robots/startouch/startouch_sdk/startouchclass.py:146-162 | forwards the joints, tf and rate unchanged and returns True |
| StartouchSdk.SingleArm.SetJointRaw | bestman/src/bestman/robots/startouch/startouch_sdk/startouchclass.py:165-180 | forwards positions and velocities unchanged and returns True |
| StartouchSdk.SingleArm.SetEndEffectorPoseEuler | bestman/src/bestman/robots/startouch/startouch_sdk/startouchclass.py:184-203 | forwards position, angles and tf unchanged and returns True |
| StartouchSdk.SingleArm.SetEndEffectorPoseEulerRaw | bestman/src/bestman/robots/startouch/startouch_sdk/startouchclass.py:205-222 | forwards position and angles unchanged and returns True |
| StartouchSdk.SingleArm.SetEndEffectorPoseQuat | bestman/src/bestman/robots/startouch/startouch_sdk/startouchclass.py:225-233 | a 4-component wxyz quaternion is converted to Euler angles and sent with the position unchanged; any other length sends nothing |
| StartouchSdk.SingleArm.SetEndEffectorPoseQuatRaw | bestman/src/bestman/robots/startouch/startouch_sdk/startouchclass.py:238-245 | as the planned variant, through the raw command |
| StartouchSdk.SingleArm.GetJointPositions | bestman/src/bestman/robots/startouch/startouch_sdk/startouchclass.py:251-260 | the controller's joint reading, unchanged |
| StartouchSdk.SingleArm.GetJointVelocities | bestman/src/bestman/robots/startouch/startouch_sdk/startouchclass.py:262-267 | the controller's velocity reading, unchanged |
| StartouchSdk.SingleArm.GetJointTorques | bestman/src/bestman/robots/startouch/startouch_sdk/startouchclass.py:269-272 | the controller's torque reading, unchanged |
| StartouchSdk.SingleArm.GetEePoseQuat | bestman/src/bestman/robots/startouch/startouch_sdk/startouchclass.py:275-288 | the position unchanged and the wxyz quaternion of the read angles |
| StartouchSdk.SingleArm.GetEePoseEuler | bestman/src/bestman/robots/startouch/startouch_sdk/startouchclass.py:290-297 | position and angles, both unchanged |
| StartouchSdk.SingleArm.OpenGripper | bestman/src/bestman/robots/startouch/startouch_sdk/startouchclass.py:300-303 | forwards the open command and returns True |
| StartouchSdk.SingleArm.CloseGripper | bestman/src/bestman/robots/startouch/startouch_sdk/startouchclass.py:306-309 | forwards the close command and returns True |
| StartouchSdk.SingleArm.SetGripperPositionRaw | bestman/src/bestman/robots/startouch/startouch_sdk/startouchclass.py:311-315 | forwards the position unchanged and returns True |
| StartouchSdk.SingleArm.SetGripperPosition | bestman/src/bestman/robots/startouch/startouch_sdk/startouchclass.py:317-320 | forwards the position unchanged and returns True |
| StartouchSdk.SingleArm.GetGripperPosition | bestman/src/bestman/robots/startouch/startouch_sdk/startouchclass.py:323-325 | the controller's gripper reading, unchanged |
| StartouchSdk.SingleArm.Cleanup | bestman/src/bestman/robots/startouch/startouch_sdk/startouchclass.py:328-331 | forwards cleanup |
| StartouchDriver.Get | bestman/src/bestman/robots/startouch/bestman_startouch.py:47 | a keyword argument takes the supplied value when present and the constructor default otherwise |
| StartouchDriver.BestmanStartouch.constructor | bestman/src/bestman/robots/startouch/bestman_startouch.py:33-37 | a fresh adapter has no handle and no cameras |
| StartouchDriver.BestmanStartouch.Connect | bestman/src/bestman/robots/startouch/bestman_startouch.py:43-49 | the handle is built from sdk_kwargs as keyword arguments (defaults for the rest); a key the constructor does not take fails and leaves the adapter as it was |
| StartouchDriver.BestmanStartouch.Disconnect | bestman/src/bestman/robots/startouch/bestman_startouch.py:53-57 | forwards cleanup; before connect it fails because there is no handle |
| StartouchDriver.BestmanStartouch.GoHome | bestman/src/bestman/robots/startouch/bestman_startouch.py:96-97 | forwards the handle's homing motion: six zero joints, tf = 3.0, no control rate |
| StartouchDriver.BestmanStartouch.MoveToJointPositions | bestman/src/bestman/robots/startouch/bestman_startouch.py:99-113 | forwards the joints with no length check |
| StartouchDriver.BestmanStartouch.MoveToEePose | bestman/src/bestman/robots/startouch/bestman_startouch.py:115-133 | a pose of length other than 6 is rejected before any handle call; otherwise pose[:3] and pose[3:] are sent |
| StartouchDriver.BestmanStartouch.MoveToEePoseRpy | bestman/src/bestman/robots/startouch/bestman_startouch.py:135-153 | position and rpy must both have length 3, checked before any handle call; then both are sent unchanged |
| StartouchDriver.BestmanStartouch.MoveToEePoseQuat | bestman/src/bestman/robots/startouch/bestman_startouch.py:155-168 | position of length 3 and orientation of length 4 are required before any handle call; the orientation is forwarded unconverted to the handle's quaternion setter |
| StartouchDriver.BestmanStartouch.ServoToJointPositions | bestman/src/bestman/robots/startouch/bestman_startouch.py:170-175 | does nothing and succeeds |
| StartouchDriver.BestmanStartouch.ServoToEePose | bestman/src/bestman/robots/startouch/bestman_startouch.py:177-182 | does nothing and succeeds |
| StartouchDriver.BestmanStartouch.ServoToEePoseRpy | bestman/src/bestman/robots/startouch/bestman_startouch.py:184-189 | always fails as not implemented |
| StartouchDriver.BestmanStartouch.ServoToEePoseQuat | bestman/src/bestman/robots/startouch/bestman_startouch.py:191-196 | always fails as not implemented |
| StartouchDriver.BestmanStartouch.MoveGripper | bestman/src/bestman/robots/startouch/bestman_startouch.py:198-205 | forwards the command unchanged to setGripperPosition |
| StartouchDriver.BestmanStartouch.GetJointPositions | bestman/src/bestman/robots/startouch/bestman_startouch.py:208-216 | the handle's joint reading |
| StartouchDriver.BestmanStartouch.GetJointVelocities | bestman/src/bestman/robots/startouch/bestman_startouch.py:218-226 | the handle's velocity reading |
| StartouchDriver.BestmanStartouch.GetGripperPosition | bestman/src/bestman/robots/startouch/bestman_startouch.py:251-261 | the handle's gripper reading |
| StartouchDriver.BestmanStartouch.GetEePose | bestman/src/bestman/robots/startouch/bestman_startouch.py:229-238 | always fails: get_ee_pose_euler is not defined on the adapter, so the forwarding hook yields a value that cannot be called |
| Geometry.Homogeneous | bestman/src/bestman/utils/utils.py:9-11 | a 4×4 matrix with the rotation in the upper-left block, the translation in the last column and bottom row [0,0,0,1] |
| Geometry.HomogeneousParts | bestman/src/bestman/utils/utils.py:9-11 | the rotation block and translation of a built transform are the ones it was built from |
| Geometry.ComposeHomogeneous | bestman/src/bestman/utils/utils.py:25-30 | composing a transform with a homogeneous one rotates by the product of the rotation blocks and translates by R·p + t |
| Geometry.MatVecIdentity | bestman/src/bestman/utils/utils.py:9 | the identity matrix leaves a vector unchanged |
| Geometry.MatMul | bestman/src/bestman/utils/utils.py:50 | the product of an n×k and a k×c matrix is n×c, entry (i, j) being row i of the first dotted with column j of the second |
| Geometry.MatMulIdentity | bestman/src/bestman/utils/utils.py:9 | the identity matrix is a two-sided unit of the matrix product |
| Geometry.ReorderRoundTrip | bestman/src/bestman/robots/utils/math_utils.py:37-55 | wxyz and xyzw reorderings invert each other, and xyzw moves w from front to back |
| Geometry.Multiply | bestman/src/bestman/robots/startouch/SDK/interface_py/1_startouch_replay.py:64-78 | the Hamilton product of two wxyz quaternions; the identity quaternion is a unit on either side |
| Geometry.Conjugate | bestman/src/bestman/robots/startouch/SDK/interface_py/1_startouch_replay.py:93 | keeps the real part, and a quaternion with no vector part is its own conjugate |
| Geometry.MultiplyIdentity | bestman/src/bestman/robots/startouch/SDK/interface_py/1_startouch_replay.py:64-78 | [1,0,0,0] is a two-sided identity of the Hamilton product |
| Geometry.ConjugateIdentity | bestman/src/bestman/robots/startouch/SDK/interface_py/1_startouch_replay.py:135 | the conjugate of the identity is the identity |
| Geometry.ConjugateInvolutive | bestman/src/bestman/robots/startouch/SDK/interface_py/1_startouch_replay.py:92 | conjugating twice gives back the quaternion |
| Geometry.MultiplyConjugate | bestman/src/bestman/robots/startouch/SDK/interface_py/1_startouch_replay.py:70-78 | q ⊗ conj(q) is the real quaternion |q|² |
| Geometry.MultiplyReal | bestman/src/bestman/robots/startouch/SDK/interface_py/1_startouch_replay.py:70-78 | multiplying by a real quaternion scales every component |
| Geometry.ConjugateOfProduct | bestman/src/bestman/robots/startouch/SDK/interface_py/1_startouch_replay.py:70-78 | conj(a ⊗ b) = conj(b) ⊗ conj(a) |
| Geometry.RotateVector | bestman/src/bestman/robots/startouch/SDK/interface_py/1_startouch_replay.py:81-97 | rotating a 3-vector gives a 3-vector (the vector part of q ⊗ (0,v) ⊗ conj(q)) |
| Geometry.RotateByIdentity | bestman/src/bestman/robots/startouch/SDK/interface_py/1_startouch_replay.py:90-97 | the identity quaternion leaves every vector unchanged |
| Geometry.RotateZero | bestman/src/bestman/robots/startouch/SDK/interface_py/1_startouch_replay.py:90-97 | the zero vector is fixed by every rotation |
| PoseUtils.Eye4 | bestman/src/bestman/utils/utils.py:9 | a fresh 4×4 array holding the identity |
| PoseUtils.FillHomogeneous | bestman/src/bestman/utils/utils.py:10-11 | writing the rotation block and translation column into an identity array gives the homogeneous transform |
| PoseUtils.Quat2T | bestman/src/bestman/utils/utils.py:6-12 | the array holds the homogeneous transform of the xyzw rotation qpose[3:7] and translation qpose[:3] |
| PoseUtils.Rpy2T | bestman/src/bestman/utils/utils.py:14-20 | the array holds the homogeneous transform of the 'xyz' Euler rotation pose[3:] and translation pose[:3] |
| PoseUtils.Qpos2Mat | bestman/src/bestman/utils/utils.py:178-185 | the array holds the homogeneous transform of the xyzw rotation and the translation |
| PoseUtils.Mat2Qpos | bestman/src/bestman/utils/utils.py:187-191 | seven values: the translation column unchanged, then scipy's xyzw quaternion of the rotation block |
| PoseUtils.QposRoundTrip | bestman/src/bestman/utils/utils.py:178-191 | mat2qpos(qpos2mat(q)) keeps the translation always, and the whole pose when scipy's conversion round-trips |
| PoseUtils.MapSensorToRobot | bestman/src/bestman/utils/utils.py:23-33 | returns six values |
| PoseUtils.MapSensorToRobotPose | bestman/src/bestman/utils/utils.py:23-33 | the position is R_init·p + t_init and the angles are those of R_init·R_sensor, as T_robot_init · T_sensor gives |
| PoseUtils.TransformToBaseQuat | bestman/src/bestman/utils/utils.py:96-110 | the position is base translation + local position with no rotation applied; the rotation is R_local·R_base |
| PoseUtils.MappingsAgreeWithoutRotation | bestman/src/bestman/utils/utils.py:23-110 | with an identity rotation block both frame mappings give the same pose |
| PoseUtils.DropFirstColumn | bestman/src/bestman/utils/utils.py:73 | every row loses its first entry |
| PoseUtils.LoadTrajectory | bestman/src/bestman/utils/utils.py:64-76 | succeeds exactly when both tables load and the trajectory is two-dimensional; each row is its timestamp followed by its pose; a load failure ends in the unbound-name error |
| Geometry.Abs | bestman/src/bestman/utils/utils.py:88 | the absolute value, as np.abs and abs give it, is non-negative and equal to v or −v |
| PoseUtils.NearestIndex | bestman/src/bestman/utils/utils.py:88 | the clamp index minimising the time distance, the first one on ties |
| PoseUtils.Clip | bestman/src/bestman/utils/utils.py:89 | the value clipped into [lo, hi]: unchanged inside, the nearer bound outside |
| PoseUtils.WidthAt | bestman/src/bestman/utils/utils.py:88-89 | the clipped width at the nearest clamp timestamp, within [0, 88] |
| PoseUtils.WidthsAt | bestman/src/bestman/utils/utils.py:86-90 | one width per pose timestamp |
| PoseUtils.WidthsAtIndex | bestman/src/bestman/utils/utils.py:86-90 | the k-th width is the width at the k-th pose timestamp |
| PoseUtils.WidthsAtSnoc | bestman/src/bestman/utils/utils.py:90 | each step appends the width of the next timestamp |
| PoseUtils.MapRow | bestman/src/bestman/utils/utils.py:92 | a 7-value row maps to a 6-value pose |
| PoseUtils.MapRows | bestman/src/bestman/utils/utils.py:86-92 | one mapped pose per row |
| PoseUtils.MapRowsIndex | bestman/src/bestman/utils/utils.py:86-92 | the k-th pose is the mapping of the k-th row |
| PoseUtils.MapRowsSnoc | bestman/src/bestman/utils/utils.py:92 | each step appends the mapping of the next row |
| PoseUtils.FirstBadRow | bestman/src/bestman/utils/utils.py:92 | the first row among the first n that does not hold 7 values, if any |
| PoseUtils.FirstBadRowFound | bestman/src/bestman/utils/utils.py:92 | a bad row with no bad row before it is the first bad row of any longer prefix |
| PoseUtils.AssociateRows | bestman/src/bestman/utils/utils.py:86-92 | walks rows and timestamps together up to the shorter one; the widths and poses appended are those of each index in order; a malformed row stops the loop after its width is appended |
| PoseUtils.TransformTraj | bestman/src/bestman/utils/utils.py:78-94 | a one-dimensional clamp table fails; otherwise, without a malformed row, one pose and one width per paired row, in order: the pose is the mapped row and the width the clipped nearest-clamp width |
| MathUtils.CompensateTcp | bestman/src/bestman/robots/utils/math_utils.py:20-24 | the position moves by −distance along the third column of the rotation matrix; the quaternion is returned unchanged |
| MathUtils.CompensateZero | bestman/src/bestman/robots/utils/math_utils.py:23-24 | distance 0 leaves the pose unchanged |
| MathUtils.CompensateTwice | bestman/src/bestman/robots/utils/math_utils.py:20-24 | compensating by d1 then d2 equals compensating once by d1 + d2 |
| MathUtils.PoseToEuler | bestman/src/bestman/robots/utils/math_utils.py:27-40 | the position passes through and the angles are scipy's of [qx,qy,qz,qw] read from a [x,y,z,qw,qx,qy,qz] pose |
| MathUtils.EulerToPose | bestman/src/bestman/robots/utils/math_utils.py:42-55 | the position passes through and scipy's xyzw quaternion is emitted as [qw,qx,qy,qz]; the stray first argument is ignored |
| MathUtils.EulerPoseRoundTrip | bestman/src/bestman/robots/utils/math_utils.py:27-55 | pose_to_euler(euler_to_pose(p)) keeps the position, and returns p when scipy's Euler/quaternion conversion round-trips |
| Replayer.PacingFor | bestman/src/bestman/utils/replayer/replayer.py:76-82 | sleeps exactly when the wait is positive (for that long) and warns exactly when it is below −0.01 |
| Replayer.Decimate | bestman/src/bestman/utils/replayer/replayer.py:52-55 | the slice [0::step] keeps the first element, never grows, and with a negative step keeps only the first element |
| Replayer.DecimateIndices | bestman/src/bestman/utils/replayer/replayer.py:52-55 | for a positive step the k-th sample is element k·step, and every index below n of that form is kept |
| Replayer.DecimateByOne | bestman/src/bestman/utils/replayer/replayer.py:52 | interval 1 keeps every point |
| Replayer.Schedule | bestman/src/bestman/utils/replayer/replayer.py:59 | the k-th due time is (ts[k] − ts[0]) / speed_rate, so the first is 0 |
| Replayer.ScheduleMonotone | bestman/src/bestman/utils/replayer/replayer.py:59 | sorted timestamps and a positive speed give a non-decreasing, non-negative schedule |
| Replayer.ServoCalls | bestman/src/bestman/utils/replayer/replayer.py:68-90 | one servo call per sampled pose |
| Replayer.ServoCallsIndex | bestman/src/bestman/utils/replayer/replayer.py:68-90 | the i-th servo call is servo_to_ee_pose of the i-th sampled pose |
| Replayer.TrajReplayer.constructor | bestman/src/bestman/utils/replayer/replayer.py:7-8 | keeps the robot; no data attribute exists yet |
| Replayer.TrajReplayer.LoadData | bestman/src/bestman/utils/replayer/replayer.py:16-22 | the clamp table is kept once read; a good trajectory table is split into timestamps and poses; a load failure leaves the remaining attributes as they were |
| Replayer.TrajReplayer.TransformTraj | bestman/src/bestman/utils/replayer/replayer.py:24-37 | resets both outputs, then fills one pose and one clipped nearest-clamp width per paired row in order; a missing attribute fails with the outputs empty |
| Replayer.TrajReplayer.Fill | bestman/src/bestman/utils/replayer/replayer.py:31-37 | the outputs become the associated poses and widths of the paired rows; the raw tables are unchanged |
| Replayer.TrajReplayer.Refusal | bestman/src/bestman/utils/replayer/replayer.py:90 | the servo call is refused exactly when there is no robot, no SDK handle, or a mode other than 1, with the matching error |
| Replayer.TrajReplayer.Replay | bestman/src/bestman/utils/replayer/replayer.py:42-91 | the load and transform checks come first; then every sampled pose is sent exactly once, in order, with pacing computed from the schedule and the clock; sleeping or lagging never changes which point is next; gripper widths are never sent |
| Replayer.TrajReplayer.SendPoints | bestman/src/bestman/utils/replayer/replayer.py:68-90 | sends the poses in order, each paced against its due time; a refused first call stops the loop with nothing sent |
| StartouchReplay.ParseFields | bestman/src/bestman/robots/startouch/SDK/interface_py/1_startouch_replay.py:204-207 | succeeds exactly when every field parses, giving each field's value in order |
| StartouchReplay.ParseLine | bestman/src/bestman/robots/startouch/SDK/interface_py/1_startouch_replay.py:195-217 | a parsed line has a 3-component position |
| StartouchReplay.ParseLineFields | bestman/src/bestman/robots/startouch/SDK/interface_py/1_startouch_replay.py:195-217 | blank lines are skipped; a line is kept exactly when it has 8 fields that all parse; the quaternion is stored [qw,qx,qy,qz] from the file's qx,qy,qz,qw columns |
| StartouchReplay.Parsed | bestman/src/bestman/robots/startouch/SDK/interface_py/1_startouch_replay.py:194-220 | the kept points, never more than the lines, each with a 3-component position |
| StartouchReplay.ParsedAppend | bestman/src/bestman/robots/startouch/SDK/interface_py/1_startouch_replay.py:194-220 | parsing a concatenation concatenates the kept points: file order is preserved |
| StartouchReplay.ParsedSingle | bestman/src/bestman/robots/startouch/SDK/interface_py/1_startouch_replay.py:195-217 | one line gives its point when it parses and nothing otherwise |
| StartouchReplay.LoadTrajectory | bestman/src/bestman/robots/startouch/SDK/interface_py/1_startouch_replay.py:181-223 | the loop keeps exactly the parsed points, in file order |
| StartouchReplay.ReadPoint | bestman/src/bestman/robots/startouch/SDK/interface_py/1_startouch_replay.py:195-217 | reading one line gives exactly the point the line parser keeps, or nothing |
| StartouchReplay.InitialQuat | bestman/src/bestman/robots/startouch/SDK/interface_py/1_startouch_replay.py:120 | the live start orientation as the wxyz quaternion of the initial Euler angles |
| StartouchReplay.NormSquaredScale | bestman/src/bestman/robots/startouch/SDK/interface_py/1_startouch_replay.py:157-161 | scaling a quaternion by c scales its squared norm by c² |
| StartouchReplay.Normalize | bestman/src/bestman/robots/startouch/SDK/interface_py/1_startouch_replay.py:156-161 | at or below a norm of 1e-6 the fallback; above it a positive multiple of the quaternion, so the direction is kept |
| StartouchReplay.NormalizeUnit | bestman/src/bestman/robots/startouch/SDK/interface_py/1_startouch_replay.py:157-161 | a norm above 1e-6 gives a unit quaternion; otherwise the initial orientation is used |
| StartouchReplay.AlignPoint | bestman/src/bestman/robots/startouch/SDK/interface_py/1_startouch_replay.py:137-167 | an aligned point keeps its timestamp and has a 3-component position |
| StartouchReplay.AlignedOrientation | bestman/src/bestman/robots/startouch/SDK/interface_py/1_startouch_replay.py:150-153 | with an unrotated reference, the point's rotation is applied directly to the initial orientation |
| StartouchReplay.AlignReferenceAtInitial | bestman/src/bestman/robots/startouch/SDK/interface_py/1_startouch_replay.py:140-148 | the reference point lands exactly on the initial position |
| StartouchReplay.AlignReferenceOrientation | bestman/src/bestman/robots/startouch/SDK/interface_py/1_startouch_replay.py:150-155 | the reference orientation maps to |ref|² times the initial orientation, so a unit reference maps onto it exactly |
| StartouchReplay.AlignUnrotatedReference | bestman/src/bestman/robots/startouch/SDK/interface_py/1_startouch_replay.py:140-148 | with an unrotated reference, the position offset from the reference is added to the initial position |
| StartouchReplay.Align | bestman/src/bestman/robots/startouch/SDK/interface_py/1_startouch_replay.py:100-178 | an empty trajectory is returned unchanged; otherwise length and timestamps are kept, each point is aligned against the first, and the first lands on the initial position |
| StartouchReplay.GapIsMax | bestman/src/bestman/robots/startouch/SDK/interface_py/1_startouch_replay.py:245-248 | each gap is the larger of 0.033 and the timestamp difference divided by the speed factor |
| StartouchReplay.Gap | bestman/src/bestman/robots/startouch/SDK/interface_py/1_startouch_replay.py:248 | at least 33 ms and at least the scaled recorded interval |
| StartouchReplay.Gaps | bestman/src/bestman/robots/startouch/SDK/interface_py/1_startouch_replay.py:245-248 | one gap per consecutive pair of points |
| StartouchReplay.Command | bestman/src/bestman/robots/startouch/SDK/interface_py/1_startouch_replay.py:258-289 | the raw setter exactly when raw mode is on; the position unchanged, the angles those of the point's quaternion, and the planned mode's tf as given |
| StartouchReplay.Commands | bestman/src/bestman/robots/startouch/SDK/interface_py/1_startouch_replay.py:254-289 | one command per sent point |
| StartouchReplay.CommandsIndex | bestman/src/bestman/robots/startouch/SDK/interface_py/1_startouch_replay.py:254-289 | the k-th command sends point k with that point's own move time |
| StartouchReplay.MoveTimes | bestman/src/bestman/robots/startouch/SDK/interface_py/1_startouch_replay.py:245-284 | one move time per point: 0.5 s for the first point, then for point k the gap between points k−1 and k |
| StartouchReplay.Sent | bestman/src/bestman/robots/startouch/SDK/interface_py/1_startouch_replay.py:301-306 | between 1 and n points are sent, fewer exactly when playback is interrupted after point 1 and before the end |
| StartouchReplay.TimeDiffs | bestman/src/bestman/robots/startouch/SDK/interface_py/1_startouch_replay.py:245-248 | the loop computes exactly the gaps |
| StartouchReplay.ReplayTrajectory | bestman/src/bestman/robots/startouch/SDK/interface_py/1_startouch_replay.py:226-309 | fewer than 2 points sends nothing; speed factor 0 fails before any command; otherwise the points are sent once each in order up to any interruption, after a 1 s settle sleep and with sleep time_diffs[i−1] after point i only when i < n−1 |
| StartouchReplay.SendPoint | bestman/src/bestman/robots/startouch/SDK/interface_py/1_startouch_replay.py:258-289 | sends one point's command |
| StartouchReplay.Playback | bestman/src/bestman/robots/startouch/SDK/interface_py/1_startouch_replay.py:272-306 | sends points 1 … count−1 in order, sleeping after each except the last point of the trajectory |
| StartouchReplay.PlayPoint | bestman/src/bestman/robots/startouch/SDK/interface_py/1_startouch_replay.py:273-293 | one loop pass appends the command for point i and sleeps time_diffs[i−1] exactly when i is not the last point |
| StartouchReplay.PlaybackWaits | bestman/src/bestman/robots/startouch/SDK/interface_py/1_startouch_replay.py:292-293 | the waits of the loop as written: one after each sent point except the trajectory's last, the wait after point i being the gap between points i−1 and i |
| StartouchReplay.PlaybackWaitsLag | bestman/src/bestman/robots/startouch/SDK/interface_py/1_startouch_replay.py:292-293 | for a recording stamped 0, 1 and 3 s, the wait after point 1 is 1 s although point 2 is due 2 s later |
| StartouchReplay.IntendedWaits | bestman/src/bestman/robots/startouch/SDK/interface_py/1_startouch_replay.py:291-293 | waits of the gap between points i and i+1 after point i, each lasting at least until point i+1 is due |
| FileUtils.FirstMatch | bestman/src/bestman/utils/file_utils.py:6 | the leftmost position where "multi_sessions_", 8 digits, "_" and 6 digits occur, and none before it |
| FileUtils.DigitValue | bestman/src/bestman/utils/file_utils.py:10 | a decimal digit's value is below 10 |
| FileUtils.DaysInMonth | bestman/src/bestman/utils/file_utils.py:10 | 28 to 31 days; February has 29 exactly in leap years |
| FileUtils.ParseTimestamp | bestman/src/bestman/utils/file_utils.py:5-13 | a result is a valid date-time read at the leftmost match; no match gives None |
| FileUtils.InvalidFieldsGiveNone | bestman/src/bestman/utils/file_utils.py:9-12 | out-of-range calendar fields at the match give None rather than an error |
| FileUtils.Pad | bestman/src/bestman/utils/file_utils.py:6 | a zero-padded field of exactly w digits |
| FileUtils.PadValue | bestman/src/bestman/utils/file_utils.py:6 | reading back a padded number gives the number |
| FileUtils.SessionsName | bestman/src/bestman/utils/file_utils.py:6 | a directory name of the matched length for a date-time |
| FileUtils.ParseSessionsName | bestman/src/bestman/utils/file_utils.py:5-13 | any valid date-time written as a sessions name, followed by anything, parses back to itself |
| FileUtils.MinIsEarliest | bestman/src/bestman/utils/file_utils.py:23 | datetime.min is no later than every valid date-time |
| FileUtils.KeyOf | bestman/src/bestman/utils/file_utils.py:21-23 | the sort key is (parsed time or datetime.min, name) |
| FileUtils.KeyLessStrictTotal | bestman/src/bestman/utils/file_utils.py:21-25 | the key order is irreflexive, total, asymmetric and transitive |
| FileUtils.NewerOrSameIsTotalPreorder | bestman/src/bestman/utils/file_utils.py:25 | the descending comparison is a total preorder |
| FileUtils.NewestFirst | bestman/src/bestman/utils/file_utils.py:25 | the sorted list is a permutation of the directories |
| FileUtils.NewestFirstOrder | bestman/src/bestman/utils/file_utils.py:21-25 | keys are non-increasing, so every name timestamped later than datetime.min comes before every unparseable one |
| FileUtils.ByName | bestman/src/bestman/utils/file_utils.py:54-57 | the sorted list is a permutation of the directories |
| FileUtils.ByNameOrder | bestman/src/bestman/utils/file_utils.py:54-57 | names are in ascending order |
| FileUtils.DirsWithPrefix | bestman/src/bestman/utils/file_utils.py:17 | exactly the directory entries whose names start with the prefix |
| FileUtils.ResolveChoice | bestman/src/bestman/utils/file_utils.py:37-50 | an empty answer gives the default index; an integer k in 1..n gives k−1; anything else re-prompts |
| FileUtils.FirstChoice | bestman/src/bestman/utils/file_utils.py:35-50 | the first answer that resolves gives an index below n |
| FileUtils.FirstChoiceIsFirst | bestman/src/bestman/utils/file_utils.py:35-50 | the loop ends at the first answer that resolves, and no answer resolving means it never ends |
| FileUtils.Ask | bestman/src/bestman/utils/file_utils.py:35-50 | the prompt loop returns the first resolved index, or fails when the answers run out |
| FileUtils.SelectMultiSessionsDir | bestman/src/bestman/utils/file_utils.py:15-50 | no multi_sessions directory fails with not found; otherwise the chosen entry of the newest-first list, the newest by default |
| FileUtils.SelectSessionSubdir | bestman/src/bestman/utils/file_utils.py:52-85 | no session_ directory fails with not found; otherwise the chosen entry of the list by name, the last by default |
| FileUtils.DefaultSessionIsLast | bestman/src/bestman/utils/file_utils.py:72-76 | the default session is the greatest name |

## Left out

- I/O is not modelled: files, directory globbing, `np.loadtxt`, `input()`,
  `print` and `time.sleep`. Tables, listings and answers are parameters. Sleep
  durations are outputs, and clock readings are a function.
- Floating point is modelled as `real`: no rounding, overflow, inf or NaN.
- Text-to-number parsing (`float()`, `int()`) is an uninterpreted parameter.
- Digit and whitespace classes are ASCII only.
- The trigonometric functions, sqrt and scipy's `Rotation` are uninterpreted
  functions. Only their laws used by a proof are stated, such as sin 0 = 0,
  cos 0 = 1 and sqrt of a square.
- StartouchSdk.EulerToQuaternion: only the component count is stated. The
  formulas are characterised by `EulerToQuaternionIsProduct` and
  `EulerZeroIsIdentity`.
- The vendor SDKs (xArm `XArmAPI`, the native Startouch `ArmController`, and
  `StartouchArm` from `startouch_python_sdk`) are not part of this model.
  - Each is a class with a call log, a mode and fixed readings.
  - The Startouch adapter's handle is taken to behave as `SingleArm`.
  - What the real hardware does with a command is not modelled.
- The `__getattr__` forwarding of both adapters is not modelled, except where
  it decides an outcome (`BestmanStartouch.GetEePose`, calls before `connect`).
- These members of both adapters are not modelled:
  - the properties and methods whose body is `pass`: `observation_features`,
    `get_observation`, `action_features`, and the Startouch `set_mode`/`mode`
    and `get_ee_velocity`;
  - the xArm `move_gripper`, `get_joint_positions`, `get_joint_velocities`,
    `get_ee_velocity` and `get_gripper_position`, which are thin SDK reads and
    writes outside the modelled core.
- StartouchSdk.SingleArm.constructor: `startouchclass.py` as shipped never
  binds the name `startouch` (its `from . import startouch` is commented out,
  and the package `__init__` binds it only in the package namespace), so
  `SingleArm(...)` raises NameError at line 125. The model builds the native
  controller as if the import were present; every `SingleArm` contract assumes
  that.
- XArmDriver.XArmApi.Send: `set_mode` and `set_state` are taken to change the
  controller's mode and state whatever reply code comes back. This is an
  assumption about the vendor SDK, which is not part of this model;
  `BestmanXarm.SetMode`'s "afterwards the mode reads back m" rests on it.
- XArmDriver.BestmanXarm.GetEePose: the position list the handle returns is
  taken to be the SDK's own list, returned by reference, so the in-place
  division is visible to a later call. Whether the vendor SDK returns a copy
  is not modelled.
- XArmDriver.BestmanXarm.MoveToJointPositions: the length error merges two
  error kinds. The source's error message calls `.shape` on a list, which raises
  AttributeError instead of ValueError; both are one error value here. The
  same applies to `MoveToEePose` and `MoveToEePoseRpy`.
- Array inputs are taken to be one-dimensional numpy arrays of the shape the
  code indexes. The ValueError or IndexError that numpy or scipy raises on a
  shorter or misshapen input is not modelled; these members require the shape
  instead:
  - `PoseUtils.Quat2T`, `Rpy2T`, `Qpos2Mat`, `Mat2Qpos`, `MapSensorToRobot`
    and `TransformToBaseQuat`;
  - `MathUtils.CompensateTcp`, `PoseToEuler` and `EulerToPose`;
  - `StartouchReplay.Align`, for the initial position and Euler angles.
- StartouchDriver.BestmanStartouch.MoveToEePose: the `.shape` check is modelled
  as a length check on a numpy array. A plain Python list, which the signature
  also admits, would raise AttributeError at `.shape`; that error is not
  modelled. The same applies to `MoveToEePoseRpy` and `MoveToEePoseQuat`.
- XArmDriver.BestmanXarm.Connect: the setup calls raise only through the
  controller's rejection of one named call. A fault inside `XArmAPI(...)`
  itself is not modelled.
- Replayer.TrajReplayer.Replay requires speed_rate ≠ 0. With numpy arrays,
  dividing by 0 yields inf/NaN times instead of an exception, and real
  numbers have no such values.
- Replayer.TrajReplayer.Replay: the robot is taken to be the xArm adapter,
  the only driver whose `servo_to_ee_pose` sends a command. The progress
  prints are left out.
- Replayer.TrajReplayer.LoadData: the directory selection that precedes it is
  modelled separately (`FileUtils`). The clamp and trajectory tables are
  given as already read or failed.
- The tables from `np.loadtxt` are taken to be two-dimensional. A one-line
  file would give a one-dimensional array; that case is reported as a shape
  error.
- StartouchReplay.ReplayTrajectory: a keyboard interrupt or other exception
  during playback is an optional step index after which sending stops. The
  printed messages and the fallback `quaternion_to_euler`, which is only used
  for printing, are left out.
- The `main()` of the Startouch replay script is not modelled: argument
  handling, prompts and orchestration of the modelled steps.
- The VIVE calibration chain in `utils.py` (`transform_vive_to_gripper`,
  `VIVE2VIVE_FLAT`, `XV2Gripper`, `VIVEFLAT2XV`) is not modelled: constant
  frame conjugations over the same uninterpreted rotations.
- The first `transform_to_base_quat` definition is shadowed by the second,
  which is identical; only one is modelled.
- The ROS 2 nodes, the keyboard teleoperation script and the hardware demo
  scripts are not modelled, because they depend on concurrency, terminals and
  hardware.
- The abstract `BaseRobot` interface has no behaviour and is not modelled.
- `strptime`'s flexible field widths are not modelled: the regular
  expression already fixes 8 + 6 digits.

## Findings

| source | as written | input that shows it | evidently intended | confidence | as-written member | corrected member |
|---|---|---|---|---|---|---|
| bestman/src/bestman/robots/startouch/SDK/interface_py/1_startouch_replay.py:291-293 | after sending point i (1 ≤ i < n−1) the loop sleeps `time_diffs[i-1]`, the gap between points i−1 and i | timestamps 0, 1, 3 s at speed 1: after point 1 it waits 1 s, but point 2 is due 2 s later | the comment "wait until the next point's time" and the guard `i < len(time_diffs)` fit `time_diffs[i]`, the gap between points i and i+1 | medium, not executed | StartouchReplay.PlaybackWaitsLag | StartouchReplay.IntendedWaits |

The playback model (`Playback`, `PlayPoint`, `ReplayTrajectory`) follows the
code as written, through `PlaybackWaits`. `IntendedWaits` states the corrected
waits and proves that each lasts until the next point is due.
