/**
 * The explicit command-id table of package `internal` (internal/protocol.go):
 * every command is `Base + k` with the k of its comment, the device group
 * skipping k = 5. The groups and command names are those of `Protocol`.
 */
module InternalProtocol {
  import opened Bytes
  import opened Wrappers
  import opened Protocol

  /** The k written as `Base + k` on the command's line. */
  function Offset(c: Command): (k: nat)
    ensures k <= 9
  {
    match c
    case Device(cmd) => (
      match cmd
      case DeviceSN => 0
      case DeviceName => 1
      case DeviceVersion => 2
      case DeviceWithL => 3
      case DeviceTime => 4
      case DeviceInfo => 6)
    case Pose(cmd) => (
      match cmd
      case GetPose => 0
      case ResetPose => 1
      case GetKinematics => 2
      case GetPoseL => 3)
    case Alarm(cmd) => (
      match cmd
      case AlarmsState => 0)
    case Home(cmd) => (
      match cmd
      case HOMEParams => 0
      case HOMECmd => 1
      case AutoLeveling => 2)
    case Hht(cmd) => (
      match cmd
      case HHTTrigMode => 0
      case HHTTrigOutputEnabled => 1
      case HHTTrigOutput => 2)
    case Arm(cmd) => (
      match cmd
      case ArmOrientation => 0)
    case EndEffector(cmd) => (
      match cmd
      case EndEffectorParams => 0
      case EndEffectorLaser => 1
      case EndEffectorSuctionCup => 2
      case EndEffectorGripper => 3)
    case Jog(cmd) => (
      match cmd
      case JOGJointParams => 0
      case JOGCoordinateParams => 1
      case JOGCommonParams => 2
      case JOGCmd => 3
      case JOGLParams => 4)
    case Ptp(cmd) => (
      match cmd
      case PTPJointParams => 0
      case PTPCoordinateParams => 1
      case PTPJumpParams => 2
      case PTPCommonParams => 3
      case PTPCmd => 4
      case PTPLParams => 5
      case PTPWithLCmd => 6
      case PTPJump2Params => 7
      case PTPPOCmd => 8
      case PTPPOWithLCmd => 9)
    case Cp(cmd) => (
      match cmd
      case CPParams => 0
      case CPCmd => 1
      case CPLECmd => 2
      case CPRHoldEnable => 3
      case CPCommonParams => 4)
    case Arc(cmd) => (
      match cmd
      case ARCParams => 0
      case ARCCmd => 1
      case CircleCmd => 2
      case ARCCommonParams => 3)
    case Wait(cmd) => (
      match cmd
      case WAITCmd => 0)
    case Trig(cmd) => (
      match cmd
      case TRIGCmd => 0)
    case Eio(cmd) => (
      match cmd
      case IOMultiplexing => 0
      case IODO => 1
      case IOPWM => 2
      case IODI => 3
      case IOADC => 4
      case EMotor => 5
      case EMotorS => 6
      case ColorSensor => 7
      case IRSwitch => 8)
    case Cal(cmd) => (
      match cmd
      case AngleSensorStaticError => 0
      case AngleSensorCoef => 1
      case BaseDecoderStaticError => 2
      case LRHandCalibrateValue => 3)
    case Wifi(cmd) => (
      match cmd
      case WIFIConfigMode => 0
      case WIFISSID => 1
      case WIFIPassword => 2
      case WIFIIPAddress => 3
      case WIFINetmask => 4
      case WIFIGateway => 5
      case WIFIDNS => 6
      case WIFIConnectStatus => 7)
    case Firmware(cmd) => (
      match cmd
      case FirmwareSwitch => 0
      case FirmwareMode => 1)
    case LostStep(cmd) => (
      match cmd
      case LostStepSet => 0
      case LostStepDetect => 1)
    case CheckModel(cmd) => (
      match cmd
      case CheckUART4PeripheralsModel => 0
      case UART4PeripheralsEnabled => 1)
    case PulseMode(cmd) => (
      match cmd
      case FunctionPulseMode => 0)
    case Test(cmd) => (
      match cmd
      case UserParams => 0
      case PTPTime => 1)
    case Queued(cmd) => (
      match cmd
      case QueuedCmdStartExec => 0
      case QueuedCmdStopExec => 1
      case QueuedCmdForceStopExec => 2
      case QueuedCmdStartDownload => 3
      case QueuedCmdStopDownload => 4
      case QueuedCmdClear => 5
      case QueuedCmdCurrentIndex => 6
      case QueuedCmdLeftSpace => 7
      case QueuedCmdMotionFinish => 8)
  }


  /** The id of the explicit table. */
  function InternalId(c: Command): (id: uint8)
    ensures Base(GroupOf(c)) <= id < Base(GroupOf(c)) + 10
  {
    Base(GroupOf(c)) + Offset(c)
  }

  /** The group whose ten slots hold an id with these tens, if any. */
  function GroupAt(tens: nat): Option<Group>
  {
    match tens
    case 0 => Some(DeviceInfoBase)
    case 1 => Some(PoseBase)
    case 2 => Some(AlarmBase)
    case 3 => Some(HomeBase)
    case 4 => Some(HhtBase)
    case 5 => Some(ArmOrientationBase)
    case 6 => Some(EndEffectorBase)
    case 7 => Some(JogBase)
    case 8 => Some(PtpBase)
    case 9 => Some(CpBase)
    case 10 => Some(ArcBase)
    case 11 => Some(WaitBase)
    case 12 => Some(TrigBase)
    case 13 => Some(EioBase)
    case 14 => Some(CalBase)
    case 15 => Some(WifiBase)
    case 16 => Some(FirmwareBase)
    case 17 => Some(LostStepBase)
    case 18 => Some(CheckModelBase)
    case 19 => Some(PulseModeBase)
    case 22 => Some(TestBase)
    case 24 => Some(QueuedCmdBase)
    case _ => None
  }

  /** The command in slot k of a group, if any. */
  function CommandAt(g: Group, k: nat): Option<Command>
  {
    match g
    case DeviceInfoBase => (
      match k
      case 0 => Some(Device(DeviceSN))
      case 1 => Some(Device(DeviceName))
      case 2 => Some(Device(DeviceVersion))
      case 3 => Some(Device(DeviceWithL))
      case 4 => Some(Device(DeviceTime))
      case 6 => Some(Device(DeviceInfo))
      case _ => None)
    case PoseBase => (
      match k
      case 0 => Some(Pose(GetPose))
      case 1 => Some(Pose(ResetPose))
      case 2 => Some(Pose(GetKinematics))
      case 3 => Some(Pose(GetPoseL))
      case _ => None)
    case AlarmBase => (
      match k
      case 0 => Some(Alarm(AlarmsState))
      case _ => None)
    case HomeBase => (
      match k
      case 0 => Some(Home(HOMEParams))
      case 1 => Some(Home(HOMECmd))
      case 2 => Some(Home(AutoLeveling))
      case _ => None)
    case HhtBase => (
      match k
      case 0 => Some(Hht(HHTTrigMode))
      case 1 => Some(Hht(HHTTrigOutputEnabled))
      case 2 => Some(Hht(HHTTrigOutput))
      case _ => None)
    case ArmOrientationBase => (
      match k
      case 0 => Some(Arm(ArmOrientation))
      case _ => None)
    case EndEffectorBase => (
      match k
      case 0 => Some(EndEffector(EndEffectorParams))
      case 1 => Some(EndEffector(EndEffectorLaser))
      case 2 => Some(EndEffector(EndEffectorSuctionCup))
      case 3 => Some(EndEffector(EndEffectorGripper))
      case _ => None)
    case JogBase => (
      match k
      case 0 => Some(Jog(JOGJointParams))
      case 1 => Some(Jog(JOGCoordinateParams))
      case 2 => Some(Jog(JOGCommonParams))
      case 3 => Some(Jog(JOGCmd))
      case 4 => Some(Jog(JOGLParams))
      case _ => None)
    case PtpBase => (
      match k
      case 0 => Some(Ptp(PTPJointParams))
      case 1 => Some(Ptp(PTPCoordinateParams))
      case 2 => Some(Ptp(PTPJumpParams))
      case 3 => Some(Ptp(PTPCommonParams))
      case 4 => Some(Ptp(PTPCmd))
      case 5 => Some(Ptp(PTPLParams))
      case 6 => Some(Ptp(PTPWithLCmd))
      case 7 => Some(Ptp(PTPJump2Params))
      case 8 => Some(Ptp(PTPPOCmd))
      case 9 => Some(Ptp(PTPPOWithLCmd))
      case _ => None)
    case CpBase => (
      match k
      case 0 => Some(Cp(CPParams))
      case 1 => Some(Cp(CPCmd))
      case 2 => Some(Cp(CPLECmd))
      case 3 => Some(Cp(CPRHoldEnable))
      case 4 => Some(Cp(CPCommonParams))
      case _ => None)
    case ArcBase => (
      match k
      case 0 => Some(Arc(ARCParams))
      case 1 => Some(Arc(ARCCmd))
      case 2 => Some(Arc(CircleCmd))
      case 3 => Some(Arc(ARCCommonParams))
      case _ => None)
    case WaitBase => (
      match k
      case 0 => Some(Wait(WAITCmd))
      case _ => None)
    case TrigBase => (
      match k
      case 0 => Some(Trig(TRIGCmd))
      case _ => None)
    case EioBase => (
      match k
      case 0 => Some(Eio(IOMultiplexing))
      case 1 => Some(Eio(IODO))
      case 2 => Some(Eio(IOPWM))
      case 3 => Some(Eio(IODI))
      case 4 => Some(Eio(IOADC))
      case 5 => Some(Eio(EMotor))
      case 6 => Some(Eio(EMotorS))
      case 7 => Some(Eio(ColorSensor))
      case 8 => Some(Eio(IRSwitch))
      case _ => None)
    case CalBase => (
      match k
      case 0 => Some(Cal(AngleSensorStaticError))
      case 1 => Some(Cal(AngleSensorCoef))
      case 2 => Some(Cal(BaseDecoderStaticError))
      case 3 => Some(Cal(LRHandCalibrateValue))
      case _ => None)
    case WifiBase => (
      match k
      case 0 => Some(Wifi(WIFIConfigMode))
      case 1 => Some(Wifi(WIFISSID))
      case 2 => Some(Wifi(WIFIPassword))
      case 3 => Some(Wifi(WIFIIPAddress))
      case 4 => Some(Wifi(WIFINetmask))
      case 5 => Some(Wifi(WIFIGateway))
      case 6 => Some(Wifi(WIFIDNS))
      case 7 => Some(Wifi(WIFIConnectStatus))
      case _ => None)
    case FirmwareBase => (
      match k
      case 0 => Some(Firmware(FirmwareSwitch))
      case 1 => Some(Firmware(FirmwareMode))
      case _ => None)
    case LostStepBase => (
      match k
      case 0 => Some(LostStep(LostStepSet))
      case 1 => Some(LostStep(LostStepDetect))
      case _ => None)
    case CheckModelBase => (
      match k
      case 0 => Some(CheckModel(CheckUART4PeripheralsModel))
      case 1 => Some(CheckModel(UART4PeripheralsEnabled))
      case _ => None)
    case PulseModeBase => (
      match k
      case 0 => Some(PulseMode(FunctionPulseMode))
      case _ => None)
    case TestBase => (
      match k
      case 0 => Some(Test(UserParams))
      case 1 => Some(Test(PTPTime))
      case _ => None)
    case QueuedCmdBase => (
      match k
      case 0 => Some(Queued(QueuedCmdStartExec))
      case 1 => Some(Queued(QueuedCmdStopExec))
      case 2 => Some(Queued(QueuedCmdForceStopExec))
      case 3 => Some(Queued(QueuedCmdStartDownload))
      case 4 => Some(Queued(QueuedCmdStopDownload))
      case 5 => Some(Queued(QueuedCmdClear))
      case 6 => Some(Queued(QueuedCmdCurrentIndex))
      case 7 => Some(Queued(QueuedCmdLeftSpace))
      case 8 => Some(Queued(QueuedCmdMotionFinish))
      case _ => None)
  }

  /** The command the explicit table gives an id, if any. */
  function FromId(id: uint8): Option<Command>
  {
    match GroupAt(id / 10)
    case None => None
    case Some(g) => CommandAt(g, id % 10)
  }

  lemma GroupAtBase(g: Group)
    ensures GroupAt(Base(g) / 10) == Some(g)
  {
  }

  lemma GroupAtSound(tens: nat)
    ensures GroupAt(tens).Some? ==> Base(GroupAt(tens).value) == 10 * tens
  {
  }

  /** Every command sits in its own slot of its group; the blocks are taken a few at a time. */
  lemma CommandAtOffset(c: Command)
    ensures CommandAt(GroupOf(c), Offset(c)) == Some(c)
  {
    if c.Device? || c.Pose? || c.Alarm? || c.Home? || c.Hht? || c.Arm? {
      CommandAtOffsetFirstBlocks(c);
    } else if c.EndEffector? || c.Jog? || c.Ptp? || c.Cp? || c.Arc? {
      CommandAtOffsetMotionBlocks(c);
    } else if c.Wait? || c.Trig? || c.Eio? || c.Cal? || c.Wifi? {
      CommandAtOffsetMiddleBlocks(c);
    } else {
      CommandAtOffsetLastBlocks(c);
    }
  }

  /** The device, pose, alarm, home, HHT and arm-orientation blocks. */
  lemma CommandAtOffsetFirstBlocks(c: Command)
    requires c.Device? || c.Pose? || c.Alarm? || c.Home? || c.Hht? || c.Arm?
    ensures CommandAt(GroupOf(c), Offset(c)) == Some(c)
  {
    match c {
      case Alarm(AlarmsState) =>
      case Arm(ArmOrientation) =>
      case _ =>
    }
  }

  /** The end-effector, JOG, PTP, CP and ARC blocks. */
  lemma CommandAtOffsetMotionBlocks(c: Command)
    requires c.EndEffector? || c.Jog? || c.Ptp? || c.Cp? || c.Arc?
    ensures CommandAt(GroupOf(c), Offset(c)) == Some(c)
  {
  }

  /** The WAIT, TRIG, EIO, calibration and WIFI blocks. */
  lemma CommandAtOffsetMiddleBlocks(c: Command)
    requires c.Wait? || c.Trig? || c.Eio? || c.Cal? || c.Wifi?
    ensures CommandAt(GroupOf(c), Offset(c)) == Some(c)
  {
    match c {
      case Wait(WAITCmd) =>
      case Trig(TRIGCmd) =>
      case _ =>
    }
  }

  /** The firmware, lost-step, check-model, pulse-mode, test and queue blocks. */
  lemma CommandAtOffsetLastBlocks(c: Command)
    requires c.Firmware? || c.LostStep? || c.CheckModel? || c.PulseMode? || c.Test? || c.Queued?
    ensures CommandAt(GroupOf(c), Offset(c)) == Some(c)
  {
    match c {
      case PulseMode(FunctionPulseMode) =>
      case _ =>
    }
  }

  lemma FromIdInverse(c: Command)
    ensures FromId(InternalId(c)) == Some(c)
  {
    var id := InternalId(c);
    assert id / 10 == Base(GroupOf(c)) / 10 && id % 10 == Offset(c);
    GroupAtBase(GroupOf(c));
    CommandAtOffset(c);
  }


  /** No two commands share an id in the explicit table. */
  lemma InternalIdInjective(a: Command, b: Command)
    ensures InternalId(a) == InternalId(b) <==> a == b
  {
    FromIdInverse(a);
    FromIdInverse(b);
  }

  /** The ids named in the explicit table's comments, and the skipped device slot. */
  lemma InternalIdKnownValues()
    ensures InternalId(Device(DeviceSN)) == 0 && InternalId(Pose(GetPose)) == 10
    ensures InternalId(Device(DeviceTime)) == 4 && InternalId(Device(DeviceInfo)) == 6 && FromId(5) == None
  {
    assert 5 / 10 == 0 && 5 % 10 == 5;
    assert GroupAt(0) == Some(DeviceInfoBase) && CommandAt(DeviceInfoBase, 5) == None;
  }

  /** The left-space id of the explicit table. */
  lemma InternalLeftSpaceId()
    ensures InternalId(Queued(QueuedCmdLeftSpace)) == 247
  {
  }

  /** The motion-finish id of the explicit table. */
  lemma InternalMotionFinishId()
    ensures InternalId(Queued(QueuedCmdMotionFinish)) == 248
  {
  }

  /** No command takes the base value of a group other than its own. */
  lemma InternalIdNoBaseCollision(c: Command, g: Group)
    ensures InternalId(c) == Base(g) ==> GroupOf(c) == g
  {
    GroupAtBase(g);
    GroupAtBase(GroupOf(c));
  }

  /** For every shared name the package-level id is the explicit one plus one. */
  lemma GoIdIsInternalPlusOne(c: Command)
    ensures GoId(c) == InternalId(c) + 1
  {
    IotaIsOffsetPlusOne(c);
  }

  /** Line by line, `iota` is one more than the explicit offset. */
  lemma IotaIsOffsetPlusOne(c: Command)
    ensures Iota(c) == Offset(c) + 1
  {
  }

  /** The package-level ids are pairwise distinct too. */
  lemma GoIdInjective(a: Command, b: Command)
    ensures GoId(a) == GoId(b) <==> a == b
  {
    GoIdIsInternalPlusOne(a);
    GoIdIsInternalPlusOne(b);
    InternalIdInjective(a, b);
  }

  /**
   * A device speaking the explicit table reads a package-level id as the
   * command declared after it, or as no command where the next slot is unused.
   */
  lemma GoIdNamesNextCommand()
    ensures FromId(GoId(Device(DeviceSN))) == Some(Device(DeviceName))
    ensures FromId(GoId(Device(DeviceTime))) == None
  {
    assert GoId(Device(DeviceSN)) == InternalId(Device(DeviceName));
    FromIdInverse(Device(DeviceName));
    assert GoId(Device(DeviceTime)) == 5 && 5 / 10 == 0 && 5 % 10 == 5;
    assert GroupAt(0) == Some(DeviceInfoBase) && CommandAt(DeviceInfoBase, 5) == None;
  }

  /** The last PTP command reaches a device speaking the explicit table as the first CP command. */
  lemma GoPtpPoWithLNamesCpParams()
    ensures FromId(GoId(Ptp(PTPPOWithLCmd))) == Some(Cp(CPParams))
  {
    PtpPoWithLHitsCpBase();
    assert InternalId(Cp(CPParams)) == Base(CpBase);
    FromIdInverse(Cp(CPParams));
  }

  /** The package-level queue-index id is the explicit table's left-space id. */
  lemma GoCurrentIndexNamesLeftSpace()
    ensures FromId(GoId(Queued(QueuedCmdCurrentIndex))) == Some(Queued(QueuedCmdLeftSpace))
  {
    GoCurrentIndexId();
    InternalLeftSpaceId();
    FromIdInverse(Queued(QueuedCmdLeftSpace));
  }

  /** The package-level left-space id is the explicit table's motion-finish id. */
  lemma GoLeftSpaceNamesMotionFinish()
    ensures FromId(GoId(Queued(QueuedCmdLeftSpace))) == Some(Queued(QueuedCmdMotionFinish))
  {
    GoLeftSpaceId();
    InternalMotionFinishId();
    FromIdInverse(Queued(QueuedCmdMotionFinish));
  }
}
