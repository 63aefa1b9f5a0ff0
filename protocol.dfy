/**
 * The package-level command-id table of package `godobot` (protocol.go).
 *
 * Each constant block starts with a named group base `B + iota`, and every
 * following line repeats that expression, so Go's `iota` (0 on the base line,
 * counting the blank `_` line of the device group) makes the k-th command of a
 * group `B + k + 1`, while the comment on that line says `Base + k`.
 */
module Protocol {
  import opened Bytes

  /** The constant blocks of the table, one per group base. */
  datatype Group =
      DeviceInfoBase
    | PoseBase
    | AlarmBase
    | HomeBase
    | HhtBase
    | ArmOrientationBase
    | EndEffectorBase
    | JogBase
    | PtpBase
    | CpBase
    | ArcBase
    | WaitBase
    | TrigBase
    | EioBase
    | CalBase
    | WifiBase
    | FirmwareBase
    | LostStepBase
    | CheckModelBase
    | PulseModeBase
    | TestBase
    | QueuedCmdBase

  /** The commands of each constant block, under their ids' names without the `Protocol` prefix. */
  datatype DeviceCommand =
      DeviceSN
    | DeviceName
    | DeviceVersion
    | DeviceWithL
    | DeviceTime
    | DeviceInfo
  datatype PoseCommand = GetPose | ResetPose | GetKinematics | GetPoseL
  datatype AlarmCommand = AlarmsState
  datatype HomeCommand = HOMEParams | HOMECmd | AutoLeveling
  datatype HhtCommand = HHTTrigMode | HHTTrigOutputEnabled | HHTTrigOutput
  datatype ArmCommand = ArmOrientation
  datatype EndEffectorCommand =
      EndEffectorParams
    | EndEffectorLaser
    | EndEffectorSuctionCup
    | EndEffectorGripper
  datatype JogCommand = JOGJointParams | JOGCoordinateParams | JOGCommonParams | JOGCmd | JOGLParams
  datatype PtpCommand =
      PTPJointParams
    | PTPCoordinateParams
    | PTPJumpParams
    | PTPCommonParams
    | PTPCmd
    | PTPLParams
    | PTPWithLCmd
    | PTPJump2Params
    | PTPPOCmd
    | PTPPOWithLCmd
  datatype CpCommand = CPParams | CPCmd | CPLECmd | CPRHoldEnable | CPCommonParams
  datatype ArcCommand = ARCParams | ARCCmd | CircleCmd | ARCCommonParams
  datatype WaitCommand = WAITCmd
  datatype TrigCommand = TRIGCmd
  datatype EioCommand =
      IOMultiplexing
    | IODO
    | IOPWM
    | IODI
    | IOADC
    | EMotor
    | EMotorS
    | ColorSensor
    | IRSwitch
  datatype CalCommand =
      AngleSensorStaticError
    | AngleSensorCoef
    | BaseDecoderStaticError
    | LRHandCalibrateValue
  datatype WifiCommand =
      WIFIConfigMode
    | WIFISSID
    | WIFIPassword
    | WIFIIPAddress
    | WIFINetmask
    | WIFIGateway
    | WIFIDNS
    | WIFIConnectStatus
  datatype FirmwareCommand = FirmwareSwitch | FirmwareMode
  datatype LostStepCommand = LostStepSet | LostStepDetect
  datatype CheckModelCommand = CheckUART4PeripheralsModel | UART4PeripheralsEnabled
  datatype PulseModeCommand = FunctionPulseMode
  datatype TestCommand = UserParams | PTPTime
  datatype QueuedCommand =
      QueuedCmdStartExec
    | QueuedCmdStopExec
    | QueuedCmdForceStopExec
    | QueuedCmdStartDownload
    | QueuedCmdStopDownload
    | QueuedCmdClear
    | QueuedCmdCurrentIndex
    | QueuedCmdLeftSpace
    | QueuedCmdMotionFinish

  /** A command: the block it is declared in, and its line there. */
  datatype Command =
      Device(DeviceCommand)
    | Pose(PoseCommand)
    | Alarm(AlarmCommand)
    | Home(HomeCommand)
    | Hht(HhtCommand)
    | Arm(ArmCommand)
    | EndEffector(EndEffectorCommand)
    | Jog(JogCommand)
    | Ptp(PtpCommand)
    | Cp(CpCommand)
    | Arc(ArcCommand)
    | Wait(WaitCommand)
    | Trig(TrigCommand)
    | Eio(EioCommand)
    | Cal(CalCommand)
    | Wifi(WifiCommand)
    | Firmware(FirmwareCommand)
    | LostStep(LostStepCommand)
    | CheckModel(CheckModelCommand)
    | PulseMode(PulseModeCommand)
    | Test(TestCommand)
    | Queued(QueuedCommand)

  /** The constant block a command is declared in. */
  function GroupOf(c: Command): Group
  {
    match c
    case Device(_) => DeviceInfoBase
    case Pose(_) => PoseBase
    case Alarm(_) => AlarmBase
    case Home(_) => HomeBase
    case Hht(_) => HhtBase
    case Arm(_) => ArmOrientationBase
    case EndEffector(_) => EndEffectorBase
    case Jog(_) => JogBase
    case Ptp(_) => PtpBase
    case Cp(_) => CpBase
    case Arc(_) => ArcBase
    case Wait(_) => WaitBase
    case Trig(_) => TrigBase
    case Eio(_) => EioBase
    case Cal(_) => CalBase
    case Wifi(_) => WifiBase
    case Firmware(_) => FirmwareBase
    case LostStep(_) => LostStepBase
    case CheckModel(_) => CheckModelBase
    case PulseMode(_) => PulseModeBase
    case Test(_) => TestBase
    case Queued(_) => QueuedCmdBase
  }

  /** The value of a group's base constant. */
  function Base(g: Group): (b: uint8)
    ensures b <= 240 && b % 10 == 0
  {
    match g
    case DeviceInfoBase => 0
    case PoseBase => 10
    case AlarmBase => 20
    case HomeBase => 30
    case HhtBase => 40
    case ArmOrientationBase => 50
    case EndEffectorBase => 60
    case JogBase => 70
    case PtpBase => 80
    case CpBase => 90
    case ArcBase => 100
    case WaitBase => 110
    case TrigBase => 120
    case EioBase => 130
    case CalBase => 140
    case WifiBase => 150
    case FirmwareBase => 160
    case LostStepBase => 170
    case CheckModelBase => 180
    case PulseModeBase => 190
    case TestBase => 220
    case QueuedCmdBase => 240
  }

  /** The value of `iota` on the command's line: the base line has 0 and the `_` line counts. */
  function Iota(c: Command): (k: nat)
    ensures 1 <= k <= 10
  {
    match c
    case Device(cmd) => (
      match cmd
      case DeviceSN => 1
      case DeviceName => 2
      case DeviceVersion => 3
      case DeviceWithL => 4
      case DeviceTime => 5
      case DeviceInfo => 7)
    case Pose(cmd) => (
      match cmd
      case GetPose => 1
      case ResetPose => 2
      case GetKinematics => 3
      case GetPoseL => 4)
    case Alarm(cmd) => (
      match cmd
      case AlarmsState => 1)
    case Home(cmd) => (
      match cmd
      case HOMEParams => 1
      case HOMECmd => 2
      case AutoLeveling => 3)
    case Hht(cmd) => (
      match cmd
      case HHTTrigMode => 1
      case HHTTrigOutputEnabled => 2
      case HHTTrigOutput => 3)
    case Arm(cmd) => (
      match cmd
      case ArmOrientation => 1)
    case EndEffector(cmd) => (
      match cmd
      case EndEffectorParams => 1
      case EndEffectorLaser => 2
      case EndEffectorSuctionCup => 3
      case EndEffectorGripper => 4)
    case Jog(cmd) => (
      match cmd
      case JOGJointParams => 1
      case JOGCoordinateParams => 2
      case JOGCommonParams => 3
      case JOGCmd => 4
      case JOGLParams => 5)
    case Ptp(cmd) => (
      match cmd
      case PTPJointParams => 1
      case PTPCoordinateParams => 2
      case PTPJumpParams => 3
      case PTPCommonParams => 4
      case PTPCmd => 5
      case PTPLParams => 6
      case PTPWithLCmd => 7
      case PTPJump2Params => 8
      case PTPPOCmd => 9
      case PTPPOWithLCmd => 10)
    case Cp(cmd) => (
      match cmd
      case CPParams => 1
      case CPCmd => 2
      case CPLECmd => 3
      case CPRHoldEnable => 4
      case CPCommonParams => 5)
    case Arc(cmd) => (
      match cmd
      case ARCParams => 1
      case ARCCmd => 2
      case CircleCmd => 3
      case ARCCommonParams => 4)
    case Wait(cmd) => (
      match cmd
      case WAITCmd => 1)
    case Trig(cmd) => (
      match cmd
      case TRIGCmd => 1)
    case Eio(cmd) => (
      match cmd
      case IOMultiplexing => 1
      case IODO => 2
      case IOPWM => 3
      case IODI => 4
      case IOADC => 5
      case EMotor => 6
      case EMotorS => 7
      case ColorSensor => 8
      case IRSwitch => 9)
    case Cal(cmd) => (
      match cmd
      case AngleSensorStaticError => 1
      case AngleSensorCoef => 2
      case BaseDecoderStaticError => 3
      case LRHandCalibrateValue => 4)
    case Wifi(cmd) => (
      match cmd
      case WIFIConfigMode => 1
      case WIFISSID => 2
      case WIFIPassword => 3
      case WIFIIPAddress => 4
      case WIFINetmask => 5
      case WIFIGateway => 6
      case WIFIDNS => 7
      case WIFIConnectStatus => 8)
    case Firmware(cmd) => (
      match cmd
      case FirmwareSwitch => 1
      case FirmwareMode => 2)
    case LostStep(cmd) => (
      match cmd
      case LostStepSet => 1
      case LostStepDetect => 2)
    case CheckModel(cmd) => (
      match cmd
      case CheckUART4PeripheralsModel => 1
      case UART4PeripheralsEnabled => 2)
    case PulseMode(cmd) => (
      match cmd
      case FunctionPulseMode => 1)
    case Test(cmd) => (
      match cmd
      case UserParams => 1
      case PTPTime => 2)
    case Queued(cmd) => (
      match cmd
      case QueuedCmdStartExec => 1
      case QueuedCmdStopExec => 2
      case QueuedCmdForceStopExec => 3
      case QueuedCmdStartDownload => 4
      case QueuedCmdStopDownload => 5
      case QueuedCmdClear => 6
      case QueuedCmdCurrentIndex => 7
      case QueuedCmdLeftSpace => 8
      case QueuedCmdMotionFinish => 9)
  }


  /** The k in the `// Base + k` comment on the command's line. */
  function CommentOffset(c: Command): (k: nat)
    ensures k <= 9
  {
    match c
    case Device(cmd) => (
      match cmd
      case DeviceSN => 0
      case DeviceName => 1
      case DeviceVersion => 2
      case DeviceWithL => 3
      case DeviceTime => 4
      case DeviceInfo => 6)
    case Pose(cmd) => (
      match cmd
      case GetPose => 0
      case ResetPose => 1
      case GetKinematics => 2
      case GetPoseL => 3)
    case Alarm(cmd) => (
      match cmd
      case AlarmsState => 0)
    case Home(cmd) => (
      match cmd
      case HOMEParams => 0
      case HOMECmd => 1
      case AutoLeveling => 2)
    case Hht(cmd) => (
      match cmd
      case HHTTrigMode => 0
      case HHTTrigOutputEnabled => 1
      case HHTTrigOutput => 2)
    case Arm(cmd) => (
      match cmd
      case ArmOrientation => 0)
    case EndEffector(cmd) => (
      match cmd
      case EndEffectorParams => 0
      case EndEffectorLaser => 1
      case EndEffectorSuctionCup => 2
      case EndEffectorGripper => 3)
    case Jog(cmd) => (
      match cmd
      case JOGJointParams => 0
      case JOGCoordinateParams => 1
      case JOGCommonParams => 2
      case JOGCmd => 3
      case JOGLParams => 4)
    case Ptp(cmd) => (
      match cmd
      case PTPJointParams => 0
      case PTPCoordinateParams => 1
      case PTPJumpParams => 2
      case PTPCommonParams => 3
      case PTPCmd => 4
      case PTPLParams => 5
      case PTPWithLCmd => 6
      case PTPJump2Params => 7
      case PTPPOCmd => 8
      case PTPPOWithLCmd => 9)
    case Cp(cmd) => (
      match cmd
      case CPParams => 0
      case CPCmd => 1
      case CPLECmd => 2
      case CPRHoldEnable => 3
      case CPCommonParams => 4)
    case Arc(cmd) => (
      match cmd
      case ARCParams => 0
      case ARCCmd => 1
      case CircleCmd => 2
      case ARCCommonParams => 3)
    case Wait(cmd) => (
      match cmd
      case WAITCmd => 0)
    case Trig(cmd) => (
      match cmd
      case TRIGCmd => 0)
    case Eio(cmd) => (
      match cmd
      case IOMultiplexing => 0
      case IODO => 1
      case IOPWM => 2
      case IODI => 3
      case IOADC => 4
      case EMotor => 5
      case EMotorS => 6
      case ColorSensor => 7
      case IRSwitch => 8)
    case Cal(cmd) => (
      match cmd
      case AngleSensorStaticError => 0
      case AngleSensorCoef => 1
      case BaseDecoderStaticError => 2
      case LRHandCalibrateValue => 3)
    case Wifi(cmd) => (
      match cmd
      case WIFIConfigMode => 0
      case WIFISSID => 1
      case WIFIPassword => 2
      case WIFIIPAddress => 3
      case WIFINetmask => 4
      case WIFIGateway => 5
      case WIFIDNS => 6
      case WIFIConnectStatus => 7)
    case Firmware(cmd) => (
      match cmd
      case FirmwareSwitch => 0
      case FirmwareMode => 1)
    case LostStep(cmd) => (
      match cmd
      case LostStepSet => 0
      case LostStepDetect => 1)
    case CheckModel(cmd) => (
      match cmd
      case CheckUART4PeripheralsModel => 1
      case UART4PeripheralsEnabled => 2)
    case PulseMode(cmd) => (
      match cmd
      case FunctionPulseMode => 1)
    case Test(cmd) => (
      match cmd
      case UserParams => 0
      case PTPTime => 1)
    case Queued(cmd) => (
      match cmd
      case QueuedCmdStartExec => 0
      case QueuedCmdStopExec => 1
      case QueuedCmdForceStopExec => 2
      case QueuedCmdStartDownload => 3
      case QueuedCmdStopDownload => 4
      case QueuedCmdClear => 5
      case QueuedCmdCurrentIndex => 6
      case QueuedCmdLeftSpace => 7
      case QueuedCmdMotionFinish => 8)
  }


  /** The two groups whose comments count from `Base + 1`, agreeing with `iota`. */
  predicate CommentedFromOne(g: Group)
  {
    g == CheckModelBase || g == PulseModeBase
  }

  /** The id package `godobot` sends for a command: `Base + iota`. */
  function GoId(c: Command): (id: uint8)
    ensures Base(GroupOf(c)) < id <= Base(GroupOf(c)) + 10
  {
    Base(GroupOf(c)) + Iota(c)
  }

  /** The ids the Go client uses for the device serial number and the pose. */
  lemma GoIdKnownValues()
    ensures GoId(Device(DeviceSN)) == 1 && GoId(Device(DeviceName)) == 2
    ensures GoId(Pose(GetPose)) == 11
  {
  }

  /** The id the Go client uses to ask for the current queue index. */
  lemma GoCurrentIndexId()
    ensures GoId(Queued(QueuedCmdCurrentIndex)) == 247
  {
  }

  /** The id the Go client uses to ask for the left space of the queue. */
  lemma GoLeftSpaceId()
    ensures GoId(Queued(QueuedCmdLeftSpace)) == 248
  {
  }

  /**
   * Every id is one more than its `Base + k` comment says, except in the two
   * groups whose comments already count from one.
   */
  lemma GoIdOffByOne(c: Command)
    ensures GoId(c) == Base(GroupOf(c)) + CommentOffset(c) + (if CommentedFromOne(GroupOf(c)) then 0 else 1)
    ensures GoId(c) != Base(GroupOf(c)) + CommentOffset(c) <==> !CommentedFromOne(GroupOf(c))
  {
    IotaFollowsComment(c);
  }

  /** The same comparison on the offsets alone, line by line. */
  lemma IotaFollowsComment(c: Command)
    ensures Iota(c) == CommentOffset(c) + (if CommentedFromOne(GroupOf(c)) then 0 else 1)
  {
  }

  /** The last PTP command takes the value of the CP group base. */
  lemma PtpPoWithLHitsCpBase()
    ensures GoId(Ptp(PTPPOWithLCmd)) == Base(CpBase)
    ensures GroupOf(Ptp(PTPPOWithLCmd)) != CpBase
  {
  }
}
