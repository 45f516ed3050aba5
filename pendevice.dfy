// PenDevice: the description every pen device carries (identity, screen
// and tablet geometry, capabilities, connection), the descriptor text of
// ToString, the SerializablePenDevice record of Serialize, IsSameDevice,
// IsConnected and the error messages.
module PenDevices {
  import opened Wrappers
  import opened Geometry
  import opened Text

  /** C#'s ushort. */
  type UInt16 = v: int | 0 <= v < 0x1_0000

  datatype DeviceType = SIGNPAD | PEN_TABLET | PEN_DISPLAY | PEN_COMPUTER

  datatype ConnectionMode = USB | SERIAL | WIRELESS | BLUETOOTH

  datatype PenDeviceError =
    | NONE | DEVICE_BUSY | CANNOT_CONNECT | INIT_FAIL | NULL_PARAM | LAYOUT_NOT_FOUND
    | NOT_SUPPORTED | ALREADY_CONNECTED | NOT_CONNECTED | DISPLAY_FAIL | USER_CANCELLED
    | LAYOUT_FAIL | UNSPECIFIED

  /** The DeviceType text of both ToString and Serialize. */
  function DeviceTypeName(t: DeviceType): string
  {
    match t
    case SIGNPAD => "Signpad"
    case PEN_TABLET => "PenTablet"
    case PEN_DISPLAY => "PenDisplay"
    case PEN_COMPUTER => "PenComputer"
  }

  /** The ConnectionMode text of ToString. */
  function DescriptorModeName(m: ConnectionMode): string
  {
    match m
    case BLUETOOTH => "Bluetooth"
    case SERIAL => "Serial"
    case USB => "USB"
    case WIRELESS => "Wireless"
  }

  /** The ConnectionMode text of Serialize. */
  function SerializedModeName(m: ConnectionMode): string
  {
    match m
    case BLUETOOTH => "Bluetooth"
    case SERIAL => "Serial"
    case USB => "Usb"
    case WIRELESS => "Wireless"
  }

  /** Each vocabulary names every value differently, and the two agree on
      every connection mode except USB, which is "USB" in the descriptor and
      "Usb" in the record. */
  lemma Vocabularies(t: DeviceType, t': DeviceType, m: ConnectionMode, m': ConnectionMode)
    ensures DeviceTypeName(t) == DeviceTypeName(t') ==> t == t'
    ensures DescriptorModeName(m) == DescriptorModeName(m') ==> m == m'
    ensures SerializedModeName(m) == SerializedModeName(m') ==> m == m'
    ensures DescriptorModeName(m) == SerializedModeName(m) <==> m != USB
  {
  }

  function BoolText(b: bool): string
  {
    if b then "true" else "false"
  }

  function Quoted(s: string): string
  {
    "\"" + s + "\""
  }

  /** One member of the descriptor: the quoted key, a colon, the value text. */
  function MemberText(m: (string, string)): string
  {
    Quoted(m.0) + ":" + m.1
  }

  /** The members separated by commas. */
  function JoinMembers(ms: seq<(string, string)>): (r: string)
    ensures ms == [] <==> r == []
  {
    if ms == [] then ""
    else if |ms| == 1 then MemberText(ms[0])
    else MemberText(ms[0]) + "," + JoinMembers(ms[1..])
  }

  function Keys(ms: seq<(string, string)>): (r: seq<string>)
    ensures |r| == |ms| && forall i :: 0 <= i < |ms| ==> r[i] == ms[i].0
  {
    if ms == [] then [] else [ms[0].0] + Keys(ms[1..])
  }

  /** A serial number IsSameDevice compares: not null, not "" and not "0". */
  predicate ValidSerial(s: string)
  {
    s != "" && s != "0"
  }

  /** The SerializablePenDevice data contract. */
  datatype SerializablePenDevice = SerializablePenDevice(
    vid: UInt16, pid: UInt16, vendorName: string, productModel: string,
    maxPressureLevels: int, maxReportRate: int,
    hasScreen: bool, supportUsb: bool, supportSerial: bool, supportColor: bool,
    screenWidth: int, screenHeight: int, deviceType: string, sensorResolution: int,
    serialNo: string, connectionMode: string, tabletWidth: int, tabletHeight: int)

  /** PenDevice, the base of every device class. A null string field is
      the empty string here: the code only concatenates it or compares it
      with "". */
  class PenDevice {
    var connectionId: string
    var vid: UInt16
    var pid: UInt16
    var vendorName: string
    var productModel: string
    var maxPressureLevels: int
    var maxReportRate: int
    var hasScreen: bool
    var supportUsb: bool
    var supportSerial: bool
    var screenDimension: Size
    var deviceType: DeviceType
    var sensorResolution: int
    var inking: bool
    var serialNo: string
    var connectionMode: ConnectionMode
    var tabletDimension: Size
    var supportColor: bool

    /** The field initialisers: an empty connection id, everything else at
        its default. */
    constructor ()
      ensures connectionId == "" && vid == 0 && pid == 0 && vendorName == "" && productModel == ""
      ensures maxPressureLevels == 0 && maxReportRate == 0 && sensorResolution == 0
      ensures !hasScreen && !supportUsb && !supportSerial && !supportColor && !inking
      ensures screenDimension == Size(0, 0) && tabletDimension == Size(0, 0)
      ensures deviceType == SIGNPAD && connectionMode == USB && serialNo == ""
    {
      connectionId := "";
      vid, pid := 0, 0;
      vendorName, productModel := "", "";
      maxPressureLevels, maxReportRate := 0, 0;
      hasScreen, supportUsb, supportSerial := false, false, false;
      screenDimension := Size(0, 0);
      deviceType := SIGNPAD;
      sensorResolution := 0;
      inking := false;
      serialNo := "";
      connectionMode := USB;
      tabletDimension := Size(0, 0);
      supportColor := false;
    }

    /** The base IsConnected: a device is connected once it has an id. */
    predicate IsConnected()
      reads this`connectionId
      ensures IsConnected() <==> |connectionId| > 0
    {
      if connectionId == "" then false else true
    }

    /** The members ToString writes, in order. A Size is a value type, so
        the screen and tablet dimensions are always written; the sensor
        resolution only when it is positive. */
    function DescriptorMembers(): (ms: seq<(string, string)>)
      reads this
    {
      IdentityMembers() + SensorMembers() + ConnectionMembers()
    }

    function IdentityMembers(): (ms: seq<(string, string)>)
      reads this
      ensures |ms| == 13
    {
      [("Vid", NatToString(vid)), ("Pid", NatToString(pid)),
       ("VendorName", Quoted(vendorName)), ("ProductModel", Quoted(productModel)),
       ("MaxPressureLevels", IntToString(maxPressureLevels)), ("MaxReportRate", IntToString(maxReportRate)),
       ("HasScreen", BoolText(hasScreen)), ("SupportUsb", BoolText(supportUsb)),
       ("SupportSerial", BoolText(supportSerial)), ("SupportColor", BoolText(supportColor)),
       ("ScreenWidth", IntToString(screenDimension.width)), ("ScreenHeight", IntToString(screenDimension.height)),
       ("DeviceType", Quoted(DeviceTypeName(deviceType)))]
    }

    function SensorMembers(): (ms: seq<(string, string)>)
      reads this`sensorResolution
    {
      if sensorResolution > 0 then [("SensorResolution", IntToString(sensorResolution))] else []
    }

    function ConnectionMembers(): (ms: seq<(string, string)>)
      reads this
      ensures |ms| == 4
    {
      [("SerialNo", Quoted(serialNo)), ("ConnectionMode", Quoted(DescriptorModeName(connectionMode))),
       ("TabletWidth", IntToString(tabletDimension.width)), ("TabletHeight", IntToString(tabletDimension.height))]
    }

    /** ToString: the members between braces, each but the last followed by
        a comma. */
    function ToString(): (r: string)
      reads this
      ensures |r| >= 2 && r[0] == '{' && r[|r| - 1] == '}'
    {
      "{" + JoinMembers(DescriptorMembers()) + "}"
    }

    /** IsSameDevice: the same Vid and Pid, and, when both serial numbers
        are valid, the same serial number. A null argument throws inside the
        try block and gives false. */
    predicate IsSameDevice(other: PenDevice?)
      reads this, other
      ensures IsSameDevice(other) <==>
                other != null && vid == other.vid && pid == other.pid &&
                (ValidSerial(serialNo) && ValidSerial(other.serialNo) ==> serialNo == other.serialNo)
    {
      if other == null then false
      else if vid == other.vid && pid == other.pid then
        if serialNo != "" && serialNo != "0" && other.serialNo != "" && other.serialNo != "0" then
          serialNo == other.serialNo
        else true
      else false
    }

    /** Serialize: the record with every field copied and the two enums
        named. */
    function Serialize(): (s: SerializablePenDevice)
      reads this
      ensures s.vid == vid && s.pid == pid && s.serialNo == serialNo
      ensures s.vendorName == vendorName && s.productModel == productModel
      ensures s.maxPressureLevels == maxPressureLevels && s.maxReportRate == maxReportRate
      ensures s.hasScreen == hasScreen && s.supportUsb == supportUsb &&
              s.supportSerial == supportSerial && s.supportColor == supportColor
      ensures s.screenWidth == screenDimension.width && s.screenHeight == screenDimension.height
      ensures s.tabletWidth == tabletDimension.width && s.tabletHeight == tabletDimension.height
      ensures s.deviceType == DeviceTypeName(deviceType)
      ensures s.connectionMode == SerializedModeName(connectionMode)
      ensures s.sensorResolution == sensorResolution
    {
      SerializablePenDevice(vid, pid, vendorName, productModel, maxPressureLevels, maxReportRate,
        hasScreen, supportUsb, supportSerial, supportColor,
        screenDimension.width, screenDimension.height, DeviceTypeName(deviceType), sensorResolution,
        serialNo, SerializedModeName(connectionMode), tabletDimension.width, tabletDimension.height)
    }
  }

  /** The descriptor names SensorResolution exactly when it is positive
      and ends with TabletWidth and TabletHeight, preceded by the connection
      mode, which for USB is written "USB" where the record says "Usb". */
  lemma DescriptorShape(d: PenDevice)
    ensures var ms := d.DescriptorMembers();
      (d.sensorResolution > 0 ==> |ms| == 18 && ms[13] == ("SensorResolution", IntToString(d.sensorResolution))) &&
      (d.sensorResolution <= 0 ==> |ms| == 17 && forall i :: 0 <= i < |ms| ==> ms[i].0 != "SensorResolution")
    ensures var ms := d.DescriptorMembers();
      ms[|ms| - 2].0 == "TabletWidth" && ms[|ms| - 1].0 == "TabletHeight" &&
      ms[|ms| - 3] == ("ConnectionMode", Quoted(DescriptorModeName(d.connectionMode))) &&
      (d.connectionMode == USB ==> DescriptorModeName(d.connectionMode) == "USB" && d.Serialize().connectionMode == "Usb")
  {
    var a, b, c := d.IdentityMembers(), d.SensorMembers(), d.ConnectionMembers();
    var ms := d.DescriptorMembers();
    assert ms == a + b + c;
    assert ms[|ms| - 3] == c[1] && ms[|ms| - 2] == c[2] && ms[|ms| - 1] == c[3];
    if d.sensorResolution <= 0 {
      assert ms == a + c;
      forall i | 0 <= i < |ms|
        ensures ms[i].0 != "SensorResolution"
      {
        if i < 13 { assert ms[i] == a[i]; } else { assert ms[i] == c[i - 13]; }
      }
    }
  }

  /** IsSameDevice is reflexive and symmetric, and false for devices with
      different Vid or Pid. */
  lemma SameDeviceRelation(a: PenDevice, b: PenDevice)
    ensures a.IsSameDevice(a)
    ensures a.IsSameDevice(b) <==> b.IsSameDevice(a)
    ensures a.vid != b.vid || a.pid != b.pid ==> !a.IsSameDevice(b)
    ensures !a.IsSameDevice(null)
  {
  }

  /** PenDevice.PenDeviceErrorMessage and the static
      SerializablePenDevice.ErrorMessage: the resource text of the code's
      own name, and "" for UNSPECIFIED, which has none. `resources` stands
      for the resource table. */
  function PenDeviceErrorMessage(code: PenDeviceError, resources: PenDeviceError -> string): (r: string)
    ensures code == UNSPECIFIED ==> r == ""
    ensures code != UNSPECIFIED ==> r == resources(code)
  {
    match code
    case UNSPECIFIED => ""
    case _ => resources(code)
  }
}
