// WacomDeviceScanner: which STU signpad a USB vendor and product id name,
// the order Scan puts its findings in, and the parsing of the serial-port
// listing. Enumerating USB devices and running the listing utility are
// not modelled: their results are parameters.
module Scanner {
  import opened Wrappers
  import opened Text
  import opened PenDevices

  /** WacomSignpad.VID. */
  const WACOM_VID: UInt16 := 0x056a

  datatype SignpadModel = STU300 | STU430 | STU430V | STU500 | STU520 | STU530 | STU540

  /** The PID constant of each signpad class. */
  function Pid(m: SignpadModel): UInt16
  {
    match m
    case STU300 => 0x00a2
    case STU430 => 0x00a4
    case STU430V => 0x00a6
    case STU500 => 0x00a1
    case STU520 => 0x00a3
    case STU530 => 0x00a5
    case STU540 => 0x00a7
  }

  /** IdentifyWacomSignpad(vid, pid): null for another vendor, otherwise
      the model whose PID matches, tried in the order of the code. */
  function IdentifyWacomSignpad(vid: UInt16, pid: UInt16): (r: Option<SignpadModel>)
    ensures r.Some? ==> vid == WACOM_VID && Pid(r.value) == pid
    ensures vid != WACOM_VID ==> r.None?
  {
    if vid != WACOM_VID then None
    else if pid == Pid(STU300) then Some(STU300)
    else if pid == Pid(STU430) then Some(STU430)
    else if pid == Pid(STU430V) then Some(STU430V)
    else if pid == Pid(STU500) then Some(STU500)
    else if pid == Pid(STU520) then Some(STU520)
    else if pid == Pid(STU530) then Some(STU530)
    else if pid == Pid(STU540) then Some(STU540)
    else None
  }

  /** A model is identified exactly from the Wacom vendor id and its own
      PID; no two models share a PID. */
  lemma IdentifyExactly(vid: UInt16, pid: UInt16, m: SignpadModel, m': SignpadModel)
    ensures IdentifyWacomSignpad(vid, pid) == Some(m) <==> vid == WACOM_VID && pid == Pid(m)
    ensures Pid(m) == Pid(m') ==> m == m'
    ensures vid != WACOM_VID ==> IdentifyWacomSignpad(vid, pid).None?
  {
  }

  /** The models found among the given USB devices, in enumeration order. */
  function Identified(devices: seq<(UInt16, UInt16)>): (r: seq<SignpadModel>)
    ensures |r| <= |devices|
  {
    if devices == [] then []
    else
      var last := devices[|devices| - 1];
      Identified(devices[..|devices| - 1]) +
        (match IdentifyWacomSignpad(last.0, last.1) case None => [] case Some(m) => [m])
  }

  /** A model is found exactly when one of the devices has its ids. */
  lemma {:induction false} IdentifiedMembers(devices: seq<(UInt16, UInt16)>, m: SignpadModel)
    ensures m in Identified(devices) <==> exists i :: 0 <= i < |devices| && devices[i] == (WACOM_VID, Pid(m))
  {
    if devices != [] {
      var n := |devices|;
      var init := devices[..n - 1];
      IdentifiedMembers(init, m);
      IdentifyExactly(devices[n - 1].0, devices[n - 1].1, m, m);
      if exists i :: 0 <= i < |init| && init[i] == (WACOM_VID, Pid(m)) {
        var i :| 0 <= i < |init| && init[i] == (WACOM_VID, Pid(m));
        assert devices[i] == init[i];
      }
      if exists i :: 0 <= i < n && devices[i] == (WACOM_VID, Pid(m)) {
        var i :| 0 <= i < n && devices[i] == (WACOM_VID, Pid(m));
        if i < n - 1 {
          assert init[i] == devices[i];
        } else {
          var found := IdentifyWacomSignpad(devices[n - 1].0, devices[n - 1].1);
          assert found == Some(m);
        }
      }
    }
  }

  /** ScanUsbSignpad: every enumerated device that is identified, in
      order; `devices` stands for the (vendor id, product id) pairs the USB
      enumeration yields. */
  method ScanUsbSignpad(devices: seq<(UInt16, UInt16)>) returns (result: seq<SignpadModel>)
    ensures result == Identified(devices)
  {
    result := [];
    for i := 0 to |devices|
      invariant result == Identified(devices[..i])
    {
      var signpad := IdentifyWacomSignpad(devices[i].0, devices[i].1);
      if signpad.Some? {
        result := result + [signpad.value];
      }
      assert devices[..i + 1][..i] == devices[..i];
    }
    assert devices[..|devices|] == devices;
  }

  /** ScanSerialSignpad: the ports are listed, but the list is dropped and
      the result is always empty. */
  method ScanSerialSignpad() returns (result: seq<SignpadModel>)
    ensures result == []
  {
    result := [];
  }

  /** ScanWintabDevice: always empty. */
  method ScanWintabDevice() returns (result: seq<SignpadModel>)
    ensures result == []
  {
    result := [];
  }

  /** Scan: the USB findings, then the serial ones, then the Wintab ones;
      as the last two are empty, exactly the USB findings. */
  method Scan(devices: seq<(UInt16, UInt16)>) returns (result: seq<SignpadModel>)
    ensures result == Identified(devices)
  {
    result := [];
    var usb := ScanUsbSignpad(devices);
    result := result + usb;
    var serial := ScanSerialSignpad();
    result := result + serial;
    var wintab := ScanWintabDevice();
    result := result + wintab;
  }

  // ----- the serial-port listing -----

  /** COM_CONNECTION. */
  datatype ComConnection = ComConnection(comNo: string, comType: string)

  /** The entry a listing line gives: none when it splits at spaces into
      fewer than two items, otherwise the first and the last item. */
  function PortOfLine(line: string): (r: Option<ComConnection>)
  {
    var items := Split(line, {' '});
    if |items| < 2 then None else Some(ComConnection(items[0], items[|items| - 1]))
  }

  /** The entries of the listing lines, in order. */
  function Ports(lines: seq<string>): (r: seq<ComConnection>)
    ensures |r| <= |lines|
  {
    if lines == [] then []
    else
      Ports(lines[..|lines| - 1]) +
        (match PortOfLine(lines[|lines| - 1]) case None => [] case Some(c) => [c])
  }

  /** The pieces of the listing: Split at both characters of
      Environment.NewLine, so "\r\n" leaves an empty piece between them. */
  function ListingLines(output: string): seq<string>
  {
    Split(output, {'\r', '\n'})
  }

  /** The parsing loop of DetectSerialPorts over the utility's `output`: an
      empty output gives no entries. */
  method ParseSerialPorts(output: string) returns (result: seq<ComConnection>)
    ensures output == [] ==> result == []
    ensures output != [] ==> result == Ports(ListingLines(output))
  {
    result := [];
    if |output| > 0 {
      var connections := ListingLines(output);
      for i := 0 to |connections|
        invariant result == Ports(connections[..i])
      {
        var items := Split(connections[i], {' '});
        if |items| < 2 {
          assert connections[..i + 1][..i] == connections[..i];
          continue;
        }
        var com := ComConnection(items[0], items[|items| - 1]);
        result := result + [com];
        assert connections[..i + 1][..i] == connections[..i];
      }
      assert connections[..|connections|] == connections;
    }
  }

  /** A line is skipped exactly when it holds no space, as the empty
      pieces of "\r\n" do; a kept line gives its first and last
      space-free items. */
  lemma PortOfLineShape(line: string)
    ensures PortOfLine(line).None? <==> CountIn(line, {' '}) == 0
    ensures PortOfLine(line).Some? ==>
              var c := PortOfLine(line).value;
              (forall i :: 0 <= i < |c.comNo| ==> c.comNo[i] != ' ') &&
              (forall i :: 0 <= i < |c.comType| ==> c.comType[i] != ' ')
  {
    SplitCount(line, {' '});
  }

  /** The listing is parsed line by line: the entries of two runs of
      lines are the entries of each, one after the other. */
  lemma {:induction false} PortsAppend(a: seq<string>, b: seq<string>)
    ensures Ports(a + b) == Ports(a) + Ports(b)
    decreases |b|
  {
    if b != [] {
      var n := |b|;
      assert (a + b)[..|a + b| - 1] == a + b[..n - 1];
      assert (a + b)[|a + b| - 1] == b[n - 1];
      PortsAppend(a, b[..n - 1]);
    } else {
      assert a + b == a;
    }
  }

  /** A line of three space-free words, such as "COM3 USB Serial", gives
      its first and last word; the empty line gives nothing. */
  lemma PortOfWords(a: string, b: string, c: string)
    requires forall i :: 0 <= i < |a| ==> a[i] != ' '
    requires forall i :: 0 <= i < |b| ==> b[i] != ' '
    requires forall i :: 0 <= i < |c| ==> c[i] != ' '
    ensures PortOfLine(a + [' '] + b + [' '] + c) == Some(ComConnection(a, c))
    ensures PortOfLine("") == None
  {
    SplitNone(a, {' '});
    SplitNone(b, {' '});
    SplitNone(c, {' '});
    SplitAround(b, ' ', c, {' '});
    SplitAround(a, ' ', b + [' '] + c, {' '});
    assert a + [' '] + b + [' '] + c == a + [' '] + (b + [' '] + c);
  }
}
