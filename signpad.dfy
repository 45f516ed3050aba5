// SignpadControl: the control that shows a layout on a pen device and
// turns the device's stream of samples into recorded ink and clicks. The
// GDI drawing, the WinForms background and sizing, logging and the
// device's own Connect, DisplayBitmap and ClearScreen calls are not
// modelled; the results those device calls return are parameters.
module SignpadControls {
  import opened Wrappers
  import opened Sequences
  import opened Geometry
  import opened Ink
  import opened Elements
  import opened Layouts
  import opened PenDevices
  import opened ContextPen

  // ----- tagging, recording and firing: the rules of processPenData -----

  /** The tag a screen-space sample receives: the name of the first image
      under it that is marked as a button and has an action or a handler,
      else the name of the first button under it, else the tag it came
      with. */
  function TagFor(es: seq<Element>, d: InkData): string
    reads es
  {
    var p := Coordinates(d);
    var button := FirstHit(OfKind(es, BUTTON), p, false);
    var image := FirstHit(OfKind(es, IMAGE), p, true);
    if image.Some? && (image.value.action != NoAction || image.value.click != NoHandler) then image.value.name
    else if button.Some? then button.value.name
    else d.tag
  }

  /** The device sample rescaled from tablet to screen space and tagged. */
  function ScreenSample(d: InkData, tablet: Size, screen: Size, es: seq<Element>): (r: InkData)
    requires CanRescale(d, tablet, screen)
    reads es
  {
    var scaled := DuplicateRescaled(d, tablet, screen);
    scaled.(tag := TagFor(es, scaled))
  }

  /** Both rescalings processPenData performs are defined: tablet to screen
      for every sample, and back for a recorded one. */
  predicate SampleFits(d: InkData, tablet: Size, screen: Size)
  {
    CanRescale(d, tablet, screen) && CanRescale(DuplicateRescaled(d, tablet, screen), screen, tablet)
  }

  /** Whether a sample with this tag is recorded: always when untagged,
      otherwise only when inking on buttons is allowed. */
  predicate Records(tag: string, inkingOnButton: bool)
  {
    tag == "" || inkingOnButton
  }

  /** The copies appended to the pen data for a screen-space sample: its
      rescaling back to tablet space when it is recorded, else nothing. */
  function Recorded(curr: InkData, screen: Size, tablet: Size, inkingOnButton: bool): (r: seq<InkData>)
    requires CanRescale(curr, screen, tablet)
  {
    if Records(curr.tag, inkingOnButton) then [DuplicateRescaled(curr, screen, tablet)] else []
  }

  /** Whether the current sample fires a click for the previous one's tag:
      the pen has just left the surface after touching it on a tagged
      element. */
  predicate Fires(curr: InkData, prev: Option<InkData>)
  {
    !curr.contact && prev.Some? && prev.value.contact && prev.value.tag != ""
  }

  /** Layout.ClickButton(name) as a value: the invocation it performs, an
      error when no element has the name or a button has no handler, and
      no invocation for a text or line. */
  function ClickOf(es: seq<Element>, name: string): (r: Result<Option<Invocation>>)
    reads es
    ensures r.Err? ==> r.error == NullReference
  {
    match FindByName(es, name)
    case None => Err(NullReference)
    case Some(e) =>
      if e.kind == BUTTON || e.kind == IMAGE then
        (match e.PerformClick() case Err(_) => Err(NullReference) case Ok(v) => Ok(v))
      else Ok(None)
  }

  function OptionToSeq<T>(o: Option<T>): seq<T>
  {
    match o case None => [] case Some(v) => [v]
  }

  /** The tags a stream of screen-space samples fires, starting after
      `prev`; every sample becomes the previous one of the next. */
  function Clicks(prev: Option<InkData>, samples: seq<InkData>): seq<string>
    decreases |samples|
  {
    if samples == [] then []
    else ClickOn(samples[0], prev) + Clicks(Some(samples[0]), samples[1..])
  }

  /** The tag one sample fires, if any. */
  function ClickOn(curr: InkData, prev: Option<InkData>): seq<string>
  {
    if Fires(curr, prev) then [prev.value.tag] else []
  }

  /** The handler ReassignClickEvents binds for an element's action; an
      element without one keeps its handler. */
  function BoundHandler(h: Handler, action: DefaultAction): Handler
  {
    match action
    case Done => DoneHandler
    case Refresh => ClearHandler
    case Cancel => CancelHandler
    case NoAction => h
  }

  // ----- properties of the rules -----

  /** A tag that is not the one the sample came with names an element of
      the layout under the sample: a button, or an image marked as a button
      with an action or a handler. Whenever a button is under the sample,
      the tag is such a name. */
  lemma TagForHit(es: seq<Element>, d: InkData)
    ensures TagFor(es, d) == d.tag || TagNamesHit(es, d, TagFor(es, d))
    ensures (exists i :: 0 <= i < |es| && es[i].kind == BUTTON && Contains(es[i].Bounds(), Coordinates(d))) ==>
              TagNamesHit(es, d, TagFor(es, d))
  {
    var p := Coordinates(d);
    var buttons := OfKind(es, BUTTON);
    var images := OfKind(es, IMAGE);
    var button := FirstHit(buttons, p, false);
    var image := FirstHit(images, p, true);
    if image.Some? && (image.value.action != NoAction || image.value.click != NoHandler) {
      var i :| 0 <= i < |es| && es[i] == image.value;
      assert es[i].kind == IMAGE;
    } else if button.Some? {
      var i :| 0 <= i < |es| && es[i] == button.value;
      assert es[i].kind == BUTTON;
    } else {
      forall i | 0 <= i < |es| && es[i].kind == BUTTON
        ensures !Contains(es[i].Bounds(), p)
      {
        var j :| 0 <= j < |buttons| && buttons[j] == es[i];
        assert !Hit(buttons[j], p, false);
      }
    }
  }

  /** Whether `tag` is the name of an element that may tag a sample at the
      sample's point. */
  ghost predicate TagNamesHit(es: seq<Element>, d: InkData, tag: string)
    reads es
  {
    exists i :: 0 <= i < |es| && es[i].name == tag && Contains(es[i].Bounds(), Coordinates(d)) &&
      (es[i].kind == BUTTON ||
       (es[i].kind == IMAGE && es[i].isButton && (es[i].action != NoAction || es[i].click != NoHandler)))
  }

  /** A press on a tagged element followed by two lifts fires exactly one
      click, for that element, whatever came before. */
  lemma PressLiftLift(prev: Option<InkData>, press: InkData, lift1: InkData, lift2: InkData)
    requires press.contact && press.tag != "" && !lift1.contact && !lift2.contact
    ensures Clicks(prev, [press, lift1, lift2]) == [press.tag]
  {
    assert [press, lift1, lift2][1..] == [lift1, lift2];
    assert [lift1, lift2][1..] == [lift2];
    assert Clicks(Some(lift1), [lift2]) == [];
  }

  /** The stream is processed sample by sample: the clicks of two runs are
      those of the first and, after its last sample, those of the second. */
  lemma {:induction false} ClicksAppend(prev: Option<InkData>, a: seq<InkData>, b: seq<InkData>)
    ensures Clicks(prev, a + b) == Clicks(prev, a) + Clicks(if a == [] then prev else Some(a[|a| - 1]), b)
    decreases |a|
  {
    if a != [] {
      var rest, first := a[1..], ClickOn(a[0], prev);
      ClicksAppend(Some(a[0]), rest, b);
      assert (if rest == [] then Some(a[0]) else Some(rest[|rest| - 1])) == Some(a[|a| - 1]);
      assert (a + b)[0] == a[0] && (a + b)[1..] == rest + b;
      assert Clicks(prev, a + b) == first + Clicks(Some(a[0]), rest + b);
      assert Clicks(prev, a) == first + Clicks(Some(a[0]), rest);
      Associative3(first, Clicks(Some(a[0]), rest), Clicks(Some(a[|a| - 1]), b));
    } else {
      assert a + b == b;
    }
  }

  /** While the pen stays on the surface no click fires. */
  lemma {:induction false} NoClickInContact(prev: Option<InkData>, samples: seq<InkData>)
    requires forall i :: 0 <= i < |samples| ==> samples[i].contact
    ensures Clicks(prev, samples) == []
    decreases |samples|
  {
    if samples != [] {
      NoClickInContact(Some(samples[0]), samples[1..]);
    }
  }

  /** Binding is idempotent, an element with an action ends up with the
      handler of that action whatever it had, and one without keeps its
      handler. */
  lemma BindingProperties(h: Handler, h': Handler, a: DefaultAction)
    ensures BoundHandler(BoundHandler(h, a), a) == BoundHandler(h, a)
    ensures a != NoAction ==> BoundHandler(h, a) == BoundHandler(h', a) && BoundHandler(h, a) != NoHandler
    ensures a == NoAction ==> BoundHandler(h, a) == h
  {
  }

  /** The fields ReassignClickEvents leaves alone on an element. */
  twostate predicate ClickFieldsOnly(e: Element)
    reads e
  {
    unchanged(e`location, e`size, e`text, e`textBrush, e`font, e`autoResizeText, e`hAlign, e`vAlign,
              e`fillBrush, e`borderPen, e`action, e`nextScreenName, e`picture, e`linePen,
              e`lineStart, e`lineEnd)
  }

  /** The effect of ReassignClickEvents on one element: a button or image
      gets the handler of its action, and an image with an action becomes a
      button. */
  twostate predicate Rebound(e: Element)
    reads e
  {
    ClickFieldsOnly(e) &&
    if e.kind == BUTTON || e.kind == IMAGE then
      e.click == BoundHandler(old(e.click), e.action) &&
      e.isButton == ((e.kind == IMAGE && e.action != NoAction) || old(e.isButton))
    else
      e.click == old(e.click) && e.isButton == old(e.isButton)
  }

  /** The answers of the device calls a display makes: its Connect and its
      DisplayBitmap. */
  datatype DeviceResponses = DeviceResponses(connect: PenDeviceError, display: PenDeviceError)

  function DeviceFrame(d: PenDevice?): set<PenDevice>
  {
    if d == null then {} else {d}
  }

  /** Every field of the device but its inking flag is as it was. */
  twostate predicate InkingOnly(d: PenDevice)
    reads d
  {
    unchanged(d`connectionId, d`vid, d`pid, d`vendorName, d`productModel, d`maxPressureLevels,
              d`maxReportRate, d`hasScreen, d`supportUsb, d`supportSerial, d`screenDimension,
              d`deviceType, d`sensorResolution, d`serialNo, d`connectionMode, d`tabletDimension,
              d`supportColor)
  }

  /** The index of the first layout with that name, or the length of the
      list when there is none. */
  function FirstLayoutNamed(ls: seq<Layout>, name: string): (k: nat)
    ensures k <= |ls|
    ensures k < |ls| ==> ls[k].name == name
    ensures forall j :: 0 <= j < k ==> ls[j].name != name
  {
    if ls == [] then 0
    else if ls[0].name == name then 0
    else 1 + FirstLayoutNamed(ls[1..], name)
  }

  /** The elements of all the layouts. */
  function LayoutElements(ls: seq<Layout>): set<Element>
    reads ls
  {
    set l, e | l in ls && e in l.elements :: e
  }

  function ElementsOf(l: Layout?): set<Element>
    reads l
  {
    if l == null then {} else set e | e in l.elements
  }

  /** One foreach loop of ReassignClickEvents: each target with an action
      is given the handler of that action. */
  method BindAll(targets: seq<Element>)
    requires forall i :: 0 <= i < |targets| ==> targets[i].kind == BUTTON || targets[i].kind == IMAGE
    modifies set e | e in targets
    ensures forall e :: e in targets ==> Rebound(e)
  {
    for i := 0 to |targets|
      invariant forall e :: e in targets ==> ClickFieldsOnly(e)
      invariant forall e :: e in targets ==>
                  if e in targets[..i] then
                    e.click == BoundHandler(old(e.click), e.action) &&
                    e.isButton == ((e.kind == IMAGE && e.action != NoAction) || old(e.isButton))
                  else e.click == old(e.click) && e.isButton == old(e.isButton)
    {
      var target := targets[i];
      if target.action == Done {
        target.SetClick(DoneHandler);
      } else if target.action == Refresh {
        target.SetClick(ClearHandler);
      } else if target.action == Cancel {
        target.SetClick(CancelHandler);
      }
      assert targets[..i + 1] == targets[..i] + [target];
    }
    assert targets[..|targets|] == targets;
  }

  class SignpadControl {
    var currentLayout: Layout?
    var allLayouts: seq<Layout>
    var currentPenDevice: PenDevice?
    /** Whether _currentBitmap has been set by a successful display. */
    var hasBitmap: bool
    var inking: bool
    var connectionId: string
    var currPenStatus: Option<InkData>
    var prevPenStatus: Option<InkData>
    var penData: seq<InkData>
    var contextPenData: ContextPenData?
    var inkingOnButton: bool
    /** The click handlers invoked so far, in order. */
    var clickLog: seq<Invocation>

    ghost predicate Valid()
      reads this, currentLayout, allLayouts
    {
      (currentLayout != null ==> currentLayout.Valid()) &&
      forall l :: l in allLayouts ==> l.Valid()
    }

    /** The field initialisers. */
    constructor ()
      ensures Valid()
      ensures currentLayout == null && allLayouts == [] && currentPenDevice == null && !hasBitmap
      ensures inking && connectionId == "" && currPenStatus.None? && prevPenStatus.None?
      ensures penData == [] && contextPenData == null && !inkingOnButton && clickLog == []
    {
      currentLayout := null;
      allLayouts := [];
      currentPenDevice := null;
      hasBitmap := false;
      inking := true;
      connectionId := "";
      currPenStatus, prevPenStatus := None, None;
      penData := [];
      contextPenData := null;
      inkingOnButton := false;
      clickLog := [];
    }

    /** IsConnected(penDevice): the device is the one this control
        connected, by connection id. */
    predicate IsConnected(penDevice: PenDevice?)
      reads this`connectionId, penDevice
      ensures IsConnected(penDevice) <==>
                penDevice != null && penDevice.connectionId != "" && connectionId != "" &&
                penDevice.connectionId == connectionId
    {
      if penDevice == null then false
      else if penDevice.connectionId == "" then false
      else if connectionId == "" then false
      else if penDevice.connectionId != connectionId then false
      else true
    }

    /** Whether processPenData handles samples: there is a device and a
        layout, and inking is on. */
    predicate Active()
      reads this`currentPenDevice, this`currentLayout, this`inking
    {
      currentPenDevice != null && currentLayout != null && inking
    }

    /** processPenData(inkData). A sample arriving while the control is not
        active changes nothing. Otherwise the sample is rescaled to screen
        space and tagged, becomes the current status, is recorded back in
        tablet space when the recording policy allows, fires the click of
        the previous status's tag on a lift, and becomes the previous
        status. A click on a name the layout does not have, or on a button
        without a handler, throws out of the method before the previous
        status is updated. */
    method ProcessPenData(inkData: InkData) returns (outcome: Outcome)
      requires currentLayout != null ==> currentLayout.Valid()
      requires Active() ==> SampleFits(inkData, currentPenDevice.tabletDimension, currentPenDevice.screenDimension)
      modifies this`currPenStatus, this`prevPenStatus, this`penData, this`clickLog
      ensures !old(Active()) ==> outcome == Success && unchanged(this)
      ensures old(Active()) ==>
                var tablet, screen := old(currentPenDevice.tabletDimension), old(currentPenDevice.screenDimension);
                var curr := old(ScreenSample(inkData, tablet, screen, currentLayout.elements));
                CanRescale(curr, screen, tablet) && currPenStatus == Some(curr) &&
                penData == old(penData) + Recorded(curr, screen, tablet, old(inkingOnButton))
      ensures old(Active()) ==>
                var tablet, screen := old(currentPenDevice.tabletDimension), old(currentPenDevice.screenDimension);
                var curr := old(ScreenSample(inkData, tablet, screen, currentLayout.elements));
                !Fires(curr, old(prevPenStatus)) ==>
                  outcome == Success && prevPenStatus == Some(curr) && clickLog == old(clickLog)
      ensures old(Active()) ==>
                var tablet, screen := old(currentPenDevice.tabletDimension), old(currentPenDevice.screenDimension);
                var curr := old(ScreenSample(inkData, tablet, screen, currentLayout.elements));
                Fires(curr, old(prevPenStatus)) ==>
                  var click := old(ClickOf(currentLayout.elements, prevPenStatus.value.tag));
                  (click.Err? ==>
                     outcome == Failure(NullReference) && prevPenStatus == old(prevPenStatus) &&
                     clickLog == old(clickLog)) &&
                  (click.Ok? ==>
                     outcome == Success && prevPenStatus == Some(curr) &&
                     clickLog == old(clickLog) + OptionToSeq(click.value))
    {
      if currentPenDevice == null { return Success; }
      if currentLayout == null { return Success; }
      if !inking { return Success; }
      var tablet, screen := currentPenDevice.tabletDimension, currentPenDevice.screenDimension;
      var curr, fires, click := Observe(inkData);
      outcome := Commit(curr, screen, tablet, fires, click);
    }

    /** The reading half of processPenData: the current status, whether it
        fires, and what ClickButton does for the previous status's tag. The
        click changes nothing the model keeps, so it is computed here; its
        invocation is logged by Commit where the code performs it. */
    method Observe(inkData: InkData) returns (curr: InkData, fires: bool, click: Result<Option<Invocation>>)
      requires Active() && currentLayout.Valid()
      requires SampleFits(inkData, currentPenDevice.tabletDimension, currentPenDevice.screenDimension)
      ensures var tablet, screen := currentPenDevice.tabletDimension, currentPenDevice.screenDimension;
                curr == ScreenSample(inkData, tablet, screen, currentLayout.elements) &&
                CanRescale(curr, screen, tablet)
      ensures fires == Fires(curr, prevPenStatus)
      ensures fires ==> click == ClickOf(currentLayout.elements, prevPenStatus.value.tag)
    {
      var tablet, screen := currentPenDevice.tabletDimension, currentPenDevice.screenDimension;
      curr := DuplicateRescaled(inkData, tablet, screen);
      assert CanRescale(curr, screen, tablet);
      curr := TagSample(curr);
      fires, click := false, Ok(None);
      if !curr.contact && prevPenStatus.Some? {
        if prevPenStatus.value.contact && prevPenStatus.value.tag != "" {
          fires := true;
          var clicked, invocation := currentLayout.ClickButton(prevPenStatus.value.tag);
          click := if clicked.Err? then Err(clicked.error) else Ok(invocation);
        }
      }
    }

    /** The writing half of processPenData: the sample becomes the current
        status and is recorded by the policy; a click that throws ends the
        method there, otherwise its invocation is logged and the sample
        becomes the previous status. */
    method Commit(curr: InkData, screen: Size, tablet: Size, fires: bool, click: Result<Option<Invocation>>)
      returns (outcome: Outcome)
      requires CanRescale(curr, screen, tablet)
      modifies this`currPenStatus, this`prevPenStatus, this`penData, this`clickLog
      ensures currPenStatus == Some(curr)
      ensures penData == old(penData) + Recorded(curr, screen, tablet, inkingOnButton)
      ensures !fires ==> outcome == Success && prevPenStatus == Some(curr) && clickLog == old(clickLog)
      ensures fires && click.Err? ==>
                outcome == Failure(click.error) && prevPenStatus == old(prevPenStatus) && clickLog == old(clickLog)
      ensures fires && click.Ok? ==>
                outcome == Success && prevPenStatus == Some(curr) && clickLog == old(clickLog) + OptionToSeq(click.value)
    {
      currPenStatus := Some(curr);
      if curr.tag != "" {
        if inkingOnButton {
          penData := penData + [DuplicateRescaled(curr, screen, tablet)];
        }
      } else {
        penData := penData + [DuplicateRescaled(curr, screen, tablet)];
      }
      if fires {
        if click.Err? {
          return Failure(click.error);
        }
        clickLog := clickLog + OptionToSeq(click.value);
      }
      prevPenStatus := Some(Duplicate(curr));
      outcome := Success;
    }

    /** The hit tests of processPenData: a button under the sample tags
        it, and an image under it that has an action or a handler tags it
        instead. */
    method TagSample(scaled: InkData) returns (tagged: InkData)
      requires currentLayout != null
      ensures tagged == scaled.(tag := TagFor(currentLayout.elements, scaled))
      ensures tagged.x == scaled.x && tagged.y == scaled.y
    {
      tagged := scaled;
      var button := currentLayout.GetButtonOnPoint(Coordinates(tagged));
      if button != null {
        tagged := tagged.(tag := button.name);
      }
      var image := currentLayout.GetImageOnPoint(Coordinates(tagged));
      if image != null {
        if image.action != NoAction || image.click != NoHandler {
          tagged := tagged.(tag := image.name);
        }
      }
    }

    /** ReassignClickEvents: every button and then every image of the
        current layout gets the handler of its action; nothing else
        changes. */
    method ReassignClickEvents()
      requires currentLayout != null ==> currentLayout.Valid()
      modifies ElementsOf(currentLayout)
      ensures currentLayout != null ==> forall e :: e in currentLayout.elements ==> Rebound(e)
    {
      if currentLayout == null { return; }
      var buttons := currentLayout.ButtonList();
      BindAll(buttons);
      label buttonsBound:
      var images := currentLayout.ImageList();
      BindAll(images);
      forall e | e in currentLayout.elements
        ensures Rebound(e)
      {
        if e.kind == IMAGE {
          assert e in images && e !in buttons;
        } else {
          assert e !in images;
          assert Rebound@buttonsBound(e);
        }
      }
    }

    // ----- connecting and displaying -----

    /** Whether Connect(penDevice) succeeds: the device is already the
        connected one, or its own Connect answers NONE. */
    predicate Connectable(penDevice: PenDevice, responses: DeviceResponses)
      reads this`connectionId, penDevice
    {
      IsConnected(penDevice) || responses.connect == NONE
    }

    /** Connect(penDevice): nothing to do for the connected device;
        otherwise the device's own Connect, whose answer is `connectResult`,
        and on success the device and its id become the current ones. */
    method Connect(penDevice: PenDevice, connectResult: PenDeviceError) returns (r: PenDeviceError)
      modifies this`connectionId, this`currentPenDevice
      ensures old(IsConnected(penDevice)) ==> r == NONE && unchanged(this)
      ensures !old(IsConnected(penDevice)) ==> r == connectResult
      ensures !old(IsConnected(penDevice)) && r == NONE ==>
                connectionId == penDevice.connectionId && currentPenDevice == penDevice
      ensures !old(IsConnected(penDevice)) && r != NONE ==> unchanged(this)
      ensures r == NONE && penDevice.connectionId != "" ==> IsConnected(penDevice)
    {
      if IsConnected(penDevice) {
        return NONE;
      }
      r := connectResult;
      if r == NONE {
        connectionId := penDevice.connectionId;
        currentPenDevice := penDevice;
      }
    }

    /** SetInking(inking): the control's flag and the current device's. */
    method SetInking(inking: bool)
      modifies this`inking, DeviceFrame(currentPenDevice)
      ensures this.inking == inking
      ensures currentPenDevice != null ==> currentPenDevice.inking == inking && InkingOnly(currentPenDevice)
    {
      this.inking := inking;
      if currentPenDevice != null {
        currentPenDevice.inking := inking;
      }
    }

    /** What DisplayBitmap does on a device with a screen. When it cannot
        connect, nothing changes. Otherwise the device is the current one,
        the pen data is reset and the saved record dropped; inking is off
        when the device reports a display failure, and on again, with the
        bitmap kept, when it reports none. */
    twostate predicate Shown(penDevice: PenDevice, responses: DeviceResponses, r: PenDeviceError)
      reads this, penDevice, currentPenDevice
    {
      if !old(Connectable(penDevice, responses)) then
        r == CANNOT_CONNECT && connectionId == old(connectionId) && currentPenDevice == old(currentPenDevice) &&
        inking == old(inking) && penData == old(penData) && hasBitmap == old(hasBitmap)
      else
        connectionId == penDevice.connectionId &&
        currentPenDevice == (if old(IsConnected(penDevice)) then old(currentPenDevice) else penDevice) &&
        penData == [] && contextPenData == null &&
        (if responses.display == NONE then r == NONE && inking && hasBitmap
         else r == responses.display && !inking && hasBitmap == old(hasBitmap)) &&
        (currentPenDevice != null ==> currentPenDevice.inking == inking)
    }

    /** DisplayBitmap(bitmap, penDevice); `responses` stands for the
        answers of the device's Connect and DisplayBitmap. */
    method DisplayBitmap(penDevice: PenDevice, responses: DeviceResponses) returns (r: PenDeviceError)
      modifies this`connectionId, this`currentPenDevice, this`inking, this`penData, this`contextPenData
      modifies this`hasBitmap, DeviceFrame(currentPenDevice), penDevice
      ensures !penDevice.hasScreen ==> r == NOT_SUPPORTED && unchanged(this) && unchanged(penDevice)
      ensures InkingOnly(penDevice)
      ensures old(currentPenDevice) != null ==> InkingOnly(old(currentPenDevice))
      ensures penDevice.hasScreen ==> Shown(penDevice, responses, r)
      ensures !old(Connectable(penDevice, responses)) ==> contextPenData == old(contextPenData)
    {
      if !penDevice.hasScreen {
        return NOT_SUPPORTED;
      }
      var connected := Connect(penDevice, responses.connect);
      if connected != NONE {
        return CANNOT_CONNECT;
      }
      SetInking(false);
      penData := [];
      contextPenData := null;
      var result := responses.display;
      if result != NONE {
        return result;
      }
      hasBitmap := true;
      SetInking(true);
      r := NONE;
    }

    /** Every field a failed navigation leaves alone, the saved record and
        the current layout excepted. */
    twostate predicate Untouched()
      reads this
    {
      connectionId == old(connectionId) && currentPenDevice == old(currentPenDevice) &&
      inking == old(inking) && penData == old(penData) && hasBitmap == old(hasBitmap)
    }

    /** DisplayLayout(layout, penDevice): on a device with a screen the
        layout becomes the current one, its click events are reassigned
        and its bitmap is displayed. The layout's own Render, which
        CreateBitmap runs before the click events are reassigned, is not
        run here. */
    method DisplayLayout(layout: Layout, penDevice: PenDevice, responses: DeviceResponses) returns (r: PenDeviceError)
      requires layout.Valid()
      modifies this`currentLayout, this`connectionId, this`currentPenDevice, this`inking, this`penData
      modifies this`contextPenData, this`hasBitmap, DeviceFrame(currentPenDevice), penDevice, ElementsOf(layout)
      ensures !penDevice.hasScreen ==> r == NOT_SUPPORTED && unchanged(this) && unchanged(penDevice)
      ensures penDevice.hasScreen ==>
                currentLayout == layout && (forall e :: e in layout.elements ==> Rebound(e)) &&
                Shown(penDevice, responses, r)
      ensures !old(Connectable(penDevice, responses)) ==> contextPenData == old(contextPenData)
      ensures InkingOnly(penDevice)
      ensures old(currentPenDevice) != null ==> InkingOnly(old(currentPenDevice))
    {
      if !penDevice.hasScreen {
        return NOT_SUPPORTED;
      }
      currentLayout := layout;
      ReassignClickEvents();
      r := DisplayBitmap(penDevice, responses);
    }

    /** Whether LoadNextLayout(layoutName) gets as far as DisplayLayout's
        ReassignClickEvents: there are layouts, a device with a screen, and
        a layout with that name. */
    predicate ReachesLayout(layoutName: string)
      reads this, currentPenDevice
    {
      allLayouts != [] && currentPenDevice != null &&
      FirstLayoutNamed(allLayouts, layoutName) < |allLayouts| && currentPenDevice.hasScreen
    }

    /** Whether it gets as far as the device's DisplayBitmap: the device
        can also be connected. */
    predicate ReachesDisplay(layoutName: string, responses: DeviceResponses)
      reads this, currentPenDevice
    {
      ReachesLayout(layoutName) && Connectable(currentPenDevice, responses)
    }

    /** What LoadNextLayout(layoutName) does, `device` being the current
        device it started with and `ls` the list of layouts: LAYOUT_NOT_FOUND for an empty list or a
        missing name and CANNOT_CONNECT without a device, changing nothing,
        and otherwise DisplayLayout of the first layout with that name,
        whose rebinding LoadNextLayout states apart. */
    twostate predicate Loaded(device: PenDevice?, ls: seq<Layout>, layoutName: string, responses: DeviceResponses,
                              r: PenDeviceError)
      reads this, device, currentPenDevice
    {
      var k := FirstLayoutNamed(ls, layoutName);
      if ls == [] then r == LAYOUT_NOT_FOUND && Untouched() && currentLayout == old(currentLayout)
      else if device == null then r == CANNOT_CONNECT && Untouched() && currentLayout == old(currentLayout)
      else if k == |ls| then r == LAYOUT_NOT_FOUND && Untouched() && currentLayout == old(currentLayout)
      else if !device.hasScreen then r == NOT_SUPPORTED && Untouched() && currentLayout == old(currentLayout)
      else
        currentLayout == ls[k] && Shown(device, responses, r)
    }

    /** LoadNextLayout(layoutName). */
    method LoadNextLayout(layoutName: string, responses: DeviceResponses) returns (r: PenDeviceError)
      requires Valid()
      modifies this`currentLayout, this`connectionId, this`currentPenDevice, this`inking, this`penData
      modifies this`contextPenData, this`hasBitmap, DeviceFrame(currentPenDevice), LayoutElements(allLayouts)
      ensures Loaded(old(currentPenDevice), allLayouts, layoutName, responses, r)
      ensures old(ReachesLayout(layoutName)) ==>
                forall e :: e in old(allLayouts[FirstLayoutNamed(allLayouts, layoutName)].elements) ==> Rebound(e)
      ensures !old(ReachesDisplay(layoutName, responses)) ==> contextPenData == old(contextPenData)
      ensures old(currentPenDevice) != null ==> InkingOnly(old(currentPenDevice))
    {
      if |allLayouts| == 0 {
        return LAYOUT_NOT_FOUND;
      }
      if currentPenDevice == null {
        return CANNOT_CONNECT;
      }
      for i := 0 to |allLayouts|
        invariant forall j :: 0 <= j < i ==> allLayouts[j].name != layoutName
      {
        var layout := allLayouts[i];
        if layout.name == layoutName {
          assert FirstLayoutNamed(allLayouts, layoutName) == i;
          assert ElementsOf(layout) <= LayoutElements(allLayouts);
          r := DisplayLayout(layout, currentPenDevice, responses);
          return;
        }
      }
      r := LAYOUT_NOT_FOUND;
    }

    /** ClearScreen: the device's own ClearScreen is not modelled; the
        control forgets its layout. */
    method ClearScreen()
      modifies this`currentLayout
      ensures currentLayout == null
    {
      currentLayout := null;
    }

    /** Cancel(sender, e): `carryOn` is the answer of the CancelPressed
        callback (true without one). */
    method Cancel(carryOn: bool)
      modifies this`currentLayout
      ensures currentLayout == (if carryOn then null else old(currentLayout))
    {
      if carryOn {
        ClearScreen();
      }
    }

    /** RefreshScreen: the current bitmap is displayed again on the current
        device, when there are both. */
    method RefreshScreen(responses: DeviceResponses) returns (shown: Option<PenDeviceError>)
      modifies this`connectionId, this`currentPenDevice, this`inking, this`penData, this`contextPenData
      modifies this`hasBitmap, DeviceFrame(currentPenDevice)
      ensures shown.Some? <==> old(currentPenDevice) != null && old(hasBitmap)
      ensures shown.None? ==> unchanged(this)
      ensures shown.Some? && !old(currentPenDevice).hasScreen ==> shown.value == NOT_SUPPORTED && unchanged(this)
      ensures shown.Some? && old(currentPenDevice).hasScreen ==> Shown(old(currentPenDevice), responses, shown.value)
    {
      shown := None;
      if currentPenDevice != null {
        if hasBitmap {
          var r := DisplayBitmap(currentPenDevice, responses);
          shown := Some(r);
        }
      }
    }

    /** Clear(sender, e): `carryOn` is the answer of the ClearPressed
        callback; the screen is refreshed when there is a device. */
    method Clear(carryOn: bool, responses: DeviceResponses) returns (shown: Option<PenDeviceError>)
      modifies this`connectionId, this`currentPenDevice, this`inking, this`penData, this`contextPenData
      modifies this`hasBitmap, DeviceFrame(currentPenDevice)
      ensures !carryOn || old(currentPenDevice) == null ==> shown.None? && unchanged(this)
      ensures carryOn && old(currentPenDevice) != null ==>
                (shown.Some? <==> old(hasBitmap)) &&
                (shown.None? ==> unchanged(this)) &&
                (shown.Some? && !old(currentPenDevice).hasScreen ==> shown.value == NOT_SUPPORTED && unchanged(this)) &&
                (shown.Some? && old(currentPenDevice).hasScreen ==> Shown(old(currentPenDevice), responses, shown.value))
    {
      shown := None;
      if !carryOn {
        return;
      }
      if currentPenDevice != null {
        shown := RefreshScreen(responses);
      }
    }

    /** The record Done saves: a fresh ContextPenData of the device, the
        samples and the layout current when Done began. */
    twostate predicate Saved()
      reads this, contextPenData
    {
      old(currentPenDevice) != null && contextPenData != null && fresh(contextPenData) &&
      contextPenData.errorCode == 0 && contextPenData.dictionary == [] &&
      contextPenData.penDevice == Some(old(currentPenDevice.Serialize())) &&
      contextPenData.penData == Some(old(penData)) && contextPenData.layout == old(currentLayout)
    }

    /** The first step of Done: `_contextPenData = new ContextPenData(...)`.
        The record keeps a snapshot of the samples; the code's record shares
        the control's list until DisplayBitmap replaces it. */
    method SaveContext()
      requires currentPenDevice != null
      modifies this`contextPenData
      ensures Saved()
    {
      contextPenData := new ContextPenData(currentPenDevice, Some(penData), currentLayout);
    }

    /** The rest of Done once the record is saved: nothing more when the
        DonePressed callback answers false, otherwise the next screen is
        loaded, or the screen cleared when there is none. */
    method Proceed(next: string, carryOn: bool, responses: DeviceResponses) returns (loaded: Option<PenDeviceError>)
      requires Valid()
      modifies this`currentLayout, this`connectionId, this`currentPenDevice, this`inking, this`penData
      modifies this`contextPenData, this`hasBitmap, DeviceFrame(currentPenDevice), LayoutElements(allLayouts)
      ensures !carryOn ==> loaded.None? && unchanged(this)
      ensures carryOn && next == "" ==>
                loaded.None? && Untouched() && currentLayout == null && contextPenData == old(contextPenData)
      ensures carryOn && next != "" ==>
                loaded.Some? && Loaded(old(currentPenDevice), allLayouts, next, responses, loaded.value) &&
                (!old(ReachesDisplay(next, responses)) ==> contextPenData == old(contextPenData))
      ensures old(currentPenDevice) != null ==> InkingOnly(old(currentPenDevice))
    {
      loaded := None;
      if !carryOn {
        return;
      }
      if next != "" {
        var r := LoadNextLayout(next, responses);
        loaded := Some(r);
      } else {
        ClearScreen();
      }
    }

    /** Done(sender, e): the context pen data is saved first (the
        ContextPenData constructor dereferences the device, so there must be
        one); `carryOn` is the answer of the DonePressed callback; then the
        sender's next screen is loaded, or the screen is cleared when it
        names none. A null sender is dereferenced only once the callback
        has answered true. `loaded` is LoadNextLayout's result, which Done
        discards. */
    method Done(sender: Element?, carryOn: bool, responses: DeviceResponses)
      returns (outcome: Outcome, loaded: Option<PenDeviceError>)
      requires Valid()
      modifies this`currentLayout, this`connectionId, this`currentPenDevice, this`inking, this`penData
      modifies this`contextPenData, this`hasBitmap, DeviceFrame(currentPenDevice), LayoutElements(allLayouts)
      ensures old(currentPenDevice) == null ==> outcome == Failure(NullReference) && loaded.None? && unchanged(this)
      ensures old(currentPenDevice) != null ==> (outcome == Success <==> !carryOn || sender != null)
      ensures old(currentPenDevice) != null && carryOn && sender == null ==>
                outcome == Failure(NullReference) && loaded.None? && Saved() && Untouched() &&
                currentLayout == old(currentLayout)
      ensures old(currentPenDevice) != null && !carryOn ==>
                loaded.None? && Saved() && Untouched() && currentLayout == old(currentLayout)
      ensures old(currentPenDevice) != null && carryOn && old(NextScreen(sender)) == Ok("") ==>
                loaded.None? && Saved() && Untouched() && currentLayout == null
      ensures old(currentPenDevice) != null && carryOn && old(NextScreen(sender)).Ok? && old(NextScreen(sender)).value != "" ==>
                var next := old(NextScreen(sender)).value;
                loaded.Some? && Loaded(old(currentPenDevice), allLayouts, next, responses, loaded.value) &&
                (!old(ReachesDisplay(next, responses)) ==> Saved())
      ensures old(currentPenDevice) != null ==> InkingOnly(old(currentPenDevice))
    {
      if currentPenDevice == null {
        return Failure(NullReference), None;
      }
      var next := NextScreen(sender);
      SaveContext();
      if carryOn && next.Err? {
        return Failure(next.error), None;
      }
      loaded := Proceed(if next.Ok? then next.value else "", carryOn, responses);
      outcome := Success;
    }

    /** Disconnect: the screen is cleared and the device forgotten; the
        device's own Disconnect is not modelled. */
    method Disconnect()
      modifies this`currentLayout, this`connectionId, this`currentPenDevice
      ensures currentLayout == null && currentPenDevice == null
      ensures connectionId == (if old(currentPenDevice) != null then "" else old(connectionId))
      ensures old(currentPenDevice) != null ==> forall d: PenDevice? :: !IsConnected(d)
    {
      ClearScreen();
      if currentPenDevice != null {
        connectionId := "";
        currentPenDevice := null;
      }
    }

    /** DisplayLayouts(layoutList, penDevice, initialLayout), as written:
        the guard `layoutList != null || layoutList.Count > 0` dereferences
        a null list and lets an empty one through, so the outcome follows
        DisplayLayoutsAsWritten; a list is stored before its entry is
        taken. */
    method DisplayLayouts(layoutList: Option<seq<Layout>>, penDevice: PenDevice, initialLayout: int,
                          responses: DeviceResponses) returns (r: Result<PenDeviceError>)
      requires layoutList.Some? ==> forall l :: l in layoutList.value ==> l.Valid()
      modifies this`allLayouts, this`currentLayout, this`connectionId, this`currentPenDevice, this`inking
      modifies this`penData, this`contextPenData, this`hasBitmap, DeviceFrame(currentPenDevice), penDevice
      modifies if layoutList.Some? then LayoutElements(layoutList.value) else {}
      ensures var choice := DisplayLayoutsAsWritten(penDevice.hasScreen, LengthOf(layoutList), initialLayout);
              match choice
              case NotSupported => r == Ok(NOT_SUPPORTED) && unchanged(this) && unchanged(penDevice)
              case NoLayouts => r == Ok(NULL_PARAM) && unchanged(this)
              case Throws(fault) =>
                r == Err(fault) && Untouched() && currentLayout == old(currentLayout) &&
                contextPenData == old(contextPenData) &&
                (layoutList.Some? ==> allLayouts == layoutList.value) &&
                (layoutList.None? ==> allLayouts == old(allLayouts))
              case Shows(i) =>
                layoutList.Some? && 0 <= i < |layoutList.value| &&
                var layout := layoutList.value[i];
                r.Ok? && allLayouts == layoutList.value && currentLayout == layout &&
                (forall e :: e in layout.elements ==> Rebound(e)) && Shown(penDevice, responses, r.value)
      ensures InkingOnly(penDevice)
      ensures old(currentPenDevice) != null ==> InkingOnly(old(currentPenDevice))
    {
      if !penDevice.hasScreen {
        return Ok(NOT_SUPPORTED);
      }
      if layoutList.None? {
        // `layoutList != null` is false, so `layoutList.Count` is evaluated
        return Err(NullReference);
      }
      allLayouts := layoutList.value;
      if !(0 <= initialLayout < |layoutList.value|) {
        return Err(IndexOutOfRange);
      }
      var layout := layoutList.value[initialLayout];
      assert ElementsOf(layout) <= LayoutElements(layoutList.value);
      var shown := DisplayLayout(layout, penDevice, responses);
      r := Ok(shown);
    }
  }

  /** Done's choice of the next screen: the NextScreenName of a sender that
      is an ElementButton or an ElementImage, "" for any other sender; a
      null sender throws when its type is asked for. */
  function NextScreen(sender: Element?): (r: Result<string>)
    reads sender
    ensures r.Err? <==> sender == null
    ensures r.Err? ==> r.error == NullReference
    ensures r.Ok? ==> (r.value != "" <==> sender.kind in {BUTTON, IMAGE} && sender.nextScreenName != "")
    ensures r.Ok? && r.value != "" ==> r.value == sender.nextScreenName
  {
    if sender == null then Err(NullReference)
    else if sender.kind == BUTTON && sender.nextScreenName != "" then Ok(sender.nextScreenName)
    else if sender.kind == IMAGE && sender.nextScreenName != "" then Ok(sender.nextScreenName)
    else Ok("")
  }

  // ----- the guard of DisplayLayouts -----

  /** What DisplayLayouts does with its arguments. */
  datatype LayoutsChoice = NotSupported | NoLayouts | Throws(fault: Fault) | Shows(index: int)

  /** The length of a list that may be null. */
  function LengthOf<T>(list: Option<seq<T>>): (r: Option<nat>)
    ensures r.Some? <==> list.Some?
    ensures list.Some? ==> r.value == |list.value|
  {
    match list
    case None => None
    case Some(l) => Some(|l|)
  }

  /** The guard as written, `list != null || list.Count > 0`: a null list
      is dereferenced, and any other list passes. */
  function DisplayLayoutsAsWritten(hasScreen: bool, length: Option<nat>, index: int): LayoutsChoice
  {
    if !hasScreen then NotSupported
    else if length.None? then Throws(NullReference)
    else if 0 <= index < length.value then Shows(index)
    else Throws(IndexOutOfRange)
  }

  /** The guard as evidently intended, `list != null && list.Count > 0`:
      NULL_PARAM for a null or empty list. */
  function DisplayLayoutsIntended(hasScreen: bool, length: Option<nat>, index: int): LayoutsChoice
  {
    if !hasScreen then NotSupported
    else if length.None? || length.value == 0 then NoLayouts
    else if 0 <= index < length.value then Shows(index)
    else Throws(IndexOutOfRange)
  }

  /** As written, NULL_PARAM is never returned: a null list throws a null
      reference, and the empty list passes and throws on its first entry. */
  lemma DisplayLayoutsGuardFails(hasScreen: bool, length: Option<nat>, index: int)
    ensures DisplayLayoutsAsWritten(hasScreen, length, index) != NoLayouts
    ensures DisplayLayoutsAsWritten(true, None, 0) == Throws(NullReference)
    ensures DisplayLayoutsAsWritten(true, Some(0), 0) == Throws(IndexOutOfRange)
    ensures DisplayLayoutsIntended(true, None, 0) == NoLayouts
    ensures DisplayLayoutsIntended(true, Some(0), 0) == NoLayouts
  {
  }

  /** As intended, NULL_PARAM answers exactly a missing or empty list on a
      device with a screen, nothing dereferences a null list, and the two
      guards agree on every list that has entries. */
  lemma DisplayLayoutsIntendedGuard(hasScreen: bool, length: Option<nat>, index: int)
    ensures DisplayLayoutsIntended(hasScreen, length, index) == NoLayouts <==>
              hasScreen && (length.None? || length.value == 0)
    ensures DisplayLayoutsIntended(hasScreen, length, index) != Throws(NullReference)
    ensures DisplayLayoutsIntended(hasScreen, length, index).Shows? ==>
              length.Some? && 0 <= index < length.value
    ensures length.Some? && length.value > 0 ==>
              DisplayLayoutsIntended(hasScreen, length, index) == DisplayLayoutsAsWritten(hasScreen, length, index)
  {
  }
}
