# InkPlatform layout-and-ink engine in Dafny

InkPlatform captures handwritten signatures and other ink on Wacom pen
devices. A *layout* is a named list of *elements*: texts, buttons, lines and
images, each with a location, a size, an action and the name of a next
screen. The layout is shown on the device's screen. A `SignpadControl`
turns the device's stream of pen samples (`InkData`) into recorded ink and
button clicks. Two specialised layouts arrange their elements themselves:

- `BoxLayout` is a 3-by-3 grid of cells with proportional ratios. The
  elements of a cell share it along a flow direction, with spacing.
- `SignatureLayout` has OK, Clear and Cancel buttons, a signature line,
  the signer, the reason and the time, in one of two fixed geometries.

`JSONSerializer` maps layouts and elements to intermediate records and
back. It also holds the hand-written scanner that cuts a JSON array text
into its items.

`ContextPenData` packages the pen data of one capture with its device,
layout and annotation dictionary. `InkProcessor` draws the ink segments
into an image; when the data is to be embedded, it grows the image until
the steganographic payload fits. `PenDevice` describes a device.
`WacomDeviceScanner` identifies STU signpads and parses the serial-port
listing.

The model keeps the form of the C# code:

- Objects whose fields the code updates are classes: `Element`, `Layout`,
  `BoxLayout`, `SignatureLayout`, `SignpadControl`, `ContextPenData`,
  `PenDevice` and the shared colour arrays (`Palette`). Their methods carry
  `modifies` clauses.
- Values are datatypes: `InkData`, points, sizes, rectangles and the
  serializer records.
- Loops stay loops with invariants. Each method is tied to a specification
  function about which the lemmas state the promised properties.

The C# class hierarchy becomes composition. The four element subclasses are
one `Element` class whose immutable `kind` says which one it is.
`BoxLayout` and `SignatureLayout` each hold their base `Layout`.

Null references and exceptions become `Option` and `Result` values, and an
error is returned where the C# code would throw. A null element that the
code keeps in a plain layout's list is a flag returned beside the layout. Where the code has a
defect, the main model follows the code as written. A corrected definition
sits beside it, with the intended property proved (see "## Findings").

## Model

| member | source | states |
|---|---|---|
| Steganography.PictureSize | InkPlatform/Steganography/SteganographyHelper2.cs:29-33 | a null bitmap is refused with ArgumentNull; otherwise the capacity is width times height |
| Steganography.NeededProperties | InkPlatform/Steganography/SteganographyHelper2.cs:17-21 | eight bits per character: the empty text needs 0, the need never decreases with the length and is additive over concatenation |
| Steganography.PictureSizeNeeded | InkPlatform/Steganography/SteganographyHelper2.cs:17-21 | the need is a non-negative multiple of eight, and 0 exactly for the empty text |
| Steganography.CapacityExamples | InkPlatform/Steganography/SteganographyHelper2.cs:17-33 | a 100x100 bitmap (10000 pixels) holds 1000 characters (8000 bits); a 50x50 one (2500) does not |
| Ink.NewInkData | InkPlatform/Ink/InkData.cs:16-75 | a fresh sample has every number 0, both flags false and the tag "" |
| Ink.FlagEncoding | InkPlatform/Ink/InkData.cs:60-72 | ct reads 1 exactly on contact and 0 otherwise (pr likewise for proximity); writing back the value read changes nothing; writing v sets the flag exactly when v is 1 and touches nothing else |
| Ink.ToInt32 | InkPlatform/Ink/InkData.cs:82 | the (int) cast of a uint keeps the 32 bits: values below 2^31 are kept, larger ones become negative |
| Ink.Coordinates | InkPlatform/Ink/InkData.cs:77-84 | the coordinates are (x, y) whenever both fit a signed 32-bit int |
| Ink.Duplicate | InkPlatform/Ink/InkData.cs:86-100 | the copy agrees with the sample in all eight fields |
| Ink.DuplicateRescaled | InkPlatform/Ink/InkData.cs:102-109 | x becomes floor(x * new width / old width) and y likewise with the heights; every other field is copied |
| Ink.RescaleIdentity | InkPlatform/Ink/InkData.cs:102-109 | rescaling between equal positive dimensions gives the sample back |
| Ink.RescaleMonotone | InkPlatform/Ink/InkData.cs:102-109 | rescaling keeps the order of two samples along each axis |
| Utf8.EncodeChar | InkPlatform/Ink/InkProcessor.cs:42 | a character takes one to four bytes, every byte after the first a continuation byte (section 3 of RFC 3629) |
| Utf8.Encode | InkPlatform/Ink/InkProcessor.cs:42 | the encoding of a text is at least as long as the text |
| Utf8.DecodeChar | InkPlatform/Ink/InkProcessor.cs:34 | a decoded character uses between one byte and all the bytes available |
| Utf8.DecodeEncodeChar | InkPlatform/Ink/InkProcessor.cs:34-42 | the first character is decoded back from its encoding followed by any bytes, with its exact byte count |
| Utf8.DecodeEncode | InkPlatform/Ink/InkProcessor.cs:34-42 | Encoding.UTF8.GetString undoes Encoding.UTF8.GetBytes on every text |
| Utf8.Decode | InkPlatform/Ink/InkProcessor.cs:34 | every character read takes at least one byte; ill-formed bytes are refused with a format error |
| Utf8.EncodeDecodeChar | InkPlatform/Ink/InkProcessor.cs:34-42 | a character read from bytes is encoded as exactly those bytes, as overlong forms are refused |
| Utf8.EncodeDecode | InkPlatform/Ink/InkProcessor.cs:34-42 | bytes read as a text are that text's encoding, so GetString reads only what GetBytes writes |
| Utf8.AsciiEncoding | InkPlatform/UserInterface/JSONSerializer.cs:182 | ASCII text (all JSON the serializers write from ASCII names) is encoded one byte per character, each byte the character's code |
| Text.ToUpper | InkPlatform/UserInterface/JSONSerializer.cs:343 | the upper-cased text has the same length and maps each character through UpperChar, which capitalises the ASCII letters a..z only |
| Text.UpperChar | InkPlatform/UserInterface/JSONSerializer.cs:343 | a small ASCII letter becomes its capital and every other character is kept, so no small ASCII letter is left |
| Text.TrimStart | InkPlatform/UserInterface/JSONSerializer.cs:100 | the result is a suffix of the text, starts with no white space, and exactly white space was removed |
| Text.TrimEnd | InkPlatform/UserInterface/JSONSerializer.cs:100 | the result is a prefix of the text, ends with no white space, and exactly white space was removed |
| Text.Trim | InkPlatform/UserInterface/JSONSerializer.cs:100 | the trimmed text is empty or neither starts nor ends with white space |
| Text.Split | InkPlatform/Hardware/Wacom/WacomDeviceScanner.cs:132-135 | string.Split always yields at least one piece |
| Text.SplitCount | InkPlatform/Hardware/Wacom/WacomDeviceScanner.cs:132-135 | there is one piece more than there are separator characters, and no piece contains a separator |
| Text.SplitNone | InkPlatform/Hardware/Wacom/WacomDeviceScanner.cs:135 | a text without separators is one piece, itself |
| Text.SplitAround | InkPlatform/Hardware/Wacom/WacomDeviceScanner.cs:132-135 | splitting a + separator + b gives the pieces of a followed by the pieces of b |
| Text.DigitValue | InkPlatform/Hardware/PenDevice.cs:130 | a digit's value is below ten and is written back as the same digit |
| Text.NatToStringValue | InkPlatform/Hardware/PenDevice.cs:130-136 | Int32.ToString of a non-negative number is a non-empty string of digits whose decimal value is the number |
| Text.NatToString | InkPlatform/Hardware/PenDevice.cs:130-136 | Int32.ToString of a non-negative number is a non-empty string of decimal digits |
| Text.NatToStringInjective | InkPlatform/UserInterface/BoxLayout.cs:563-567 | distinct counters give distinct decimal texts |
| Text.NatToStringNoLeadingZero | InkPlatform/UserInterface/BoxLayout.cs:563 | the text starts with 0 only for the number 0 |
| Geometry.RectangleOf | InkPlatform/UserInterface/Element.cs:111-124 | new Rectangle(location, size) has exactly that location and size |
| Geometry.QuotNonNegative | InkPlatform/UserInterface/SignatureLayout.cs:145-167 | for a non-negative numerator and positive divisor C#'s truncating division agrees with floor division and is bracketed by the multiples of the divisor |
| Geometry.QuotOfMultiple | InkPlatform/Ink/InkProcessor.cs:23-29 | truncating division undoes an exact multiplication, for either sign |
| Geometry.QuotMonotone | InkPlatform/Ink/InkProcessor.cs:23-29 | truncating division by a positive divisor keeps the order of non-negative numerators |
| Geometry.ScaledIdentity | InkPlatform/UserInterface/Element.cs:111-124 | scaling by a ratio of one changes nothing |
| Geometry.ScaledNonNegative | InkPlatform/UserInterface/Element.cs:111-124 | a non-negative value scaled by a non-negative ratio stays non-negative |
| Geometry.ScaledMonotone | InkPlatform/UserInterface/Element.cs:111-124 | scaling keeps the order of non-negative values |
| Geometry.ScaledBelow | InkPlatform/Ink/InkData.cs:102-109 | a coordinate inside the old dimension lands inside the new positive dimension |
| Scanner.IdentifyExactly | InkPlatform/Hardware/Wacom/WacomDeviceScanner.cs:37-50 | a model is identified exactly from the Wacom vendor id 0x056a and its own product id; no two models share a product id; any other vendor gives null |
| Scanner.IdentifyWacomSignpad | InkPlatform/Hardware/Wacom/WacomDeviceScanner.cs:37-50 | a model is found only for the Wacom vendor id and only when its product id is the one asked for; another vendor gives null |
| Scanner.Identified | InkPlatform/Hardware/Wacom/WacomDeviceScanner.cs:67-84 | no more models are found than there are devices |
| Scanner.IdentifiedMembers | InkPlatform/Hardware/Wacom/WacomDeviceScanner.cs:67-84 | a model is found exactly when one of the enumerated devices carries its vendor and product ids |
| Scanner.ScanUsbSignpad | InkPlatform/Hardware/Wacom/WacomDeviceScanner.cs:67-84 | the loop returns every identified device, in enumeration order |
| Scanner.ScanSerialSignpad | InkPlatform/Hardware/Wacom/WacomDeviceScanner.cs:86-100 | the serial scan always returns an empty list: the detected ports are dropped |
| Scanner.ScanWintabDevice | InkPlatform/Hardware/Wacom/WacomDeviceScanner.cs:102-106 | the Wintab scan always returns an empty list |
| Scanner.Scan | InkPlatform/Hardware/Wacom/WacomDeviceScanner.cs:26-35 | USB findings, then serial, then Wintab, which leaves exactly the USB findings |
| Scanner.Ports | InkPlatform/Hardware/Wacom/WacomDeviceScanner.cs:133-146 | a listing gives at most one entry per line |
| Scanner.ParseSerialPorts | InkPlatform/Hardware/Wacom/WacomDeviceScanner.cs:130-148 | an empty output gives no entries; otherwise the loop yields one entry per kept line of the listing split at CR and LF, in order |
| Scanner.PortOfLineShape | InkPlatform/Hardware/Wacom/WacomDeviceScanner.cs:135-142 | a line is skipped exactly when it holds no space (the empty pieces between CR and LF included); a kept line's COM_NO and COM_TYPE hold no space |
| Scanner.PortsAppend | InkPlatform/Hardware/Wacom/WacomDeviceScanner.cs:133-146 | the listing is parsed line by line: the entries of two runs of lines are those of each, in order |
| Scanner.PortOfWords | InkPlatform/Hardware/Wacom/WacomDeviceScanner.cs:135-142 | a line "a b c" of space-free words gives COM_NO a and COM_TYPE c; the empty line gives nothing |
| Base64.CharOf | InkPlatform/Ink/InkProcessor.cs:43 | no alphabet character is the padding character |
| Base64.ValueOf | InkPlatform/Ink/InkProcessor.cs:33 | a character read as a value is the alphabet character of that value |
| Base64.ValueOfCharOf | InkPlatform/Ink/InkProcessor.cs:33-43 | every six-bit value is read back from its alphabet character |
| Base64.Encode | InkPlatform/Ink/InkProcessor.cs:43 | the text has four characters for every started group of three bytes |
| Base64.DecodeBlock | InkPlatform/Ink/InkProcessor.cs:33 | a full group of four characters decodes to three bytes |
| Base64.DecodeEncode | InkPlatform/Ink/InkProcessor.cs:33-43 | Convert.FromBase64String undoes Convert.ToBase64String on every byte string |
| Base64.DecodeGroups | InkPlatform/Ink/InkProcessor.cs:33 | groups of four characters give three bytes each, the last group one to three, so the text has four characters per started group of three bytes; a failure is a format error |
| Base64.StripWhite | InkPlatform/Ink/InkProcessor.cs:33 | the white space Convert.FromBase64String skips is removed, and a text without white space is kept |
| Base64.Decode | InkPlatform/Ink/InkProcessor.cs:33 | after white space is skipped the text has four characters per started group of three decoded bytes; a failure is a format error |
| Base64.DecodeLast | InkPlatform/Ink/InkProcessor.cs:33 | the last group gives one to three bytes, fewer than three only when it ends in padding |
| Base64.StripConcat | InkPlatform/Ink/InkProcessor.cs:33 | white space is skipped piece by piece over a concatenation |
| Base64.DecodeSkipsLineBreak | InkPlatform/Ink/InkProcessor.cs:33 | "Zm9v" followed by a line break decodes to "foo" |
| Base64.DecodeRefusesPartialGroup | InkPlatform/Ink/InkProcessor.cs:33 | a text that is not whole groups of four is refused |
| Base64.EncodeAlphabet | InkPlatform/Ink/InkProcessor.cs:43 | the text uses only alphabet characters, with '=' only in the last two places |
| Base64.Rfc4648Examples | InkPlatform/Ink/InkProcessor.cs:43 | the test vectors of section 10 of RFC 4648 for "", "f", "fo" and "foo" |
| PenDevices.Vocabularies | InkPlatform/Hardware/PenDevice.cs:146-180 | each vocabulary names every value differently; the two connection-mode vocabularies differ exactly at USB |
| PenDevices.PenDevice.constructor | InkPlatform/Hardware/PenDevice.cs:16-120 | a new device has an empty connection id, zero numbers, false flags and zero dimensions |
| PenDevices.PenDevice.IsConnected | InkPlatform/Hardware/PenDevice.cs:233-236 | the base device is connected exactly when its connection id is non-empty |
| PenDevices.PenDevice.ToString | InkPlatform/Hardware/PenDevice.cs:126-190 | the descriptor is enclosed in braces |
| PenDevices.DescriptorShape | InkPlatform/Hardware/PenDevice.cs:126-190 | SensorResolution is written exactly when it is positive; the descriptor ends with ConnectionMode, TabletWidth and TabletHeight; USB is "USB" in ToString but "Usb" in Serialize |
| PenDevices.PenDevice.IsSameDevice | InkPlatform/Hardware/PenDevice.cs:288-315 | true exactly for a non-null device with the same Vid and Pid whose serial number matches whenever both serials are valid (not "" and not "0") |
| PenDevices.SameDeviceRelation | InkPlatform/Hardware/PenDevice.cs:288-315 | IsSameDevice is reflexive and symmetric, false for a different Vid or Pid, and false for null |
| PenDevices.PenDevice.Serialize | InkPlatform/Hardware/PenDevice.cs:317-376 | the record copies all eighteen fields: the ids, vendor name, product model, pressure levels, report rate, the four capability flags, the screen and tablet sizes, the sensor resolution and the serial number; the device type and connection mode are named ("Usb" for USB) |
| PenDevices.PenDeviceErrorMessage | InkPlatform/Hardware/PenDevice.cs:255-286 | UNSPECIFIED, which has no resource, gives ""; every other code gives the resource text of that code |
| Elements.MakeFont | InkPlatform/UserInterface/ElementText.cs:66 | new Font succeeds exactly for a positive size, and then has that size |
| Elements.Picture.constructor | InkPlatform/UserInterface/ElementImage.cs:90-96 | a picture keeps the dimensions it was loaded with |
| Elements.Element.Text | InkPlatform/UserInterface/ElementText.cs:80-103 | a TEXT element with the given name, text, location and size, both alignments Center, a black brush, font size 40 and AutoResizeText on |
| Elements.Element.Button | InkPlatform/UserInterface/ElementButton.cs:82-137 | a BUTTON with black text, light-gray fill, black border and font size 40; the plain constructors install the no-op Click, the action ones store the action, the next-screen ones set Done and store the name |
| Elements.Element.Image | InkPlatform/UserInterface/ElementImage.cs:55-123 | an IMAGE of the picture's size at the given location, with IsButton false and Click null; the action and next-screen constructors set Action as the button ones do |
| Elements.Element.Line | InkPlatform/UserInterface/ElementLine.cs:28-69 | a LINE whose Location and Start are the start point, whose End is the end point, whose Size stays (0,0), and whose pen has the given colour and width |
| Elements.Element.Bounds | InkPlatform/UserInterface/Element.cs:72-78 | Bounds is always the rectangle of Location and Size |
| Elements.Element.SetBounds | InkPlatform/UserInterface/Element.cs:79-83 | after setting Bounds, reading it gives the same rectangle; only Location and Size change |
| Elements.Element.ResizeToNewDimension | InkPlatform/UserInterface/Element.cs:111-124 | X and Width are scaled by the width ratio, Y and Height by the height ratio, truncated; a zero original width or height gives IndefiniteInt on that axis instead of throwing; equal non-zero dimensions change nothing |
| Elements.Element.FontSize | InkPlatform/UserInterface/ElementText.cs:50-62 | the size of the current font; a text without a font reports 40, a button without one throws |
| Elements.Element.SetFontSize | InkPlatform/UserInterface/ElementButton.cs:52-55 | with a font and a positive size the font is replaced and FontSize reads the new size back; otherwise it fails and the font is kept |
| Elements.Element.SetClick | InkPlatform/UserInterface/ElementImage.cs:36-44 | assigning Click stores the handler, and for an image sets IsButton, even for null; nothing resets it |
| Elements.Element.PerformClick | InkPlatform/UserInterface/ElementButton.cs:148-151 | a button invokes its handler once with itself as sender and throws on a null handler; an image invokes it only when it is non-null (ElementImage.cs:128-135) |
| Layouts.FirstIndexOf | InkPlatform/UserInterface/Layout.cs:168-181 | the position of the first element with that name, or the length of the list exactly when no element has it |
| Layouts.FindByName | InkPlatform/UserInterface/Layout.cs:168-181 | the first element with that name, or nothing exactly when the name is free |
| Layouts.OfKind | InkPlatform/UserInterface/Layout.cs:227-269 | the kind projection holds only elements of that kind taken from the list, and every element of that kind |
| Layouts.FirstHit | InkPlatform/UserInterface/Layout.cs:271-309 | the first element in list order whose half-open bounds contain the point (and that is a button, for images); nothing exactly when no element is hit |
| Layouts.AddKeepsNamesUnique | InkPlatform/UserInterface/Layout.cs:112-132 | adding keeps the names pairwise distinct, and the added name is taken afterwards |
| Layouts.AddAllKeepsNamesUnique | InkPlatform/UserInterface/Layout.cs:121-127 | names stay pairwise distinct under any sequence of additions |
| Layouts.RemoveDropsTheName | InkPlatform/UserInterface/Layout.cs:149-161 | removal keeps names unique, leaves the name free, and removes exactly one element when the name was taken |
| Layouts.WithoutFirstMembers | InkPlatform/UserInterface/Layout.cs:149-161 | with unique names, removal drops exactly the element with that name and keeps every other |
| Layouts.AddAllSnoc | InkPlatform/UserInterface/Layout.cs:112-132 | a run of additions followed by one more is the run extended by that addition |
| Layouts.AddAllNames | InkPlatform/UserInterface/Layout.cs:112-132 | after a run of additions a name is taken exactly when it was taken before or one of the added elements has it |
| Layouts.AddAllExtends | InkPlatform/UserInterface/Layout.cs:130 | additions only append: the earlier list is a prefix of the result |
| Layouts.AddAllMembers | InkPlatform/UserInterface/Layout.cs:112-132 | every element of the result was there before or was added while its name was free |
| Layouts.AddAllOfTakenNames | InkPlatform/UserInterface/Layout.cs:121-127 | adding only elements whose names are taken leaves the list as it was |
| Layouts.OfKindAppend | InkPlatform/UserInterface/Layout.cs:227-269 | the kind projections distribute over concatenation, so they keep the list order |
| Layouts.Layout.constructor | InkPlatform/UserInterface/Layout.cs:47-50 | a new layout has the given name, the DEFAULT type and no element list yet |
| Layouts.Layout.OfType | InkPlatform/UserInterface/BoxLayout.cs:199-213 | the layout part of a box or signature layout: the given name and type, no element list yet |
| Layouts.Layout.AddElement | InkPlatform/UserInterface/Layout.cs:112-132 | false and the list unchanged on a duplicate name; otherwise true with the element appended at the end |
| Layouts.Layout.AddText | InkPlatform/UserInterface/Layout.cs:59-105 | null and no change when an element is called `text` (the check is on the text, not the name); otherwise a Near/Near text element at (x, y) is appended, with the font size when given, and a non-positive font size throws |
| Layouts.Layout.RemoveElement | InkPlatform/UserInterface/Layout.cs:149-161 | throws when the list was never created; otherwise drops the first match and answers whether there was one |
| Layouts.Layout.RemoveElementObject | InkPlatform/UserInterface/Layout.cs:139-142 | removal by the element's own name, as RemoveElement(name) |
| Layouts.Layout.GetElement | InkPlatform/UserInterface/Layout.cs:168-181 | the first element with that name, or null when there is none |
| Layouts.Layout.ButtonList | InkPlatform/UserInterface/Layout.cs:227-244 | the buttons of the list, in list order |
| Layouts.Layout.ImageList | InkPlatform/UserInterface/Layout.cs:252-269 | the images of the list, in list order |
| Layouts.Layout.GetButtonOnPoint | InkPlatform/UserInterface/Layout.cs:271-289 | the first button whose half-open bounds contain the point, or null |
| Layouts.Layout.GetImageOnPoint | InkPlatform/UserInterface/Layout.cs:291-309 | the first image marked as a button whose bounds contain the point, or null |
| Layouts.Layout.ClickButton | InkPlatform/UserInterface/Layout.cs:188-205 | a missing name throws; a button or image is clicked and gives true (a button with a null handler throws); a text or line gives false |
| Layouts.Layout.GetRequiredSize | InkPlatform/UserInterface/Layout.cs:311-332 | throws without a list; otherwise the smallest non-negative size reaching the right and bottom edges of every element, each positive extent reached by some element |
| BoxLayouts.At | InkPlatform/UserInterface/BoxLayout.cs:225-257 | the cell in the given row and column has that row and that column |
| BoxLayouts.RowAndColumnIdentify | InkPlatform/UserInterface/BoxLayout.cs:225-257 | a cell is determined by its row and its column |
| BoxLayouts.GridPosition | InkPlatform/UserInterface/BoxLayout.cs:396-404 | the k-th cell of the order Render(width, height) visits has grid index k |
| BoxLayouts.GridPositionOf | InkPlatform/UserInterface/BoxLayout.cs:396-404 | every cell comes exactly once in that order |
| BoxLayouts.Parts | InkPlatform/UserInterface/BoxLayout.cs:332-338 | a non-empty cell is cut into at least ten parts |
| BoxLayouts.Slots | InkPlatform/UserInterface/BoxLayout.cs:343-368 | one slot per element |
| BoxLayouts.CellSlots | InkPlatform/UserInterface/BoxLayout.cs:320-370 | one slot per element of the cell |
| BoxLayouts.PlaceAlong | InkPlatform/UserInterface/BoxLayout.cs:343-368 | element i of the cell gets slot i: the cell origin plus i element lengths and i gaps along the flow, the whole cell across it |
| BoxLayouts.SharesTile | InkPlatform/UserInterface/BoxLayout.cs:259-303 | with non-negative ratios the three truncated shares are non-negative and add up to the length less at most two pixels |
| BoxLayouts.ZeroHorizontalTotal | InkPlatform/UserInterface/BoxLayout.cs:259-302 | a zero horizontal total makes every cell width the cast of a NaN or infinite share, and the x of the second and third columns follows from it |
| BoxLayouts.ColumnsTile | InkPlatform/UserInterface/BoxLayout.cs:259-280 | the three column widths are non-negative and cover the width up to two pixels |
| BoxLayouts.RowsTile | InkPlatform/UserInterface/BoxLayout.cs:282-303 | the three row heights are non-negative and cover the height up to two pixels |
| BoxLayouts.SubdivisionFits | InkPlatform/UserInterface/BoxLayout.cs:332-341 | element length floor(10a/parts) and gap floor(spacing*a/parts) are non-negative, and n lengths plus n-1 gaps fit in the cell length a |
| BoxLayouts.SlotsPartitionCell | InkPlatform/UserInterface/BoxLayout.cs:320-370 | every slot lies inside its cell, spans the cell across the flow, and successive slots follow each other without overlapping |
| BoxLayouts.ThreeButtonsDown | InkPlatform/UserInterface/BoxLayout.cs:320-370 | the three-button scenario (flow DOWN, spacing 2, ratios 1:5:1 on 800x480): the middle cell is (113,159,571,160) and the buttons sit at y 159, 215 and 271, each 47 high |
| BoxLayouts.GridLineEnds | InkPlatform/UserInterface/BoxLayout.cs:167-195 | createGridLines draws eight lines |
| BoxLayouts.GridAddition | InkPlatform/UserInterface/BoxLayout.cs:167-195 | adding the grid lines keeps names unique, only appends, leaves all eight grid names taken, and changes nothing when they are all taken already (no duplicate grid) |
| BoxLayouts.Delete | InkPlatform/UserInterface/BoxLayout.cs:505 | List.Remove drops one element when the object is present and none otherwise, and adds nothing |
| BoxLayouts.DeleteIsRemovalByName | InkPlatform/UserInterface/BoxLayout.cs:501-508 | with unique names, removing the found object is removing the first element with its name |
| BoxLayouts.RemovalKeepsDistinct | InkPlatform/UserInterface/BoxLayout.cs:497-516 | removal keeps a list of distinct objects distinct |
| BoxLayouts.RemovalMembers | InkPlatform/UserInterface/BoxLayout.cs:497-516 | with unique names, removal by name drops exactly the element with that name |
| BoxLayouts.NumberedCount | InkPlatform/UserInterface/BoxLayout.cs:558-570 | name1 ... name(count) are count different names |
| BoxLayouts.TakenNumbersBound | InkPlatform/UserInterface/BoxLayout.cs:558-570 | all of name1 ... name(count) being taken needs count elements, so the search for a free name ends |
| BoxLayouts.EmptyCellsValid | InkPlatform/UserInterface/BoxLayout.cs:199-213 | the nine fresh cells are empty and agree with the empty list |
| BoxLayouts.InNoCell | InkPlatform/UserInterface/BoxLayout.cs:416-429 | an element that none of the nine tests finds is in no cell |
| BoxLayouts.CellsAdd | InkPlatform/UserInterface/BoxLayout.cs:471-477 | appending a new element to one cell and to the list keeps every cell a distinct sub-list of the element list |
| BoxLayouts.CellNamesUnique | InkPlatform/UserInterface/BoxLayout.cs:471-477 | the names within one cell are unique |
| BoxLayouts.NoNameNoSlot | InkPlatform/UserInterface/BoxLayout.cs:497-516 | a name no element has is in no cell |
| BoxLayouts.RemovalByObject | InkPlatform/UserInterface/BoxLayout.cs:501-511 | removing the found object from the list and from its cell is removing its name from the list and from every cell |
| BoxLayouts.OnlyCell | InkPlatform/UserInterface/BoxLayout.cs:416-429 | an element sits in one cell only |
| BoxLayouts.CellsRemove | InkPlatform/UserInterface/BoxLayout.cs:497-516 | removing a name from the list and from every cell keeps the cells valid and leaves no orphan with that name |
| BoxLayouts.CellsGrow | InkPlatform/UserInterface/BoxLayout.cs:471-477 | cells valid for a list stay valid for any list holding all its elements |
| BoxLayouts.WithoutNamed | InkPlatform/UserInterface/BoxLayout.cs:155-165 | after removeGridLines the list holds exactly the earlier elements whose names are not grid names |
| BoxLayouts.WithoutFirstCons | InkPlatform/UserInterface/BoxLayout.cs:497-516 | removal by name stops at the first match |
| BoxLayouts.UnusedName | InkPlatform/UserInterface/BoxLayout.cs:155-165 | removing a name nobody has changes nothing |
| BoxLayouts.RemovalStep | InkPlatform/UserInterface/BoxLayout.cs:155-165 | with unique names, one more RemoveElement extends the series of removed names |
| BoxLayouts.NamedGone | InkPlatform/UserInterface/BoxLayout.cs:155-165 | no removed name is left |
| BoxLayouts.RemovalPrefixStep | InkPlatform/UserInterface/BoxLayout.cs:155-165 | one step of removeGridLines advances both the list and every cell by one name |
| BoxLayouts.BoxLayout.constructor | InkPlatform/UserInterface/BoxLayout.cs:199-213 | nine empty cells, ratios 1:1:1 both ways, flow RIGHT, spacing 0, no grid, no element list |
| BoxLayouts.BoxLayout.SetSpacing | InkPlatform/UserInterface/BoxLayout.cs:93-110 | Spacing is clamped to 0..10 |
| BoxLayouts.BoxLayout.SetHorizontalRatio | InkPlatform/UserInterface/BoxLayout.cs:530-536 | the three column ratios are replaced and the row ratios kept |
| BoxLayouts.BoxLayout.SetVerticalRatio | InkPlatform/UserInterface/BoxLayout.cs:550-556 | the three row ratios are replaced and the column ratios kept |
| BoxLayouts.BoxLayout.ElementsAt | InkPlatform/UserInterface/BoxLayout.cs:220-223 | a cell's elements are distinct elements of the layout |
| BoxLayouts.BoxLayout.PositionOf | InkPlatform/UserInterface/BoxLayout.cs:416-429 | the cell found holds the element; UNKNOWN exactly when no cell does |
| BoxLayouts.BoxLayout.AddToPosition | InkPlatform/UserInterface/BoxLayout.cs:471-477 | refused with no change on a taken name; otherwise the element is last in its cell and last in the list |
| BoxLayouts.BoxLayout.GenerateSafeName | InkPlatform/UserInterface/BoxLayout.cs:558-570 | the name when free, else the name followed by the least k >= 1 that is free; the result is never taken |
| BoxLayouts.BoxLayout.AddText | InkPlatform/UserInterface/BoxLayout.cs:438-462 | a new text element labelled `text` with the given alignment, named by generateSafeName, is appended to the cell and to the list, so the call always succeeds |
| BoxLayouts.BoxLayout.RemoveElement | InkPlatform/UserInterface/BoxLayout.cs:497-516 | true exactly when the name was taken; the first element with the name leaves the list and its cell, and no cell keeps that name |
| BoxLayouts.BoxLayout.RemoveElementObject | InkPlatform/UserInterface/BoxLayout.cs:485-488 | removal by the element's own name |
| BoxLayouts.BoxLayout.DropFound | InkPlatform/UserInterface/BoxLayout.cs:503-511 | the found element leaves the list and the cell getPositionForElement names |
| BoxLayouts.BoxLayout.RenderPosition | InkPlatform/UserInterface/BoxLayout.cs:320-370 | the elements of the cell get their slots in order; an empty cell is untouched, as is every other cell |
| BoxLayouts.BoxLayout.AddGridLine | InkPlatform/UserInterface/BoxLayout.cs:167-195 | one grid line, black and one pixel wide, is offered to AddElement and accepted exactly when its name is free |
| BoxLayouts.BoxLayout.CreateGridLines | InkPlatform/UserInterface/BoxLayout.cs:167-195 | the eight grid lines are offered in order; the result is that of the last addition |
| BoxLayouts.BoxLayout.AddGridLines | InkPlatform/UserInterface/BoxLayout.cs:176-193 | the eight additions for the given line ends, in order |
| BoxLayouts.BoxLayout.RemoveGridLines | InkPlatform/UserInterface/BoxLayout.cs:155-165 | every grid name is removed from the list and from every cell |
| BoxLayouts.BoxLayout.Render | InkPlatform/UserInterface/BoxLayout.cs:394-414 | every cell is laid out; with ShowGrid the grid is added and a repeat render adds no duplicate; without it all eight grid names are gone |
| BoxLayouts.BoxLayout.UpdateGrid | InkPlatform/UserInterface/BoxLayout.cs:406-413 | grid lines are added when ShowGrid is set and removed otherwise; element bounds are not touched |
| BoxLayouts.BoxLayout.RenderCells | InkPlatform/UserInterface/BoxLayout.cs:396-404 | after the nine Render(position) calls every cell's elements hold their slots |
| BoxLayouts.BoxLayout.RedrawGridLines | InkPlatform/UserInterface/BoxLayout.cs:376-392 | nothing without ShowGrid; otherwise the grid is re-added, and a refused last line removes the grid and clears ShowGrid |
| SignatureLayouts.BottomBarIsAspectTest | InkPlatform/UserInterface/SignatureLayout.cs:139-141 | the branch test is (float)width / (float)height < 2.5 in exact arithmetic; for a zero height only a negative width (quotient minus infinity) passes |
| SignatureLayouts.ScreenExamples | InkPlatform/UserInterface/SignatureLayout.cs:139-141 | the STU-300's 396x100 screen gets the side buttons; 640x480 and 800x480 get the bottom bar |
| SignatureLayouts.BottomBarTiles | InkPlatform/UserInterface/SignatureLayout.cs:145-161 | the three buttons exactly tile the bar [0,W) x [H*8/9,H) without overlap: Clear and Cancel are W/3 wide, OK takes the rest |
| SignatureLayouts.SideButtonsStack | InkPlatform/UserInterface/SignatureLayout.cs:208-225 | the buttons stack at x = W*4/5, each W-x-1 wide, heights h1, H/3 and H/3-1, exactly tiling [x,W-1) x [0,H-1) without overlap |
| SignatureLayouts.BottomBarDecorationPlaced | InkPlatform/UserInterface/SignatureLayout.cs:163-195 | the dotted line runs from (lx,ly) to (lx+lw,ly) with lw = W*5/7, centred to within a pixel and above the bar; the signer's box hangs from it, the time sits below, the reason fills the top strip |
| SignatureLayouts.SideDecorationPlaced | InkPlatform/UserInterface/SignatureLayout.cs:227-260 | the line lies left of the button column at the top of Cancel; the signer's box hangs from it and the time sits below, both as wide as the line |
| SignatureLayouts.TextFonts | InkPlatform/UserInterface/SignatureLayout.cs:197-199 | the three fonts, each half its box height, exist exactly when all three heights are positive; otherwise new Font throws ArgumentException |
| SignatureLayouts.BarHeightPositive | InkPlatform/UserInterface/SignatureLayout.cs:148-149 | on a screen of positive height the bar has positive height |
| SignatureLayouts.RenderOutcomeIff | InkPlatform/UserInterface/SignatureLayout.cs:163-199 | as written, Render throws exactly in the bottom-bar branch when only one of signer and reason is given, or the height is not positive |
| SignatureLayouts.LoneReasonFails | InkPlatform/UserInterface/SignatureLayout.cs:163-199 | on a 640x480 pad a reason without a signer or a signer without a reason makes Render throw; both given succeeds |
| SignatureLayouts.ShownTextFontsSucceed | InkPlatform/UserInterface/SignatureLayout.cs:197-199 | giving a font only to the texts that are shown succeeds on every screen of positive height, whatever is shown |
| SignatureLayouts.RenderedNames | InkPlatform/UserInterface/SignatureLayout.cs:273-283 | only the three buttons when signer and reason are both empty; otherwise the buttons, the dotted line, the time, then the signer if given, then the reason if given |
| SignatureLayouts.RerenderAddsNothing | InkPlatform/UserInterface/SignatureLayout.cs:273-283 | a second series of additions with the same names changes nothing, so a second Render keeps the first render's elements |
| SignatureLayouts.RenderedShape | InkPlatform/UserInterface/SignatureLayout.cs:273-283 | the elements offered carry the rendered names in order, start with the buttons and hold nothing but the buttons, the line and the texts |
| SignatureLayouts.NewButton | InkPlatform/UserInterface/SignatureLayout.cs:128-130 | ElementButton(name, text) placed in the given bounds, still unarmed |
| SignatureLayouts.Arm | InkPlatform/UserInterface/SignatureLayout.cs:265-271 | one button gets its action and font size 20, all else kept |
| SignatureLayouts.Place | InkPlatform/UserInterface/SignatureLayout.cs:172-194 | a text gets the box's bounds and alignments |
| SignatureLayouts.NewTexts | InkPlatform/UserInterface/SignatureLayout.cs:132-137 | the dotted black line at (0,0) and the time, signer and reason texts, unplaced, with the default font |
| SignatureLayouts.PlaceDecoration | InkPlatform/UserInterface/SignatureLayout.cs:163-260 | the line gets its ends and the time its box; the signer and the reason are placed only when given, otherwise keep size (0,0) |
| SignatureLayouts.SetTextFonts | InkPlatform/UserInterface/SignatureLayout.cs:197-199 | the fonts are set in the order time, signer, reason, stopping at the first that throws |
| SignatureLayouts.NewDecoration | InkPlatform/UserInterface/SignatureLayout.cs:132-260 | the line and texts built and placed; the outcome is that of the font step |
| SignatureLayouts.SignatureLayout.constructor | InkPlatform/UserInterface/SignatureLayout.cs:86-119 | the given name, button texts, signer and reason; no buttons yet and no element list |
| SignatureLayouts.SignatureLayout.Render | InkPlatform/UserInterface/SignatureLayout.cs:124-285 | three new buttons, placed by the branch; on success they get Done, Refresh and Cancel and font 20, and the buttons then the shown decoration are offered to AddElement in order; on failure nothing is added |
| SignatureLayouts.SignatureLayout.RenderWith | InkPlatform/UserInterface/SignatureLayout.cs:124-285 | Render for the geometry of the chosen branch |
| SignatureLayouts.SignatureLayout.Build | InkPlatform/UserInterface/SignatureLayout.cs:128-283 | the elements of Render built, placed and, on success, armed and added |
| SignatureLayouts.SignatureLayout.Finish | InkPlatform/UserInterface/SignatureLayout.cs:265-283 | arming the buttons and adding the rendered elements, decoration untouched |
| SignatureLayouts.SignatureLayout.NewButtons | InkPlatform/UserInterface/SignatureLayout.cs:128-130 | the OK, Clear and Cancel buttons with the layout's texts, placed and unarmed |
| SignatureLayouts.SignatureLayout.ArmAll | InkPlatform/UserInterface/SignatureLayout.cs:265-271 | the actions Done, Refresh and Cancel and font size 20 |
| SignatureLayouts.SignatureLayout.AddRendered | InkPlatform/UserInterface/SignatureLayout.cs:273-283 | the rendered elements are offered to AddElement in order |
| SignatureLayouts.SignatureLayout.Offer | InkPlatform/UserInterface/Layout.cs:112-132 | one AddElement, its result ignored, as one more step of a series of additions |
| ContextPen.Lookup | InkPlatform/Ink/ContextPenData.cs:171-181 | a value is found exactly when the dictionary has the key, and the value found is stored under that key |
| ContextPen.LookupUnique | InkPlatform/Ink/ContextPenData.cs:171-181 | with each key stored once, the value found for an entry's key is that entry's value |
| ContextPen.DictionaryRemove | InkPlatform/Ink/ContextPenData.cs:167 | Dictionary.Remove reports true exactly when the key is present, and leaves the entries untouched otherwise |
| ContextPen.EntryText | InkPlatform/Ink/ContextPenData.cs:69 | an entry is written as a quoted key, a colon and a quoted value: at least five characters, starting and ending with a quote |
| ContextPen.EntryTexts | InkPlatform/Ink/ContextPenData.cs:64-83 | one text per entry, in dictionary order |
| ContextPen.DictionaryAsWritten | InkPlatform/Ink/ContextPenData.cs:64-83 | the loop as written yields a non-empty text for a non-empty dictionary |
| ContextPen.DictionaryAsWrittenShape | InkPlatform/Ink/ContextPenData.cs:72 | as written, all n - 1 commas come first and the n entry texts follow with nothing between them |
| ContextPen.DictionarySeparatorMisplaced | InkPlatform/Ink/ContextPenData.cs:72 | for the entries a=1, b=2 the loop writes `,"a":"1""b":"2"` where a JSON object needs `"a":"1","b":"2"` |
| ContextPen.DictionaryText | InkPlatform/Ink/ContextPenData.cs:64-84 | corrected dictionary text: empty exactly for the empty dictionary |
| ContextPen.Commas | InkPlatform/Ink/ContextPenData.cs:72 | n characters, every one a comma |
| ContextPen.DictionaryTextsAgree | InkPlatform/Ink/ContextPenData.cs:64-83 | with at most one entry the text as written and the corrected text are the same |
| ContextPen.DictionaryTextSplits | InkPlatform/Ink/ContextPenData.cs:64-84 | when no key or value holds a comma, the corrected text splits at its commas into exactly the entry texts, in order |
| ContextPen.DictionaryPartExamples | InkPlatform/Ink/ContextPenData.cs:84 | an empty dictionary is written `"dictionary":{}` and a single entry alone between the braces |
| ContextPen.ContextPenData.Error | InkPlatform/Ink/ContextPenData.cs:27-32 | the error context keeps its code and message and has no pen data, device, layout or entries |
| ContextPen.ContextPenData.constructor | InkPlatform/Ink/ContextPenData.cs:34-40 | code 0 and message ""; the pen data and layout as given; the device kept as its serialisable record; no entries |
| ContextPen.ContextPenData.AddData | InkPlatform/Ink/ContextPenData.cs:146-157 | succeeds exactly when the key is absent; then the pair is appended and GetData returns the value; otherwise nothing changes and GetData returns the old value |
| ContextPen.ContextPenData.RemoveData | InkPlatform/Ink/ContextPenData.cs:159-169 | always answers false and never changes the dictionary: a present key is refused and an absent one has nothing to remove |
| ContextPen.ContextPenData.GetData | InkPlatform/Ink/ContextPenData.cs:171-181 | a value exactly when the key is present; null otherwise |
| ContextPen.ContextPenData.DictionaryString | InkPlatform/Ink/ContextPenData.cs:64-83 | the loop over the entries builds the dictionary text as written |
| ContextPen.ContextPenData.ToString | InkPlatform/Ink/ContextPenData.cs:55-119 | an error context gives code:message; otherwise the envelope of the dictionary, device, pen-data and layout parts, where a missing device or layout contributes "" |
| InkProcessor.ConvertCoordinate | InkPlatform/Ink/InkProcessor.cs:23-29 | converting between equal dimensions leaves the point unchanged |
| InkProcessor.ConvertAxes | InkPlatform/Ink/InkProcessor.cs:23-29 | each axis is converted on its own: x depends only on x and the widths, y only on y and the heights |
| InkProcessor.ConvertMonotone | InkPlatform/Ink/InkProcessor.cs:23-29 | for non-negative points and dimensions the conversion keeps the order of points on each axis |
| InkProcessor.ConvertInside | InkPlatform/Ink/InkProcessor.cs:23-29 | a point inside the source dimension lands inside the target dimension |
| InkProcessor.Segments | InkPlatform/Ink/InkProcessor.cs:128-138 | fewer lines than samples, and none for a single sample |
| InkProcessor.SegmentsDrawn | InkPlatform/Ink/InkProcessor.cs:128-138 | a line is drawn exactly when it joins two consecutive samples that are both in contact |
| InkProcessor.SegmentSource | InkPlatform/Ink/InkProcessor.cs:128-138 | every line drawn joins samples i - 1 and i, both in contact |
| InkProcessor.SegmentOfPair | InkPlatform/Ink/InkProcessor.cs:128-138 | every pair of consecutive samples in contact is drawn |
| InkProcessor.SegmentsOfStroke | InkPlatform/Ink/InkProcessor.cs:128-138 | a stroke wholly in contact is drawn as its polyline: n - 1 lines, line k joining samples k and k + 1 |
| InkProcessor.SegmentsNone | InkPlatform/Ink/InkProcessor.cs:128-138 | a stream with no two consecutive samples in contact draws nothing |
| InkProcessor.DrawSegments | InkPlatform/Ink/InkProcessor.cs:128-138 | the drawing loop draws exactly the segments of the samples |
| InkProcessor.NewBitmap | InkPlatform/Ink/InkProcessor.cs:114 | a bitmap is created exactly for positive dimensions, with that size and nothing drawn |
| InkProcessor.GenerateImageFromInkData | InkPlatform/Ink/InkProcessor.cs:111-154 | a non-positive size escapes as InvalidArgument; otherwise Error for a null list, else Successful with the segments drawn at the sampled coordinates |
| InkProcessor.GenerateImageFromInkDataResize | InkPlatform/Ink/InkProcessor.cs:168-221 | the bitmap has the new size; Error exactly for a null list, or for two or more samples with a zero original dimension; otherwise the segments with every point converted |
| InkProcessor.GrowSizeBounds | InkPlatform/Ink/InkProcessor.cs:257-261 | multiplier 1 gives the original size back, and no multiplier shrinks it |
| InkProcessor.GrowMonotone | InkPlatform/Ink/InkProcessor.cs:257-263 | a larger multiplier never gives fewer pixels |
| InkProcessor.FinalStep | InkPlatform/Ink/InkProcessor.cs:255-266 | the loop stops at the first half-step whose size has enough pixels, or at 5.5 times, and every step before it was too small |
| InkProcessor.FittedSizeProperties | InkPlatform/Ink/InkProcessor.cs:255-271 | growing never shrinks the image; when the fitted size is too small every size up to 5.5 times is; the loop stops no later than the first size that fits; without auto-resize a refusal means the original size is too small |
| InkProcessor.GrowExamples | InkPlatform/Ink/InkProcessor.cs:255-266 | 10x10 asked for 10000 pixels grows to 55x55 and is still too small; 100x100 asked for 20000 stops at 150x150 |
| InkProcessor.FittedOutcome | InkPlatform/Ink/InkProcessor.cs:252-283 | PictureSizeTooSmallToEmbedData exactly when the fitted size has fewer than 8 pixels per character; the text is carried exactly when it fits and embedding succeeds; never SerializeToJsonFail; the bitmap has the fitted size |
| InkProcessor.FitAndEmbed | InkPlatform/Ink/InkProcessor.cs:252-283 | the capacity check, auto-grow loop and embedding give the fitted outcome |
| InkProcessor.GenerateImageFromInkDataEncoded | InkPlatform/Ink/InkProcessor.cs:236-284 | a non-positive size escapes as InvalidArgument; without encodeData the plain drawing; with it the fitted outcome for the list's JSON text |
| InkProcessor.GenerateImageFromInkDataFixedSize | InkPlatform/Ink/InkProcessor.cs:297-301 | the encoding generator with auto-resize off: the plain drawing, or the original size checked for capacity |
| InkProcessor.GenerateImageFromContextPenData | InkPlatform/Ink/InkProcessor.cs:47-98 | a context without a device fails with NullReference; otherwise the drawing at the device's screen size, and with encodeData the fitted outcome for the context's ToString text |
| InkProcessor.Base64RoundTrip | InkPlatform/Ink/InkProcessor.cs:31-45 | Base64Decode gives back the list Base64Encode was given, so two different lists never share an encoding |
| InkProcessor.Base64Encode | InkPlatform/Ink/InkProcessor.cs:38-45 | the text is whole groups of four characters, all of the Base64 alphabet except a padding in the last two places |
| InkProcessor.Base64Decode | InkPlatform/Ink/InkProcessor.cs:31-37 | text that is not Base64 is refused with a format error, and the null list is read exactly from the Base64 of the UTF-8 of the literal null |
| JsonVocabulary.TypeNames | InkPlatform/UserInterface/JSONSerializer.cs:63-68 | each element type name is read back as its type, exactly the four names (case-sensitive) are read as a type, and "text" is not |
| JsonVocabulary.LayoutTypeNames | InkPlatform/UserInterface/JSONSerializer.cs:186-212 | each layout type name is read back as its type; any text other than BOX_LAYOUT and SIGNATURE_LAYOUT, null included, gives the plain layout |
| JsonVocabulary.UpperFixed | InkPlatform/UserInterface/JSONSerializer.cs:343 | a text without lower-case letters is its own upper case |
| JsonVocabulary.UpperIdempotent | InkPlatform/UserInterface/JSONSerializer.cs:343 | upper-casing twice is upper-casing once |
| JsonVocabulary.AlignmentRoundTrip | InkPlatform/UserInterface/JSONSerializer.cs:314-349 | ConvertAlignment reads back both the horizontal and the vertical name of every alignment |
| JsonVocabulary.AlignmentMeaning | InkPlatform/UserInterface/JSONSerializer.cs:340-349 | case is ignored; Near exactly for LEFT or TOP, Far exactly for RIGHT or BOTTOM; null and every other text are Center |
| JsonVocabulary.ConvertAlignment | InkPlatform/UserInterface/JSONSerializer.cs:340-349 | null is Center; Near only for a text that upper-cases to LEFT or TOP, Far only for RIGHT or BOTTOM |
| JsonVocabulary.AlignmentAnyCase | InkPlatform/UserInterface/JSONSerializer.cs:340-349 | "left" is Near, "Bottom" is Far, and "centre" is Center |
| JsonVocabulary.ActionRoundTrip | InkPlatform/UserInterface/JSONSerializer.cs:974-988 | each action name sets its action; reading ignores case; only DONE, REFRESH or CANCEL change the element's action |
| JsonVocabulary.ActionLowerCase | InkPlatform/UserInterface/JSONSerializer.cs:864-878 | "done" is read as Done |
| JsonVocabulary.FlowRoundTrip | InkPlatform/UserInterface/JSONSerializer.cs:488-497 | each flow name is read back as its flow; a non-null text gives DOWN exactly when its upper case is DOWN |
| JsonVocabulary.FlowLowerCase | InkPlatform/UserInterface/JSONSerializer.cs:488-497 | "down" is read as DOWN |
| SignpadControls.TagForHit | InkPlatform/UserControls/SignpadControl.cs:521-537 | a tag that differs from the one the sample came with names an element under the sample: a button, or an image with an action or a handler; with a button under the sample the tag is always such a name |
| SignpadControls.ClickOf | InkPlatform/UserControls/SignpadControl.cs:572 | ClickButton fails only with NullReference: for a name no element has, or a button or image without a handler |
| SignpadControls.PressLiftLift | InkPlatform/UserControls/SignpadControl.cs:567-576 | a press on a tagged element followed by two lifts fires the element's click exactly once |
| SignpadControls.ClicksAppend | InkPlatform/UserControls/SignpadControl.cs:567-576 | samples are processed one at a time: the clicks of a concatenated stream are those of the first run followed by those of the second, started from the first run's last sample |
| SignpadControls.NoClickInContact | InkPlatform/UserControls/SignpadControl.cs:567-574 | no click fires while the pen stays on the surface |
| SignpadControls.BindingProperties | InkPlatform/UserControls/SignpadControl.cs:587-601 | binding is idempotent; an element with an action gets that action's handler whatever it had before, and never none; an element without an action keeps its handler |
| SignpadControls.BindAll | InkPlatform/UserControls/SignpadControl.cs:585-602 | the binding loop gives every button or image in the list its action's handler and changes nothing else on it |
| SignpadControls.FirstLayoutNamed | InkPlatform/UserControls/SignpadControl.cs:458-464 | the index of the first layout with that name, or the list's length when none has it |
| SignpadControls.NextScreen | InkPlatform/UserControls/SignpadControl.cs:377-395 | a null sender throws; otherwise the next screen is the sender's NextScreenName when the sender is a button or image with a non-empty name, and "" otherwise |
| SignpadControls.LengthOf | InkPlatform/UserControls/SignpadControl.cs:270 | the length of a list, and none for a null list |
| SignpadControls.DisplayLayoutsGuardFails | InkPlatform/UserControls/SignpadControl.cs:270 | as written NULL_PARAM is never returned: a null list throws a null reference and an empty list throws on its first entry |
| SignpadControls.DisplayLayoutsIntendedGuard | InkPlatform/UserControls/SignpadControl.cs:265-280 | as intended NULL_PARAM answers exactly a missing or empty list on a device with a screen, no null list is dereferenced, and the two guards agree on every list with entries |
| SignpadControls.SignpadControl.constructor | InkPlatform/UserControls/SignpadControl.cs:29-56 | the field initialisers: no layout, no device, no bitmap, inking on, no samples, no saved record, inking on buttons off |
| SignpadControls.SignpadControl.IsConnected | InkPlatform/UserControls/SignpadControl.cs:163-170 | connected exactly when the device is present, its connection id and the stored one are non-empty, and they are equal |
| SignpadControls.SignpadControl.ProcessPenData | InkPlatform/UserControls/SignpadControl.cs:514-577 | inactive: nothing changes; otherwise the rescaled, tagged sample becomes the current status, its tablet-space copy is appended when the recording rule allows, a lift after a tagged press fires that tag's click, and the sample becomes the previous status unless the click fails |
| SignpadControls.SignpadControl.Observe | InkPlatform/UserControls/SignpadControl.cs:521-572 | the current sample is the rescaled and tagged input; it fires exactly when the pen lifts after a tagged contact, and the click is the previous tag's |
| SignpadControls.SignpadControl.Commit | InkPlatform/UserControls/SignpadControl.cs:544-576 | the new current status, the pen data extended by the recorded copies, and the click logged before the previous status is updated; a failed click leaves the previous status as it was |
| SignpadControls.SignpadControl.TagSample | InkPlatform/UserControls/SignpadControl.cs:523-537 | the tag is the hit image's name when it has an action or handler, else the hit button's, else unchanged; the coordinates are kept |
| SignpadControls.SignpadControl.ReassignClickEvents | InkPlatform/UserControls/SignpadControl.cs:579-627 | every button and image of the current layout gets its action's handler, and nothing else changes |
| SignpadControls.SignpadControl.Connect | InkPlatform/UserControls/SignpadControl.cs:172-189 | the connected device answers NONE with no change; otherwise the device's answer, and on NONE the device becomes current and connected |
| SignpadControls.SignpadControl.SetInking | InkPlatform/UserControls/SignpadControl.cs:191-200 | the control's and the current device's inking flag become the value given; nothing else on the device changes |
| SignpadControls.SignpadControl.DisplayBitmap | InkPlatform/UserControls/SignpadControl.cs:217-263 | NOT_SUPPORTED without a screen and no change; CANNOT_CONNECT when connecting fails; otherwise the samples and saved record are reset, the device's answer is returned, and only on success is the bitmap set and inking turned on |
| SignpadControls.SignpadControl.DisplayLayout | InkPlatform/UserControls/SignpadControl.cs:287-298 | NOT_SUPPORTED without a screen; otherwise the layout becomes current, its clicks are rebound and it is displayed |
| SignpadControls.SignpadControl.LoadNextLayout | InkPlatform/UserControls/SignpadControl.cs:442-467 | LAYOUT_NOT_FOUND for an empty list or an unknown name, CANNOT_CONNECT without a device, otherwise the first layout of that name is displayed |
| SignpadControls.SignpadControl.ClearScreen | InkPlatform/UserControls/SignpadControl.cs:430-440 | nothing is shown afterwards |
| SignpadControls.SignpadControl.Cancel | InkPlatform/UserControls/SignpadControl.cs:327-341 | the screen is cleared exactly when the callback agrees |
| SignpadControls.SignpadControl.RefreshScreen | InkPlatform/UserControls/SignpadControl.cs:407-416 | the current bitmap is displayed again exactly when there are a device and a bitmap |
| SignpadControls.SignpadControl.Clear | InkPlatform/UserControls/SignpadControl.cs:343-359 | when the callback agrees and there is a device, the current bitmap is displayed again; otherwise nothing changes |
| SignpadControls.SignpadControl.SaveContext | InkPlatform/UserControls/SignpadControl.cs:365-366 | a fresh record of the device, a snapshot of the samples so far and the current layout, with no entries |
| SignpadControls.SignpadControl.Proceed | InkPlatform/UserControls/SignpadControl.cs:368-404 | no further change when the callback refuses; otherwise the next screen is loaded, or the screen cleared when there is none |
| SignpadControls.SignpadControl.Done | InkPlatform/UserControls/SignpadControl.cs:361-405 | without a device it throws before anything changes; otherwise the record is saved first, then the screen is left as it is when the callback stops, a null sender throws when it goes on, and otherwise the screen is cleared or replaced by the sender's next screen |
| SignpadControls.SignpadControl.Disconnect | InkPlatform/UserControls/SignpadControl.cs:418-428 | the screen is cleared, the device forgotten, and afterwards no device counts as connected |
| SignpadControls.SignpadControl.DisplayLayouts | InkPlatform/UserControls/SignpadControl.cs:265-280 | follows the guard as written: NOT_SUPPORTED, a fault (with the list stored when there is one) or the layout at the index displayed |
| InkJson.Expect | InkPlatform/Ink/InkProcessor.cs:320-333 | the text after the literal exactly when the text starts with it, and an error otherwise |
| InkJson.DigitSpan | InkPlatform/Ink/InkProcessor.cs:320-333 | the longest run of leading decimal digits |
| InkJson.ReadCharsWritten | InkPlatform/Ink/InkProcessor.cs:308-333 | a string literal as written reads back as its string, and reading resumes right after the closing quote |
| InkJson.ReadNumberWritten | InkPlatform/Ink/InkProcessor.cs:308-333 | a number as written reads back as itself when no digit follows it |
| InkJson.ReadStringWritten | InkPlatform/Ink/InkProcessor.cs:308-333 | a string literal reads back as its string whatever follows it |
| InkJson.ReadValueWritten | InkPlatform/Ink/InkProcessor.cs:308-333 | a value reads back as itself when the end of the text, a comma or a closing bracket follows |
| InkJson.ReadMembersWritten | InkPlatform/Ink/InkProcessor.cs:308-333 | members written in key order read back as the values they were written from |
| InkJson.FromToValues | InkPlatform/Ink/InkData.cs:21-75 | a sample is rebuilt from its member values exactly: every number, both flags and the tag |
| InkJson.ReadSampleWritten | InkPlatform/Ink/InkData.cs:21-75 | one sample written as a JSON object reads back as that sample |
| InkJson.ReadMoreItemsWritten | InkPlatform/Ink/InkProcessor.cs:308-333 | the objects of a non-empty list, up to the closing bracket, read back as the list |
| InkJson.ReadWriteList | InkPlatform/Ink/InkProcessor.cs:308-333 | reading the text of a list gives the list back |
| InkJson.WriteListInjective | InkPlatform/Ink/InkProcessor.cs:308-318 | distinct lists have distinct texts |
| InkJson.WrittenExamples | InkPlatform/Ink/InkProcessor.cs:308-318 | the empty list is written "[]", and a quote and a backslash inside a tag are escaped |
| InkJson.SerializeInkDataListToJson | InkPlatform/Ink/InkProcessor.cs:308-318 | a null list is written as the literal null, and no list is written that way |
| InkJson.DeserializeJsonToInkDataList | InkPlatform/Ink/InkProcessor.cs:320-333 | the null list is read exactly from the literal null |
| InkJson.DeserializeSerialized | InkPlatform/Ink/InkProcessor.cs:308-333 | deserializing the serialized text gives back the list, or null |
| JsonArrays.SplitJsonArray | InkPlatform/UserInterface/JSONSerializer.cs:96-141 | a null text throws, and so does a text that trims to nothing; a trimmed text not in brackets gives null; otherwise the items of the character loop |
| JsonArrays.Scan | InkPlatform/UserInterface/JSONSerializer.cs:103-133 | the loop collects what the scanner function collects over the text |
| JsonArrays.BracketedUntrimmed | InkPlatform/UserInterface/JSONSerializer.cs:100-101 | a text in brackets is left as it is by Trim and passes the bracket test |
| JsonArrays.ScanItemsNonEmpty | InkPlatform/UserInterface/JSONSerializer.cs:107-119 | the scanner never collects an empty item |
| JsonArrays.SplitNoEmptyItem | InkPlatform/UserInterface/JSONSerializer.cs:96-141 | no item SplitJsonArray returns is empty |
| JsonArrays.NonEmpty | InkPlatform/UserInterface/JSONSerializer.cs:107-119 | the non-empty pieces, no more of them than there were pieces |
| JsonArrays.StepAtOne | InkPlatform/UserInterface/JSONSerializer.cs:107-129 | at depth 1 a comma ends the pending item and any other flat character is collected |
| JsonArrays.StepClose | InkPlatform/UserInterface/JSONSerializer.cs:113-121 | at depth 1 the closing bracket ends the pending item and the scan |
| JsonArrays.ScanFlatTail | InkPlatform/UserInterface/JSONSerializer.cs:103-133 | at depth 1 a flat text followed by the closing bracket is split at its commas, empty pieces dropped |
| JsonArrays.FlatSplit | InkPlatform/UserInterface/JSONSerializer.cs:96-141 | an array without nested brackets or braces splits into its non-empty comma-separated pieces |
| JsonArrays.StepAtTwo | InkPlatform/UserInterface/JSONSerializer.cs:123-129 | inside an object every flat character, a comma included, is collected |
| JsonArrays.ScanInside | InkPlatform/UserInterface/JSONSerializer.cs:123-129 | inside an object a flat text is collected whole |
| JsonArrays.StepBraces | InkPlatform/UserInterface/JSONSerializer.cs:113-131 | an opening brace at depth 1 starts an item at depth 2, and the closing brace ends it, braces kept |
| JsonArrays.ScanObjects | InkPlatform/UserInterface/JSONSerializer.cs:103-133 | flat objects separated by commas become one item each, braces kept |
| JsonArrays.ObjectsSplit | InkPlatform/UserInterface/JSONSerializer.cs:96-141 | an array of flat objects splits into exactly those objects, braces kept |
| JsonElements.Channels | InkPlatform/UserInterface/JSONSerializer.cs:935-937 | a colour as its three channel numbers, each in 0..255 |
| JsonElements.Rgb | InkPlatform/UserInterface/JSONSerializer.cs:1076 | Color.FromArgb of the first three numbers of a well-formed array |
| JsonElements.RgbChannels | InkPlatform/UserInterface/JSONSerializer.cs:1074-1083 | a colour's numbers read back as that colour; a short array fails the indexing and an out-of-range number fails FromArgb |
| JsonElements.Palette.constructor | InkPlatform/UserInterface/JSONSerializer.cs:88-93 | the shared arrays start as {0,0,0} and {211,211,211} |
| JsonElements.WriteColor | InkPlatform/UserInterface/JSONSerializer.cs:935-937 | the array afterwards holds the colour's channels |
| JsonElements.Written | InkPlatform/UserInterface/JSONSerializer.cs:148-172 | writing a record keeps its name, element type and class; colour members take the contents of the shared arrays at that time |
| JsonElements.TruncateWhole | InkPlatform/UserInterface/JSONSerializer.cs:1055 | the (int) cast of a whole number is that number |
| JsonElements.SerializeText | InkPlatform/UserInterface/JSONSerializer.cs:1034-1059 | the text's record, with Align overwritten by a non-centre vertical alignment; the shared black array afterwards holds the text's brush colour |
| JsonElements.NewTextFrom | InkPlatform/UserInterface/JSONSerializer.cs:1070-1095 | a fresh text with the members given |
| JsonElements.DeserializeText | InkPlatform/UserInterface/JSONSerializer.cs:1065-1098 | null for a record without a name; otherwise the text with its bounds, brush (black for the default array), both alignments, font (40 for 0) and resizing, or the failure of a bad colour or font size |
| JsonElements.ColoursAsWritten | InkPlatform/UserInterface/JSONSerializer.cs:990-1001 | as written the fill stays light gray whatever the record says, and a non-default fill without a text colour throws a null reference |
| JsonElements.SerializeButton | InkPlatform/UserInterface/JSONSerializer.cs:918-955 | the button's record, without its action; the shared black array ends with the border colour and the gray one with the fill colour |
| JsonElements.WriteButtonColours | InkPlatform/UserInterface/JSONSerializer.cs:933-950 | the three colour writes into the shared arrays, the border colour overwriting the text colour |
| JsonElements.NewButtonFrom | InkPlatform/UserInterface/JSONSerializer.cs:961-1004 | a fresh button with the members given |
| JsonElements.DeserializeButton | InkPlatform/UserInterface/JSONSerializer.cs:961-1006 | null for a record without a name; otherwise the button with its bounds, next screen, action, colours as written, and font |
| JsonElements.NewLineFrom | InkPlatform/UserInterface/JSONSerializer.cs:787-793 | a fresh line with the members given |
| JsonElements.DeserializeLine | InkPlatform/UserInterface/JSONSerializer.cs:783-796 | null for a record without a name; otherwise the line from (X1, Y1) sized by the distance to (X2, Y2), with its colour |
| JsonElements.NewImageFrom | InkPlatform/UserInterface/JSONSerializer.cs:856-880 | a fresh image with the members given |
| JsonElements.DeserializeImage | InkPlatform/UserInterface/JSONSerializer.cs:850-884 | null for a record without a name or without a picture file; otherwise the image with its loaded picture, bounds, next screen and action |
| JsonElements.SerializeElement | InkPlatform/UserInterface/JSONSerializer.cs:274-306 | the record of the element's own class; the shared arrays change as that class's Serialize changes them |
| JsonElements.DeserializeElement | InkPlatform/UserInterface/JSONSerializer.cs:221-267 | the record read as the class its ElementType names; null for any other type |
| JsonElements.DeserializeListed | InkPlatform/UserInterface/JSONSerializer.cs:1125-1149 | a list entry is cast to the class its ElementType names and read as that class |
| JsonElements.FontDefaults | InkPlatform/UserInterface/JSONSerializer.cs:1002-1093 | a text reads font size 0 as 40 and refuses a non-positive one; a button keeps its default font for 0 and 40 and refuses a negative one |
| JsonElements.TextRoundTrip | InkPlatform/UserInterface/JSONSerializer.cs:1034-1098 | a named, vertically centred text with a whole positive font size is read back exactly as written, its brush from the shared black array |
| JsonElements.TextAlignmentAsWritten | InkPlatform/UserInterface/JSONSerializer.cs:1053-1054 | a non-centre vertical alignment takes the place of the horizontal one in Align, and VAlign always reads back as centre |
| JsonElements.TextAlignmentLost | InkPlatform/UserInterface/JSONSerializer.cs:1054 | a text aligned left and at the bottom is read back aligned right and vertically centred |
| JsonElements.TextIntendedRoundTrip | InkPlatform/UserInterface/JSONSerializer.cs:1053-1054 | with each alignment under its own member every named text with a whole positive font size is read back exactly |
| JsonElements.ButtonRoundTrip | InkPlatform/UserInterface/JSONSerializer.cs:918-1006 | a named button is read back with its name, text, bounds, next screen, font and resizing, but with a new button's colours and no action |
| JsonElements.ButtonColoursMixed | InkPlatform/UserInterface/JSONSerializer.cs:994-1001 | for a record with its own text, fill and border colours, the fill is ignored and the border takes the text colour as written; as intended each colour is its own member's |
| JsonElements.ColoursIntendedMeaning | InkPlatform/UserInterface/JSONSerializer.cs:990-1001 | as intended each colour comes from its own member, a well-formed record never fails, and default members give a new button's colours |
| JsonElements.LineRoundTrip | InkPlatform/UserInterface/JSONSerializer.cs:761-796 | a named line is read back at its location with a new line's black pen and each side turned into abs(abs(side - coordinate) - coordinate) |
| JsonElements.LineSizeLost | InkPlatform/UserInterface/JSONSerializer.cs:773-774 | a line 10 wide at x = 2 is read back 6 wide |
| JsonElements.LineIntendedRoundTrip | InkPlatform/UserInterface/JSONSerializer.cs:773-789 | with the far corner written as X + Width, Y + Height, a line of non-negative size is read back at its location with its size |
| JsonElements.ImageRoundTrip | InkPlatform/UserInterface/JSONSerializer.cs:820-884 | an image whose picture was saved is read back with its picture and bounds but without its next screen and action; an image whose save failed, or without a picture, is read back as nothing |
| JsonElements.UnnamedRead | InkPlatform/UserInterface/JSONSerializer.cs:221-267 | every Deserialize gives null for a record without a name, except that a list entry of the wrong class fails its cast |
| JsonElements.Dispatch | InkPlatform/UserInterface/JSONSerializer.cs:221-267 | ElementType decides the class a record is read as, null for any other text; a list entry is refused exactly when it was written as another class than its type names |
| JsonElements.RecordOfListed | InkPlatform/UserInterface/JSONSerializer.cs:451-477 | a serialised element names its own type and is written as that type's class, so reading it from a list never fails the cast |
| JsonElements.LastButtonWins | InkPlatform/UserInterface/JSONSerializer.cs:933-950 | the shared arrays hold the border and fill colours of the last button serialised, whatever was written before it |
| JsonLayouts.GridOrderGrows | InkPlatform/UserInterface/JSONSerializer.cs:401-444 | taking more cells in grid order never gives fewer elements |
| JsonLayouts.ShowsNames | InkPlatform/UserInterface/JSONSerializer.cs:669-697 | objects in the listed states carry exactly the listed names |
| JsonLayouts.RecordsOf | InkPlatform/UserInterface/JSONSerializer.cs:669-697 | one record per element |
| JsonLayouts.PaletteAfterAllAppend | InkPlatform/UserInterface/JSONSerializer.cs:88-93 | serialising two runs one after the other leaves the shared arrays as the second run leaves them, starting from what the first left |
| JsonLayouts.GridSlice | InkPlatform/UserInterface/JSONSerializer.cs:401-444 | the grid order holds each cell's elements at the cell's start, in the cell's order |
| JsonLayouts.GridOrderPrefix | InkPlatform/UserInterface/JSONSerializer.cs:401-444 | the elements of the first k cells are a prefix of those of the first m cells |
| JsonLayouts.CutRecords | InkPlatform/UserInterface/JSONSerializer.cs:401-444 | cutting the records of the grid-order run back into cells gives each cell the records of its own elements |
| JsonLayouts.SerializeAll | InkPlatform/UserInterface/JSONSerializer.cs:686-692 | the elements are serialised one after the other, in order, and the shared arrays change as each element's Serialize changes them |
| JsonLayouts.SerializePlain | InkPlatform/UserInterface/JSONSerializer.cs:669-697 | the layout's name, the type DEFAULT and the records of its elements in order |
| JsonLayouts.SerializeBox | InkPlatform/UserInterface/JSONSerializer.cs:401-444 | the name, the type BOX_LAYOUT and each cell's records, the elements serialised cell by cell in grid order; the ratios, flow, spacing and grid flag keep their initial values |
| JsonLayouts.BoxCellRecords | InkPlatform/UserInterface/JSONSerializer.cs:401-444 | each cell of the box record holds the records of that cell's elements in the cell's order |
| JsonLayouts.SerializeSignature | InkPlatform/UserInterface/JSONSerializer.cs:613-625 | the name, the type SIGNATURE_LAYOUT and the five texts; no elements |
| JsonLayouts.SerializeLayout | InkPlatform/UserInterface/JSONSerializer.cs:148-173 | the record of the layout's runtime class with its type name, written once it is complete, so every colour member holds what the shared arrays hold at the end |
| JsonLayoutReads.PlainReadFails | InkPlatform/UserInterface/JSONSerializer.cs:709-731 | once an entry has failed, reading a longer run fails with the same fault |
| JsonLayoutReads.ShowsSnoc | InkPlatform/UserInterface/JSONSerializer.cs:709-731 | one more element object in its listed state keeps the list of states in step |
| JsonLayoutReads.AddView | InkPlatform/UserInterface/JSONSerializer.cs:714-729 | an element read from an entry is added unless its name is taken, and the list of states follows |
| JsonLayoutReads.AddListed | InkPlatform/UserInterface/JSONSerializer.cs:709-731 | one pass of the reading loop does what the one-entry specification says: skips an unknown type, fails on a fault, keeps a null element in a list not yet created and fails on one otherwise, fails on any element after a kept null, or adds the element |
| JsonLayoutReads.DeserializePlain | InkPlatform/UserInterface/JSONSerializer.cs:704-735 | a fresh layout of that name with the elements the entries read as, in order and without a taken name, or holding only a null element when that was the first entry, or the fault that stops the reading |
| JsonLayoutReads.NullEntryKept | InkPlatform/UserInterface/JSONSerializer.cs:709-731 | a first entry that reads as null is kept without a fault, and any later typed entry that reads then throws a null reference |
| JsonLayoutReads.CellEntries | InkPlatform/UserInterface/JSONSerializer.cs:500-571 | one entry per element of the cell's list, and none for a null list |
| JsonLayoutReads.BoxRead | InkPlatform/UserInterface/JSONSerializer.cs:500-571 | every element added has its cell |
| JsonLayoutReads.BoxReadFails | InkPlatform/UserInterface/JSONSerializer.cs:500-571 | once an entry has failed, reading a longer run fails with the same fault |
| JsonLayoutReads.Repaired | InkPlatform/UserInterface/JSONSerializer.cs:573-581 | a ratio read as 0 becomes 1 and any other ratio is kept |
| JsonLayoutReads.SpacingRead | InkPlatform/UserInterface/JSONSerializer.cs:583 | the Spacing setter keeps 0..10 and clamps the rest into it |
| JsonLayoutReads.PlaceView | InkPlatform/UserInterface/JSONSerializer.cs:500-571 | an element read from a cell entry goes into that cell unless its name is taken |
| JsonLayoutReads.AddPlaced | InkPlatform/UserInterface/JSONSerializer.cs:500-571 | one pass of a cell loop does what the one-entry specification says |
| JsonLayoutReads.AddEntries | InkPlatform/UserInterface/JSONSerializer.cs:500-571 | the nine cell loops, in grid order, add what the entries read as, or stop at the first fault |
| JsonLayoutReads.ApplySettings | InkPlatform/UserInterface/JSONSerializer.cs:573-584 | the ratios with 0 taken as 1, the clamped spacing and the grid flag are applied |
| JsonLayoutReads.DeserializeBox | InkPlatform/UserInterface/JSONSerializer.cs:484-587 | a fresh box of that name whose cells hold the elements read from the nine cell lists in grid order, with the flow, ratios, spacing and grid flag read, or the fault that stops the reading |
| JsonLayoutReads.DeserializeSignature | InkPlatform/UserInterface/JSONSerializer.cs:632-641 | a fresh signature layout of that name and no elements, with its texts as read: the signer taken from Why |
| JsonLayoutReads.DeserializeLayout | InkPlatform/UserInterface/JSONSerializer.cs:180-214 | the Layout member picks the class read: exactly BOX_LAYOUT and SIGNATURE_LAYOUT select those, anything else a plain layout, which may hold a null element; the layout gets the Name member, "" for null |
| JsonRoundTrips.ListedReadsBack | InkPlatform/UserInterface/JSONSerializer.cs:1125-1149 | an element record that reads back is read back from a list, too |
| JsonRoundTrips.StepAdds | InkPlatform/UserInterface/JSONSerializer.cs:709-731 | an entry read as an element whose name is not yet taken adds that element, to a plain layout or to a box cell |
| JsonRoundTrips.PlainReadBack | InkPlatform/UserInterface/JSONSerializer.cs:669-735 | elements with distinct names that each read back are read back from the written list in order |
| JsonRoundTrips.PlainRoundTrip | InkPlatform/UserInterface/JSONSerializer.cs:669-735 | a plain layout whose elements have distinct names and each read back is read back as a plain layout with its name and its elements in order |
| JsonRoundTrips.GridFilter | InkPlatform/UserInterface/JSONSerializer.cs:500-571 | picking a cell's elements out of the grid order gives that cell's elements once the cell has been reached, and none before |
| JsonRoundTrips.EntriesInGridOrder | InkPlatform/UserInterface/JSONSerializer.cs:500-571 | reading the cell lists of a written box one cell after the other gives the grid-order run, each entry paired with its cell |
| JsonRoundTrips.BoxReadBack | InkPlatform/UserInterface/JSONSerializer.cs:500-571 | elements with distinct names that each read back are placed back in the cells they are paired with, in order |
| JsonRoundTrips.BoxEntriesWritten | InkPlatform/UserInterface/JSONSerializer.cs:401-444 | the entries of a written box are the written records of its grid order, each paired with its cell |
| JsonRoundTrips.PlacedCells | InkPlatform/UserInterface/JSONSerializer.cs:500-571 | each cell holds exactly the elements of the grid order placed in it |
| JsonRoundTrips.BoxRoundTrip | InkPlatform/UserInterface/JSONSerializer.cs:401-587 | a box whose elements have distinct names and each read back is read back as a box with its name, every cell holding the elements it held, in order |
| JsonRoundTrips.BoxSettingsLost | InkPlatform/UserInterface/JSONSerializer.cs:401-444 | whatever a box's settings, it is read back with ratios 1:1:1 both ways, flow RIGHT, no spacing and no grid |
| JsonRoundTrips.BoxSettingsIntendedRoundTrip | InkPlatform/UserInterface/JSONSerializer.cs:401-444 | with the settings written, non-zero ratios, the flow, an in-range spacing and the grid flag are read back as they were, the cells unchanged |
| JsonRoundTrips.SignatureWhoLost | InkPlatform/UserInterface/JSONSerializer.cs:613-641 | a signature layout is read back with its name, button texts and reason, but with the reason as the signer too; a distinct signer is lost |
| JsonRoundTrips.SignatureIntendedRoundTrip | InkPlatform/UserInterface/JSONSerializer.cs:613-641 | read as intended, a signature layout comes back with all five texts |

## Left out

- The JSON text written by DataContractJsonSerializer is abstract. A record read back from the text is the record written, with the members its class lacks, or the text omits, read as null, 0 or false. The one exception is the text of a list of `InkData` samples: it has a concrete writer and reader, proved inverse, that stand in for the library.
- UTF-8 (Encoding.UTF8) and Base64 (Convert.To/FromBase64String) have concrete definitions, proved inverse, rather than being taken on trust.
- Utf8.Decode refuses ill-formed bytes with a format error. Encoding.UTF8.GetString instead puts U+FFFD for each ill-formed sequence and never throws. The encoder never writes such bytes, so the round trips are unaffected.
- InkProcessor.Base64Decode therefore refuses Base64 text whose bytes are not well-formed UTF-8, where the code reads the text with U+FFFD in it.
- InkJson.SerializeInkDataListToJson escapes only the quote and the backslash in a tag. DataContractJsonSerializer also writes '/' as an escape and control characters as \uXXXX escapes, so the code's text for such a tag is longer.
- InkJson.DeserializeJsonToInkDataList refuses the '/' and \uXXXX escapes, which the library's reader accepts.
- The length of a text is its number of Unicode scalar values, where C# Length counts UTF-16 code units, so a character outside the Basic Multilingual Plane counts 1 instead of 2. This can shift the embedding capacity check of the image generators at its boundary.
- Text.ToUpper capitalises the ASCII letters a..z only. The code's string.ToUpper uses the current culture and maps every cased letter; under tr-TR "right" becomes "RİGHT". So ConvertAlignment and the Flow and Action readers can differ from the code under such a culture.
- `SerializablePenDevice.Serialize`/`Deserialize` (InkPlatform/Hardware/PenDevice.cs:437-476) are done by the library; only the field mapping of `PenDevice.Serialize` is modelled.
- Floating point is replaced by exact integer or rational arithmetic: C# truncating division for the casts, cross-multiplication for the aspect test, and half-steps for the auto-grow multiplier. A float rounding that differs from the exact value by one pixel is not captured.
- BoxLayouts.Position has no UNKNOWN value. POSITION.UNKNOWN (InkPlatform/UserInterface/BoxLayout.cs:29) has no entry in boxDict, so AddElement(element, UNKNOWN), AddElement(text, UNKNOWN), Render(UNKNOWN, …) and GetElementListForPosition(UNKNOWN) throw KeyNotFoundException in the code. No caller in the code passes it, and the model cannot express it.
- BoxLayouts.Share: a zero ratio total makes the code's share NaN or infinite, and C# leaves the (int) cast of such a float unspecified. The model gives it IndefiniteInt, the int.MinValue that the x86 and x64 conversion produces.
- SignpadControls.SignpadControl.SaveContext stores a snapshot of the samples in the record. The code shares the control's own `_penData` list with it (InkPlatform/Ink/ContextPenData.cs:36, InkPlatform/UserControls/SignpadControl.cs:366), and that list is replaced only when DisplayBitmap runs (InkPlatform/UserControls/SignpadControl.cs:234). So when Done does not move on to a new screen (DonePressed answers false, or the next screen is not found), samples recorded afterwards appear in the C# record's PenData but not in the model's.
- Elements.Element.ResizeToNewDimension: a zero original width or height makes the scale factor NaN or infinite, and the model gives the cast IndefiniteInt, as for BoxLayouts.Share.
- Ink.CanRescale requires positive source dimensions and a result that fits a uint. With a zero tablet dimension, InkData.Duplicate (InkPlatform/Ink/InkData.cs:105-106) divides floats and casts a NaN or infinite value to uint without throwing; the model does not give that cast a value.
- SignpadControls.SignpadControl.ProcessPenData requires SampleFits, which holds CanRescale for the tablet and screen dimensions, for the same reason.
- SignpadControls.SignpadControl.Done takes the sender as an element or null; a sender of another type is not representable.
- Pen widths, fonts and brushes are reduced to the values the modelled code compares: font sizes, and colours as RGB triples.
- C# `int` fields are unbounded integers: 32-bit overflow of coordinates and sizes is not modelled.
- GDI+ drawing is not modelled: `drawInk`, `Paint`, `resetGraphics`, the bitmap fill and pen in `InkProcessor`, and the drawing of the elements in `LayoutManager.CreateBitmap`. The model keeps which segments are drawn onto an image of which size. CreateBitmap first calls the layout's `Render(width, height)` (InkPlatform/UserInterface/LayoutManager.cs:24), which the model does not do either; the lines below say what that leaves out.
- SignpadControls.SignpadControl.DisplayLayout does not run the layout's Render with the screen size before ReassignClickEvents. The control holds the base Layout, so it has no derived Render to dispatch to; BoxLayouts.BoxLayout.Render and SignatureLayouts.SignatureLayout.Render state these effects on their own. The model therefore does not capture three effects of that call:
  - a BoxLayout's elements being placed in their cells before any hit test;
  - a SignatureLayout's OK, Clear and Cancel buttons, line and texts being created and added (InkPlatform/UserInterface/SignatureLayout.cs:128-137, 265-283), and the buttons then being bound to Done, Clear and Cancel;
  - the ArgumentException of a zero-size font (SignatureLayout.cs:197-199) propagating out of DisplayLayout.
- SignpadControls.SignpadControl.LoadNextLayout shows the next screen through DisplayLayout and so misses the same Render: a never-rendered SignatureLayout has no buttons to bind, and its Render fault is not returned.
- SignpadControls.SignpadControl.DisplayLayouts shows the initial layout through DisplayLayout and misses the same Render.
- SignpadControls.SignpadControl.Proceed loads the next screen through LoadNextLayout and misses the same Render.
- SignpadControls.SignpadControl.Done shows the next screen through Proceed and misses the same Render, including the ArgumentException the code lets escape from Done.
- LayoutManager.cs is not part of this model. Its text auto-shrink loops depend on TextRenderer.MeasureText, and ReadLayoutFile does file and URL I/O.
- `ElementText.CalculateBounds` is not modelled, because it measures text.
- Layouts.Layout.GetRequiredSize: a text element counts with its stored bounds, where the code measures it with CalculateBounds.
- File and picture I/O are parameters. This covers Image.FromFile in the image constructors (a picture is its width and height, or a map from file names to pictures) and saving the picture in `InterfaceElementImage.Serialize` (a save result).
- SteganographyHelper.embedText is foreign code. Whether it succeeds is a parameter of the image generators.
- The device side is not modelled:
  - the STU SDK calls;
  - the USB retries with Thread.Sleep and random waits;
  - the Wintab devices;
  - USB enumeration and the spawned listing process of the scanner, whose output is a parameter.
- The device's Connect, DisplayBitmap and ClearScreen calls are reduced to the result codes they return, which are parameters (`DeviceResponses`).
- Device callback threads are not modelled: samples are processed one at a time, in order.
- Click delegates become a handler tag stored on the element, and invoking a click becomes an entry in an event log.
- The DonePressed, ClearPressed and CancelPressed callbacks become boolean parameters saying whether the user lets the action go on.
- Logging is dropped everywhere.
- `SignpadControl.Reset`, `CaptureSignature`, `resizeControl` and the mouse and WinForms handlers are not modelled. They are UI plumbing around the device.
- SignpadWindow, SignpadWindow2, the designers, the test forms and LayoutEventArgs are not part of this model.
- SignatureLayouts.SignatureLayout.constructor: the localised resource strings that are the defaults of the button texts are passed in, because the resource file is not part of this model. The four C# constructors become one.
- BoxLayouts.BoxLayout.Render uses loops where the code has straight-line code:
  - removeGridLines' eight RemoveElement calls are a loop over the grid names;
  - createGridLines' eight AddElement calls are a loop over a table of grid-line ends;
  - the nine Render(position) calls are a loop over the cells in the same order.
- SignpadControls.SignpadControl.Done: the contract does not restate that the next screen's click handlers are rebound. LoadNextLayout states the rebinding on its own.
- PenDevices.PenDevice.ToString: the contract states only the enclosing braces. The order and presence of the members are stated by DescriptorShape.
- JsonRoundTrips.PlainRoundTrip and JsonRoundTrips.BoxRoundTrip take as a premise that every element reads back as itself (ReadsBack). The element-level round trips, with their exceptions, are proved in JsonElements.
- Element and layout texts are strings, never null. A null Text, OkText, ClearText, CancelText or Why member read from a record gives the empty string, where the code would store null.

## Findings

| source | as written | input that shows it | evidently intended | confidence | as-written member | corrected member |
|---|---|---|---|---|---|---|
| InkPlatform/UserInterface/SignatureLayout.cs:197-199 | in the bottom-bar branch, fonts of height/2 are made for the signer and reason texts even when such a text is empty and its size stays (0,0), so a font of size 0 is requested | a 640 by 480 layout with signer "Alice" and reason "" (or the reverse) fails; with both given it succeeds | fonts only for the texts that are shown, so Render succeeds | not executed | SignatureLayouts.LoneReasonFails | SignatureLayouts.ShownTextFontsSucceed |
| InkPlatform/Ink/ContextPenData.cs:72 | each later entry is joined as "," + dict + value, so the commas pile up in front and the entries run together | entries [("a","1"),("b","2")] give `,"a":"1""b":"2"` | dict + "," + value, giving `"a":"1","b":"2"` | not executed | ContextPen.DictionarySeparatorMisplaced | ContextPen.DictionaryTextSplits |
| InkPlatform/UserControls/SignpadControl.cs:270 | the guard joins "not null" and "non-empty" with OR, so it dereferences a null list and lets an empty list through | a null list throws a null reference; an empty list throws on its first entry | `&&`, so that a null or empty list gives NULL_PARAM | not executed | SignpadControls.DisplayLayoutsGuardFails | SignpadControls.DisplayLayoutsIntendedGuard |
| InkPlatform/UserInterface/JSONSerializer.cs:1054 | the vertical alignment is written into Align, over the horizontal one | a text aligned Near horizontally and Far vertically comes back Far horizontally and Center vertically | the vertical alignment in a member of its own | not executed | JsonElements.TextAlignmentLost | JsonElements.TextIntendedRoundTrip |
| InkPlatform/UserInterface/JSONSerializer.cs:996-1000 | a non-default FillColor sets the text brush again from TextColor, so the fill brush keeps its light-gray default; a non-default BorderColor makes the border pen from TextColor | a button record with text colour (10,20,30), fill (1,2,3) and border (4,5,6) gives a light-gray fill and a (10,20,30) border | the fill brush from FillColor and the border pen from BorderColor | not executed | JsonElements.ButtonColoursMixed | JsonElements.ColoursIntendedMeaning |
| InkPlatform/UserInterface/JSONSerializer.cs:638 | the signer is set from the Why member | any signature layout whose signer and reason differ, e.g. signer "Alice" and reason "Approval", comes back with signer "Approval" | the signer from the Who member | not executed | JsonRoundTrips.SignatureWhoLost | JsonRoundTrips.SignatureIntendedRoundTrip |
| InkPlatform/UserInterface/JSONSerializer.cs:773-774 | the line end is written as abs(Width - X), while the reader takes the width as abs(X2 - X) | a line at x = 2 with width 10 comes back with width 6 | X2 = X + Width, so that the reader's abs(X2 - X) gives the width back | not executed | JsonElements.LineSizeLost | JsonElements.LineIntendedRoundTrip |
| InkPlatform/UserInterface/JSONSerializer.cs:401-444 | the box serializer never copies the ratios, flow, spacing or grid flag, though the reader reads them | any box layout, e.g. ratios 1:5:1, flow DOWN and spacing 2, comes back with the default ratios, flow RIGHT, spacing 0 and no grid | the settings copied into the record | not executed | JsonRoundTrips.BoxSettingsLost | JsonRoundTrips.BoxSettingsIntendedRoundTrip |
