// ContextPenData: the pen data of one capture together with the device
// that produced it, the layout it was captured on and a dictionary of
// annotations, and the JSON-like envelope its ToString writes.
module ContextPen {
  import opened Wrappers
  import opened Text
  import opened Ink
  import opened InkJson
  import opened PenDevices
  import opened Layouts

  /** Whether the dictionary has an entry for `key`. */
  predicate HasKey(entries: seq<(string, string)>, key: string)
  {
    exists i :: 0 <= i < |entries| && entries[i].0 == key
  }

  /** A dictionary holds each key once. */
  predicate KeysUnique(entries: seq<(string, string)>)
  {
    forall i, j :: 0 <= i < j < |entries| ==> entries[i].0 != entries[j].0
  }

  /** The value stored for `key`, if any. */
  function Lookup(entries: seq<(string, string)>, key: string): (r: Option<string>)
    ensures r.Some? <==> HasKey(entries, key)
    ensures r.Some? ==> exists i :: 0 <= i < |entries| && entries[i] == (key, r.value)
  {
    if entries == [] then None
    else if entries[0].0 == key then Some(entries[0].1)
    else
      var r := Lookup(entries[1..], key);
      assert r.Some? ==> exists i :: 0 <= i < |entries[1..]| && entries[1..][i] == (key, r.value);
      r
  }

  /** In a dictionary with unique keys the stored value is the one of the
      only entry with that key. */
  lemma LookupUnique(entries: seq<(string, string)>, i: nat)
    requires KeysUnique(entries) && i < |entries|
    ensures Lookup(entries, entries[i].0) == Some(entries[i].1)
  {
    var r := Lookup(entries, entries[i].0);
    var j :| 0 <= j < |entries| && entries[j] == (entries[i].0, r.value);
    assert j == i;
  }

  /** Dictionary.Remove: whether the key was present, and the entries
      without it. */
  function DictionaryRemove(entries: seq<(string, string)>, key: string): (r: (bool, seq<(string, string)>))
    ensures r.0 <==> HasKey(entries, key)
    ensures !r.0 ==> r.1 == entries
  {
    if entries == [] then (false, [])
    else if entries[0].0 == key then (true, entries[1..])
    else
      var r := DictionaryRemove(entries[1..], key);
      assert r.0 ==> HasKey(entries, key) by {
        if r.0 {
          var i :| 0 <= i < |entries[1..]| && entries[1..][i].0 == key;
          assert entries[i + 1].0 == key;
        }
      }
      assert HasKey(entries, key) ==> r.0 by {
        if HasKey(entries, key) {
          var i :| 0 <= i < |entries| && entries[i].0 == key;
          assert i > 0 && entries[1..][i - 1].0 == key;
        }
      }
      (r.0, [entries[0]] + r.1)
  }

  /** One annotation as ToString writes it: "key":"value", both raw. */
  function EntryText(e: (string, string)): (r: string)
    ensures |r| >= 5 && r[0] == '"' && r[|r| - 1] == '"'
  {
    "\"" + e.0 + "\":\"" + e.1 + "\""
  }

  /** The texts of the annotations, in dictionary order. */
  function EntryTexts(entries: seq<(string, string)>): (r: seq<string>)
    ensures |r| == |entries| && forall i :: 0 <= i < |entries| ==> r[i] == EntryText(entries[i])
  {
    if entries == [] then [] else EntryTexts(entries[..|entries| - 1]) + [EntryText(entries[|entries| - 1])]
  }

  /** One step of the dictionary loop as written: the first entry is taken
      as it is; every later one is appended after putting a comma in front
      of everything so far. */
  function DictionaryStep(dict: string, value: string): string
  {
    if |dict| > 0 then "," + dict + value else value
  }

  /** The dictionary text the loop of ToString builds. */
  function DictionaryAsWritten(entries: seq<(string, string)>): (r: string)
    ensures entries != [] ==> |r| > 0
  {
    if entries == [] then ""
    else DictionaryStep(DictionaryAsWritten(entries[..|entries| - 1]), EntryText(entries[|entries| - 1]))
  }

  /** The dictionary text a JSON object needs: the entries separated by
      commas. */
  function DictionaryText(entries: seq<(string, string)>): (r: string)
    ensures entries == [] <==> r == []
  {
    if entries == [] then ""
    else if |entries| == 1 then EntryText(entries[0])
    else DictionaryText(entries[..|entries| - 1]) + "," + EntryText(entries[|entries| - 1])
  }

  /** n commas. */
  function Commas(n: nat): (r: string)
    ensures |r| == n && forall i :: 0 <= i < n ==> r[i] == ','
  {
    if n == 0 then "" else "," + Commas(n - 1)
  }

  /** The texts one after the other. */
  function Concat(ts: seq<string>): string
  {
    if ts == [] then "" else Concat(ts[..|ts| - 1]) + ts[|ts| - 1]
  }

  /** As written, the loop puts all the commas in front and none between
      the entries: n entries give n - 1 commas followed by the entries run
      together. */
  lemma {:induction false} DictionaryAsWrittenShape(entries: seq<(string, string)>)
    requires entries != []
    ensures DictionaryAsWritten(entries) == Commas(|entries| - 1) + Concat(EntryTexts(entries))
  {
    var n := |entries|;
    var init := entries[..n - 1];
    var last := EntryText(entries[n - 1]);
    ConcatOfEntries(entries);
    if n > 1 {
      DictionaryAsWrittenShape(init);
      assert DictionaryAsWritten(entries) == "," + DictionaryAsWritten(init) + last;
      Regroup(",", Commas(n - 2), Concat(EntryTexts(init)), last);
    }
  }

  lemma ConcatOfEntries(entries: seq<(string, string)>)
    requires entries != []
    ensures Concat(EntryTexts(entries)) == Concat(EntryTexts(entries[..|entries| - 1])) + EntryText(entries[|entries| - 1])
  {
    var ts := EntryTexts(entries);
    assert ts[..|ts| - 1] == EntryTexts(entries[..|entries| - 1]);
  }

  lemma Regroup(a: string, b: string, c: string, d: string)
    ensures a + (b + c) + d == (a + b) + (c + d)
  {
  }

  /** With at most one entry the two texts agree. */
  lemma DictionaryTextsAgree(entries: seq<(string, string)>)
    requires |entries| <= 1
    ensures DictionaryText(entries) == DictionaryAsWritten(entries)
  {
    if |entries| == 1 {
      assert entries[..0] == [];
    }
  }

  /** Two entries as written: a leading comma and no comma between them. */
  lemma DictionarySeparatorMisplaced()
    ensures DictionaryAsWritten([("a", "1"), ("b", "2")]) == ",\"a\":\"1\"\"b\":\"2\""
    ensures DictionaryText([("a", "1"), ("b", "2")]) == "\"a\":\"1\",\"b\":\"2\""
  {
    var es := [("a", "1"), ("b", "2")];
    assert es[..1] == [("a", "1")];
    assert es[..1][..0] == [];
  }

  /** The corrected text splits at its commas into exactly the entries,
      when no key or value holds a comma. */
  lemma {:induction false} DictionaryTextSplits(entries: seq<(string, string)>)
    requires entries != []
    requires forall i, k :: 0 <= i < |entries| && 0 <= k < |EntryText(entries[i])| ==> EntryText(entries[i])[k] != ','
    ensures Split(DictionaryText(entries), {','}) == EntryTexts(entries)
  {
    var n := |entries|;
    var last := EntryText(entries[n - 1]);
    SplitNone(last, {','});
    if n == 1 {
      assert EntryTexts(entries) == [last];
    } else {
      var init := entries[..n - 1];
      assert forall i :: 0 <= i < |init| ==> init[i] == entries[i];
      DictionaryTextSplits(init);
      SplitAround(DictionaryText(init), ',', last, {','});
    }
  }

  /** ContextPenData. Every field but the dictionary is set once by a
      constructor; a null reference is None. */
  class ContextPenData {
    const penData: Option<seq<InkData>>
    const penDevice: Option<SerializablePenDevice>
    const layout: Layout?
    const errorCode: int
    const errorMessage: string
    /** _dictionary, in insertion order (nothing is ever removed from it). */
    var dictionary: seq<(string, string)>

    ghost predicate Valid()
      reads this
    {
      KeysUnique(dictionary)
    }

    /** ContextPenData(errorCode, errorMessage). */
    constructor Error(errorCode: int, errorMessage: string)
      ensures Valid()
      ensures this.errorCode == errorCode && this.errorMessage == errorMessage
      ensures penData.None? && penDevice.None? && layout == null && dictionary == []
    {
      this.errorCode := errorCode;
      this.errorMessage := errorMessage;
      penData := None;
      penDevice := None;
      layout := null;
      dictionary := [];
    }

    /** ContextPenData(penDevice, penData, layout): the device is stored as
        its serializable record, which dereferences it. */
    constructor (penDevice: PenDevice, penData: Option<seq<InkData>>, layout: Layout?)
      ensures Valid()
      ensures errorCode == 0 && errorMessage == ""
      ensures this.penData == penData && this.penDevice == Some(penDevice.Serialize())
      ensures this.layout == layout && dictionary == []
    {
      this.penData := penData;
      this.penDevice := Some(penDevice.Serialize());
      this.layout := layout;
      errorCode := 0;
      errorMessage := "";
      dictionary := [];
    }

    /** AddData: refuses a key already present, otherwise stores the pair. */
    method AddData(key: string, value: string) returns (ok: bool)
      requires Valid()
      modifies this`dictionary
      ensures Valid()
      ensures ok <==> !HasKey(old(dictionary), key)
      ensures ok ==> dictionary == old(dictionary) + [(key, value)]
      ensures !ok ==> dictionary == old(dictionary)
      ensures GetData(key) == (if ok then Some(value) else Lookup(old(dictionary), key))
    {
      if HasKey(dictionary, key) {
        return false;
      }
      dictionary := dictionary + [(key, value)];
      LookupUnique(dictionary, |dictionary| - 1);
      ok := true;
    }

    /** RemoveData: a present key is refused, and an absent one is passed to
        Dictionary.Remove, which finds nothing. So nothing is ever removed. */
    method RemoveData(key: string) returns (r: bool)
      modifies this`dictionary
      ensures !r && dictionary == old(dictionary)
    {
      if HasKey(dictionary, key) {
        return false;
      }
      var removal := DictionaryRemove(dictionary, key);
      dictionary := removal.1;
      r := removal.0;
    }

    /** GetData: the stored value, or null. */
    function GetData(key: string): (r: Option<string>)
      reads this
      ensures r.Some? <==> HasKey(dictionary, key)
    {
      if HasKey(dictionary, key) then Some(Lookup(dictionary, key).value) else None
    }

    /** The loop of ToString over the dictionary. */
    method DictionaryString() returns (dict: string)
      ensures dict == DictionaryAsWritten(dictionary)
    {
      dict := "";
      var i := 0;
      while i < |dictionary|
        invariant 0 <= i <= |dictionary|
        invariant dict == DictionaryAsWritten(dictionary[..i])
      {
        var value := "\"" + dictionary[i].0 + "\":\"" + dictionary[i].1 + "\"";
        if |dict| > 0 {
          dict := "," + dict + value;
        } else {
          dict := value;
        }
        assert dictionary[..i + 1][..i] == dictionary[..i];
        i := i + 1;
      }
      assert dictionary[..i] == dictionary;
    }

    /** The text ToString gives. An error context is "<code>:<message>".
        Otherwise the envelope holds the dictionary, the device, the pen data
        and the layout; a part whose conversion throws (a null device or
        layout) contributes "". `deviceJson` is the text the JSON library
        writes for the device record and `layoutJson` the text
        SerializeLayout gives for the layout. */
    function Description(deviceJson: string, layoutJson: string): string
      reads this
    {
      if errorCode != 0 then IntToString(errorCode) + ":" + errorMessage
      else Envelope(DictionaryPart(DictionaryAsWritten(dictionary)),
                    if penDevice.None? then "" else "\"PenDevice\":" + deviceJson,
                    "\"PenData\":" + SerializeInkDataListToJson(penData),
                    if layout == null then "" else "\"Layout\":" + layoutJson)
    }

    /** ToString, built part by part. */
    method ToString(deviceJson: string, layoutJson: string) returns (r: string)
      ensures r == Description(deviceJson, layoutJson)
    {
      if errorCode != 0 {
        return IntToString(errorCode) + ":" + errorMessage;
      }
      var dict := DictionaryString();
      dict := "\"dictionary\":{" + dict + "}";
      var deviceString := "";
      if penDevice.Some? {
        deviceString := "\"PenDevice\":" + deviceJson;
      }
      var penDataString := "\"PenData\":" + SerializeInkDataListToJson(penData);
      var layoutString := "";
      if layout != null {
        layoutString := "\"Layout\":" + layoutJson;
      }
      r := "{" + dict + "," + deviceString + "," + penDataString + "," + layoutString + "}";
    }
  }

  /** The dictionary member of the envelope. */
  function DictionaryPart(dict: string): string
  {
    "\"dictionary\":{" + dict + "}"
  }

  /** The envelope of ToString: its four parts between braces, separated
      by commas. */
  function Envelope(dict: string, device: string, penData: string, layout: string): string
  {
    "{" + dict + "," + device + "," + penData + "," + layout + "}"
  }

  /** An empty dictionary is written "dictionary":{} and a single entry
      alone between the braces. */
  lemma DictionaryPartExamples(entries: seq<(string, string)>)
    requires |entries| <= 1
    ensures entries == [] ==> DictionaryPart(DictionaryAsWritten(entries)) == "\"dictionary\":{}"
    ensures |entries| == 1 ==> DictionaryPart(DictionaryAsWritten(entries)) == "\"dictionary\":{" + EntryText(entries[0]) + "}"
  {
    if |entries| == 1 {
      assert entries[..0] == [];
    }
  }
}
