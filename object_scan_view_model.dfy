/**
 * The object scanner's view model: the scan state moved along by the
 * image-analysis callbacks, and the rule matching the labeller's top label
 * against the backend's object catalogue. The labeller, the camera image
 * and the REST calls are inputs; each callback is one sequential step.
 */
module ObjectScan {
  import opened Wrappers
  import opened Models

  /** ASCII lower-casing; other characters are left as they are. */
  function Lower(c: char): char
  {
    if 'A' <= c <= 'Z' then (c as int + 32) as char else c
  }

  function LowerString(s: string): (r: string)
    ensures |r| == |s|
    ensures forall i :: 0 <= i < |s| ==> r[i] == Lower(s[i])
    decreases |s|
  {
    if s == [] then [] else [Lower(s[0])] + LowerString(s[1..])
  }

  /** `needle` sits in `hay` starting at position `i`. */
  ghost predicate OccursAt(hay: string, needle: string, i: int)
  {
    0 <= i && i + |needle| <= |hay| && hay[i..i + |needle|] == needle
  }

  /** `hay.contains(needle)`, searched from the left. */
  predicate Contains(hay: string, needle: string)
    decreases |hay|
  {
    (|needle| <= |hay| && hay[..|needle|] == needle) || (hay != [] && Contains(hay[1..], needle))
  }

  /** An occurrence at `i` is found by the left-to-right search. */
  lemma {:induction false} OccursThenContains(hay: string, needle: string, i: int)
    requires OccursAt(hay, needle, i)
    ensures Contains(hay, needle)
    decreases i
  {
    if i > 0 {
      assert hay[1..][i - 1..i - 1 + |needle|] == hay[i..i + |needle|];
      OccursThenContains(hay[1..], needle, i - 1);
    } else {
      assert hay[..|needle|] == hay[i..i + |needle|];
    }
  }

  /** What the search finds is an occurrence. */
  lemma {:induction false} ContainsThenOccurs(hay: string, needle: string)
    requires Contains(hay, needle)
    ensures exists i :: OccursAt(hay, needle, i)
    decreases |hay|
  {
    if |needle| <= |hay| && hay[..|needle|] == needle {
      assert OccursAt(hay, needle, 0);
    } else {
      ContainsThenOccurs(hay[1..], needle);
      var i :| OccursAt(hay[1..], needle, i);
      assert hay[i + 1..i + 1 + |needle|] == hay[1..][i..i + |needle|];
      assert OccursAt(hay, needle, i + 1);
    }
  }

  lemma ContainsIffOccurs(hay: string, needle: string)
    ensures Contains(hay, needle) <==> exists i :: OccursAt(hay, needle, i)
  {
    if Contains(hay, needle) {
      ContainsThenOccurs(hay, needle);
    }
    forall i | OccursAt(hay, needle, i)
      ensures Contains(hay, needle)
    {
      OccursThenContains(hay, needle, i);
    }
  }

  predicate EqualsIgnoreCase(a: string, b: string)
  {
    LowerString(a) == LowerString(b)
  }

  predicate ContainsIgnoreCase(hay: string, needle: string)
  {
    Contains(LowerString(hay), LowerString(needle))
  }

  /** The test of `objects.find`: the name equals the label, or one contains the other, ignoring case. */
  predicate Matches(objectName: string, o: RecognizedObject)
  {
    || EqualsIgnoreCase(o.name, objectName)
    || ContainsIgnoreCase(objectName, o.name)
    || ContainsIgnoreCase(o.name, objectName)
  }

  /** The equality test adds nothing: a match is containment, one way or the other, ignoring case. */
  lemma MatchIsMutualContainment(objectName: string, o: RecognizedObject)
    ensures Matches(objectName, o) <==>
      (exists i :: OccursAt(LowerString(objectName), LowerString(o.name), i))
      || (exists i :: OccursAt(LowerString(o.name), LowerString(objectName), i))
  {
    ContainsIffOccurs(LowerString(objectName), LowerString(o.name));
    ContainsIffOccurs(LowerString(o.name), LowerString(objectName));
    if EqualsIgnoreCase(o.name, objectName) {
      var n := LowerString(objectName);
      assert n[..|n|] == n;
      assert Contains(LowerString(objectName), LowerString(o.name));
    }
  }

  /** An object with an empty name matches whatever label was recognised. */
  lemma EmptyNameMatchesEveryLabel(objectName: string, o: RecognizedObject)
    requires o.name == ""
    ensures Matches(objectName, o)
  {
    ContainsIffOccurs(LowerString(objectName), LowerString(o.name));
    assert OccursAt(LowerString(objectName), LowerString(o.name), 0);
  }

  /** The position of the first matching object, or `|objects|` when none matches. */
  function FirstMatch(objects: seq<RecognizedObject>, objectName: string): (k: nat)
    ensures k <= |objects|
    ensures forall j :: 0 <= j < k ==> !Matches(objectName, objects[j])
    ensures k < |objects| ==> Matches(objectName, objects[k])
    decreases |objects|
  {
    if objects == [] then 0
    else if Matches(objectName, objects[0]) then 0
    else 1 + FirstMatch(objects[1..], objectName)
  }

  /** `objects.find { ... }`: the first object in list order that matches, or null. */
  function FindMatch(objects: seq<RecognizedObject>, objectName: string): (r: Option<RecognizedObject>)
    ensures r.None? <==> forall j :: 0 <= j < |objects| ==> !Matches(objectName, objects[j])
    ensures r.Some? ==>
      exists k :: 0 <= k < |objects| && objects[k] == r.value && Matches(objectName, r.value)
        && forall j :: 0 <= j < k ==> !Matches(objectName, objects[j])
  {
    var k := FirstMatch(objects, objectName);
    if k < |objects| then Some(objects[k]) else None
  }

  /** An object whose name equals the label up to case is always found (it or an earlier match). */
  lemma {:induction false} ExactNameIsFound(objects: seq<RecognizedObject>, objectName: string, i: int)
    requires 0 <= i < |objects| && EqualsIgnoreCase(objects[i].name, objectName)
    ensures FindMatch(objects, objectName).Some?
    ensures FirstMatch(objects, objectName) <= i
  {
    assert Matches(objectName, objects[i]);
  }

  /** One label of the labeller's answer; the confidence is only copied, never computed with. */
  datatype ImageLabel = ImageLabel(text: string, confidence: real)

  /** What `analyzeImage` finds in the camera frame. */
  datatype FrameImage = NoMediaImage | ConversionFails(message: string) | MediaImageReady

  /** The body of one `recordScan` request. */
  datatype ScanRecord = ScanRecord(objectId: int, confidenceScore: real)

  const ImageUnavailable: string := "Immagine non disponibile"
  const NothingRecognised: string := "Nessun oggetto riconosciuto"

  /**
   * `ObjectScanState` plus the scans sent to the backend. An exception
   * message is passed in as Kotlin renders it (`"null"` when it has none).
   */
  class ObjectScanViewModel {
    var isScanning: bool
    var recognizedLabel: Option<string>
    var confidenceScore: Option<real>
    var objectDetails: Option<RecognizedObject>
    var error: Option<string>
    var recordedScans: seq<ScanRecord>

    /** The default `ObjectScanState`. */
    predicate IsInitialState()
      reads this
    {
      !isScanning && recognizedLabel == None && confidenceScore == None && objectDetails == None && error == None
    }

    constructor ()
      ensures IsInitialState() && recordedScans == []
    {
      isScanning := false;
      recognizedLabel := None;
      confidenceScore := None;
      objectDetails := None;
      error := None;
      recordedScans := [];
    }

    /**
     * `analyzeImage`: scanning starts with the error cleared; a frame
     * without an image, or one that cannot be converted, stops it with an
     * error; otherwise the labeller is left running.
     */
    method AnalyzeImage(frame: FrameImage)
      modifies this
      ensures frame == NoMediaImage ==> !isScanning && error == Some(ImageUnavailable)
      ensures frame.ConversionFails? ==> !isScanning && error == Some("Errore nell'analisi: " + frame.message)
      ensures frame == MediaImageReady ==> isScanning && error == None
      ensures recognizedLabel == old(recognizedLabel) && confidenceScore == old(confidenceScore)
      ensures objectDetails == old(objectDetails) && recordedScans == old(recordedScans)
    {
      isScanning, error := true, None;
      match frame {
        case NoMediaImage =>
          error, isScanning := Some(ImageUnavailable), false;
        case ConversionFails(message) =>
          HandleAnalysisError(message);
        case MediaImageReady =>
      }
    }

    /** `handleAnalysisError`, also the labeller's failure listener. */
    method HandleAnalysisError(message: string)
      modifies this
      ensures !isScanning && error == Some("Errore nell'analisi: " + message)
      ensures recognizedLabel == old(recognizedLabel) && confidenceScore == old(confidenceScore)
      ensures objectDetails == old(objectDetails) && recordedScans == old(recordedScans)
    {
      error, isScanning := Some("Errore nell'analisi: " + message), false;
    }

    /**
     * The labeller's success listener: the top label and its confidence are
     * kept and its text is returned for the catalogue lookup; an empty
     * answer is an error. Scanning stops either way.
     */
    method OnLabels(labels: seq<ImageLabel>) returns (lookup: Option<string>)
      modifies this
      ensures !isScanning
      ensures |labels| > 0 ==>
        && lookup == Some(labels[0].text)
        && recognizedLabel == Some(labels[0].text) && confidenceScore == Some(labels[0].confidence)
        && error == old(error)
      ensures |labels| == 0 ==>
        && lookup == None && error == Some(NothingRecognised)
        && recognizedLabel == old(recognizedLabel) && confidenceScore == old(confidenceScore)
      ensures objectDetails == old(objectDetails) && recordedScans == old(recordedScans)
    {
      if |labels| > 0 {
        var topLabel := labels[0];
        recognizedLabel, confidenceScore, isScanning := Some(topLabel.text), Some(topLabel.confidence), false;
        lookup := Some(topLabel.text);
      } else {
        error, isScanning := Some(NothingRecognised), false;
        lookup := None;
      }
    }

    /**
     * `fetchObjectDetails`: on a successful catalogue response the first
     * matching object (or null) becomes the details, and a match, and only
     * a match, is recorded with the stored confidence (0 when there is
     * none). Only an exception thrown by the recording call changes the
     * state further; failed catalogue responses set an error and nothing else.
     */
    method FetchObjectDetails(objectName: string, objects: Response<seq<RecognizedObject>>, recording: Response<()>)
      modifies this
      ensures isScanning == old(isScanning) && recognizedLabel == old(recognizedLabel)
      ensures confidenceScore == old(confidenceScore)
      ensures objects.Success? ==>
        var found := FindMatch(objects.body.GetOr([]), objectName);
        && objectDetails == found
        && recordedScans == old(recordedScans)
             + (if found.Some? then [ScanRecord(found.value.id, old(confidenceScore).GetOr(0.0))] else [])
        && error == (if found.Some? && recording.NetworkError? then Some("Errore di rete: " + recording.message)
                     else if found.Some? && recording.UnexpectedError? then Some("Errore: " + recording.message)
                     else old(error))
      ensures !objects.Success? ==> objectDetails == old(objectDetails) && recordedScans == old(recordedScans)
      ensures objects.HttpError? ==> error == Some("Errore nel recupero dei dettagli: " + objects.message)
      ensures objects.NetworkError? ==> error == Some("Errore di rete: " + objects.message)
      ensures objects.UnexpectedError? ==> error == Some("Errore: " + objects.message)
    {
      match objects {
        case Success(body) =>
          var matchedObject := FindMatch(body.GetOr([]), objectName);
          objectDetails := matchedObject;
          if matchedObject.Some? {
            recordedScans := recordedScans + [ScanRecord(matchedObject.value.id, confidenceScore.GetOr(0.0))];
            match recording {
              case NetworkError(message) => error := Some("Errore di rete: " + message);
              case UnexpectedError(message) => error := Some("Errore: " + message);
              case Success(_) =>
              case HttpError(_) =>
            }
          }
        case HttpError(message) => error := Some("Errore nel recupero dei dettagli: " + message);
        case NetworkError(message) => error := Some("Errore di rete: " + message);
        case UnexpectedError(message) => error := Some("Errore: " + message);
      }
    }

    /** `resetScanState`: back to the default state; requests already sent stay sent. */
    method ResetScanState()
      modifies this
      ensures IsInitialState() && recordedScans == old(recordedScans)
    {
      isScanning, recognizedLabel, confidenceScore, objectDetails, error := false, None, None, None, None;
    }
  }

  /** The catalogue order decides: "bottle" is found as the first of two matching objects. */
  lemma FirstMatchInListOrder()
    ensures FindMatch([RecognizedObject(1, "Bottle", true, "plastica"), RecognizedObject(2, "bottle cap", true, "plastica")], "BOTTLE")
      == Some(RecognizedObject(1, "Bottle", true, "plastica"))
  {
    var objects := [RecognizedObject(1, "Bottle", true, "plastica"), RecognizedObject(2, "bottle cap", true, "plastica")];
    assert LowerString("Bottle") == "bottle";
    assert LowerString("BOTTLE") == "bottle";
    ExactNameIsFound(objects, "BOTTLE", 0);
  }

  /** A full scan: frame, labels, catalogue lookup; one scan is recorded with the label's confidence. */
  method ScanBottle() returns (details: Option<RecognizedObject>, topLabel: Option<string>, scans: seq<ScanRecord>, scanning: bool)
    ensures details == Some(RecognizedObject(1, "Bottle", true, "plastica"))
    ensures topLabel == Some("BOTTLE") && scans == [ScanRecord(1, 0.9)] && !scanning
  {
    var vm := new ObjectScanViewModel();
    vm.AnalyzeImage(MediaImageReady);
    var lookup := vm.OnLabels([ImageLabel("BOTTLE", 0.9)]);
    FirstMatchInListOrder();
    var catalogue := [RecognizedObject(1, "Bottle", true, "plastica"), RecognizedObject(2, "bottle cap", true, "plastica")];
    vm.FetchObjectDetails(lookup.value, Success(Some(catalogue)), Success(Some(())));
    details, topLabel, scans, scanning := vm.objectDetails, vm.recognizedLabel, vm.recordedScans, vm.isScanning;
  }
}
