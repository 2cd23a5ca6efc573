/** The image-detection mapping of request/image.ts: the vision endpoint's
    boxes become findings with a display name, a severity, a description
    and a position in percent of the image. The endpoint call and the image
    size lookup are not modelled; their results are the inputs here. */
module ImageDetection {
  import opened Common
  import opened Strings

  /** One detected region: `[x, y, width, height]` in pixels. */
  datatype Box = Box(x: real, y: real, width: real, height: real)

  datatype DetectionBox = DetectionBox(className: string, score: real, box: Box)

  /** The endpoint's answer. `prediction` may be missing (None), and each
      of its entries may be null (None). */
  datatype ImageDetectionResponse = ImageDetectionResponse(
    prediction: Option<seq<Option<seq<DetectionBox>>>>,
    success: bool)

  /** A coordinate in percent. Dividing by a zero image side gives Infinity
      or NaN in IEEE arithmetic, which is kept apart from finite values. */
  datatype Coordinate = Finite(value: real) | NotFinite

  datatype Position = Position(x: Coordinate, y: Coordinate, width: Coordinate, height: Coordinate)

  /** What `generateContent` says, before the percentage is formatted. */
  datatype Description = FaceInfo(percentage: real) | SensitiveContent(percentage: real) | RelatedContent(percentage: real)
  {
    /** The text in front of the formatted confidence. */
    function Lead(): string {
      match this
      case FaceInfo(_) => "检测到人脸信息"
      case SensitiveContent(_) => "检测到敏感内容"
      case RelatedContent(_) => "检测到相关内容"
    }
  }

  datatype MappedDetectionResult = MappedDetectionResult(
    id: string,
    kind: string,
    content: Description,
    severity: Severity,
    position: Position,
    originalClass: string,
    score: real)

  /** The Chinese display names of the 16 classes the endpoint reports. */
  const ClassNameMap: map<string, string> := map[
    "FACE_FEMALE" := "女性人脸",
    "FACE_MALE" := "男性人脸",
    "BELLY_EXPOSED" := "裸露腹部",
    "FEMALE_BREAST_EXPOSED" := "裸露胸部",
    "FEMALE_GENITALIA_EXPOSED" := "裸露生殖器",
    "MALE_GENITALIA_EXPOSED" := "裸露生殖器",
    "BUTTOCKS_EXPOSED" := "裸露臀部",
    "ANUS_EXPOSED" := "裸露肛门",
    "FEET_EXPOSED" := "裸露脚部",
    "ARMPITS_EXPOSED" := "裸露腋下",
    "BELLY_COVERED" := "遮盖腹部",
    "FEMALE_BREAST_COVERED" := "遮盖胸部",
    "BUTTOCKS_COVERED" := "遮盖臀部",
    "FEET_COVERED" := "遮盖脚部",
    "ARMPITS_COVERED" := "遮盖腋下",
    "FEMALE_GENITALIA_COVERED" := "遮盖女性生殖器"]

  /** `getSeverity`: faces are high; an exposed part is high unless it is a
      foot or an armpit; exposed feet and armpits are medium; the rest is
      low. */
  function GetSeverity(className: string): Severity {
    if Includes(className, "FACE") then High
    else if Includes(className, "EXPOSED") && !Includes(className, "FEET") && !Includes(className, "ARMPITS") then High
    else if Includes(className, "FEET_EXPOSED") || Includes(className, "ARMPITS_EXPOSED") then Medium
    else Low
  }

  /** `generateContent`, the branch choice: faces, then other exposed
      parts, then everything else; the confidence is the score in percent. */
  function GenerateContent(className: string, score: real): (d: Description)
    ensures d.FaceInfo? <==> Includes(className, "FACE")
    ensures d.SensitiveContent? <==> !Includes(className, "FACE") && Includes(className, "EXPOSED")
    ensures d.percentage == score * 100.0
  {
    if Includes(className, "FACE") then FaceInfo(score * 100.0)
    else if Includes(className, "EXPOSED") then SensitiveContent(score * 100.0)
    else RelatedContent(score * 100.0)
  }

  /** `CLASS_NAME_MAP[className] || className`: every display name is a
      non-empty string, so an unknown class keeps its raw name. */
  function DisplayName(className: string): (name: string)
    ensures className in ClassNameMap ==> name == ClassNameMap[className]
    ensures className !in ClassNameMap ==> name == className
  {
    if className in ClassNameMap && ClassNameMap[className] != "" then ClassNameMap[className] else className
  }

  /** `(v / extent) * 100` */
  function Percent(v: real, extent: real): (c: Coordinate)
    ensures extent != 0.0 ==> c == Finite(v / extent * 100.0)
  {
    if extent == 0.0 then NotFinite else Finite(v / extent * 100.0)
  }

  function MapOne(detection: DetectionBox, index: nat, imageWidth: real, imageHeight: real): MappedDetectionResult {
    var b := detection.box;
    MappedDetectionResult(
      "detection-" + NatToString(index),
      DisplayName(detection.className),
      GenerateContent(detection.className, detection.score),
      GetSeverity(detection.className),
      Position(Percent(b.x, imageWidth), Percent(b.y, imageHeight),
               Percent(b.width, imageWidth), Percent(b.height, imageHeight)),
      detection.className,
      detection.score)
  }

  /** The boxes that are mapped: the first entry of the prediction, when
      the call succeeded and there is one (a null first entry counts as no
      boxes). */
  function Detections(response: ImageDetectionResponse): seq<DetectionBox> {
    if !response.success || response.prediction.None? || |response.prediction.value| == 0 then []
    else match response.prediction.value[0]
      case None => []
      case Some(boxes) => boxes
  }

  /** `mapDetectionResults`: one finding per box of the first prediction
      entry, in order. */
  function MapDetectionResults(response: ImageDetectionResponse, imageWidth: real, imageHeight: real): (r: seq<MappedDetectionResult>)
    ensures |r| == |Detections(response)|
  {
    var boxes := Detections(response);
    seq(|boxes|, i requires 0 <= i < |boxes| => MapOne(boxes[i], i, imageWidth, imageHeight))
  }

  // ------------------------------------------------------------- lemmas

  /** A failed call, a missing or empty prediction gives no findings. */
  lemma NoFindingsWithoutPrediction(response: ImageDetectionResponse, w: real, h: real)
    requires !response.success || response.prediction.None? || response.prediction.value == []
    ensures MapDetectionResults(response, w, h) == []
  {
  }

  /** Only the first entry of the prediction is looked at: the entries after
      it can be anything. */
  lemma OnlyFirstEntryUsed(first: Option<seq<DetectionBox>>, rest1: seq<Option<seq<DetectionBox>>>,
                           rest2: seq<Option<seq<DetectionBox>>>, w: real, h: real)
    ensures MapDetectionResults(ImageDetectionResponse(Some([first] + rest1), true), w, h) ==
            MapDetectionResults(ImageDetectionResponse(Some([first] + rest2), true), w, h)
  {
  }

  /** The i-th finding describes the i-th box: id `detection-{i}`, the class
      and score copied, the display name (or the raw class), the severity
      and description of the class, and the box in percent of the image
      sides. */
  lemma MappedFinding(response: ImageDetectionResponse, w: real, h: real, i: nat)
    requires i < |Detections(response)|
    ensures var d, r := Detections(response)[i], MapDetectionResults(response, w, h)[i];
      r.id == "detection-" + NatToString(i) &&
      r.originalClass == d.className && r.score == d.score &&
      (d.className in ClassNameMap ==> r.kind == ClassNameMap[d.className]) &&
      (d.className !in ClassNameMap ==> r.kind == d.className) &&
      r.severity == GetSeverity(d.className) &&
      r.content == GenerateContent(d.className, d.score) &&
      (w > 0.0 && h > 0.0 ==>
        r.position == Position(Finite(100.0 * d.box.x / w), Finite(100.0 * d.box.y / h),
                               Finite(100.0 * d.box.width / w), Finite(100.0 * d.box.height / h)))
  {
  }

  /** The ids of two findings differ. */
  lemma FindingIdsDistinct(response: ImageDetectionResponse, w: real, h: real, i: nat, j: nat)
    requires i < j < |Detections(response)|
    ensures MapDetectionResults(response, w, h)[i].id != MapDetectionResults(response, w, h)[j].id
  {
    var r := MapDetectionResults(response, w, h);
    if r[i].id == r[j].id {
      var p := "detection-";
      assert NatToString(i) == r[i].id[|p|..];
      assert NatToString(j) == r[j].id[|p|..];
      NatToStringInjective(i, j);
    }
  }

  /** The severity rules, stated over what a class name contains. */
  lemma SeverityRules(c: string)
    ensures Includes(c, "FACE") ==> GetSeverity(c) == High
    ensures Includes(c, "EXPOSED") && !Includes(c, "FEET") && !Includes(c, "ARMPITS") ==> GetSeverity(c) == High
    ensures !Includes(c, "FACE") && (Includes(c, "FEET_EXPOSED") || Includes(c, "ARMPITS_EXPOSED")) ==>
      GetSeverity(c) == Medium
    ensures !Includes(c, "FACE") && !Includes(c, "EXPOSED") ==> GetSeverity(c) == Low
  {
    IncludesPieces(c, "FEET_EXPOSED", "FEET", "EXPOSED");
    IncludesPieces(c, "ARMPITS_EXPOSED", "ARMPITS", "EXPOSED");
  }

  /** The description agrees with the severity: a face description comes
      with high severity, a generic one with low. */
  lemma DescriptionMatchesSeverity(c: string, score: real)
    ensures GenerateContent(c, score).FaceInfo? ==> GetSeverity(c) == High
    ensures GenerateContent(c, score).RelatedContent? ==> GetSeverity(c) == Low
  {
    SeverityRules(c);
  }

  /** A class name without an `X` and without an `F` followed by an `A`
      mentions neither a face nor exposure. */
  lemma CoveredShape(c: string)
    requires 'X' !in c
    requires forall i :: 0 <= i < |c| - 1 ==> !(c[i] == 'F' && c[i + 1] == 'A')
    ensures GetSeverity(c) == Low
    ensures GenerateContent(c, 0.0).RelatedContent?
  {
    if Includes(c, "FACE") {
      IncludesPair(c, "FACE", 0);
    }
    if Includes(c, "EXPOSED") {
      IncludesChar(c, "EXPOSED", 1);
    }
    SeverityRules(c);
  }

  /** A covered class whose stem has no `X` and no `F` followed by an `A`
      is low. */
  lemma CoveredStem(c: string, stem: string)
    requires c == stem + "_COVERED"
    requires 'X' !in stem
    requires forall i :: 0 <= i < |stem| - 1 ==> !(stem[i] == 'F' && stem[i + 1] == 'A')
    ensures GetSeverity(c) == Low
  {
    forall i | 0 <= i < |c| ensures c[i] != 'X' {
      if i >= |stem| {
        assert c[i] == "_COVERED"[i - |stem|];
      } else {
        assert c[i] == stem[i];
      }
    }
    forall i | 0 <= i < |c| - 1 ensures !(c[i] == 'F' && c[i + 1] == 'A') {
      if i >= |stem| - 1 {
        assert c[i + 1] == "_COVERED"[i + 1 - |stem|];
      } else {
        assert c[i] == stem[i] && c[i + 1] == stem[i + 1];
      }
    }
    CoveredShape(c);
  }

  /** The two face classes of the table are high. */
  lemma FaceClassesAreHigh(c: string)
    requires c == "FACE_FEMALE" || c == "FACE_MALE"
    ensures GetSeverity(c) == High && GenerateContent(c, 0.0).FaceInfo?
  {
    IncludesAround(c, "", "FACE", c[4..]);
  }

  /** A string in which no character is followed by `second` where it is
      `first` does not include any string holding that pair. */
  lemma NoPair(c: string, sub: string, k: nat)
    requires k + 1 < |sub|
    requires forall i :: 0 <= i < |c| - 1 ==> !(c[i] == sub[k] && c[i + 1] == sub[k + 1])
    ensures !Includes(c, sub)
  {
    if Includes(c, sub) {
      IncludesPair(c, sub, k);
    }
  }

  /** An exposed class whose stem has no `EE` and no `RM` (and no `?`)
      is high. */
  lemma ExposedShape(c: string, stem: string)
    requires c == stem + "_EXPOSED"
    requires forall i :: 0 <= i < |stem| - 1 ==> stem[i + 1] != if stem[i] == 'E' then 'E' else if stem[i] == 'R' then 'M' else '?'
    ensures GetSeverity(c) == High
  {
    IncludesAround(c, stem + "_", "EXPOSED", "");
    forall i | 0 <= i < |c| - 1
      ensures !(c[i] == 'E' && c[i + 1] == 'E') && !(c[i] == 'R' && c[i + 1] == 'M')
    {
      if i >= |stem| - 1 {
        assert c[i + 1] == "_EXPOSED"[i + 1 - |stem|];
      } else {
        assert c[i] == stem[i] && c[i + 1] == stem[i + 1];
      }
    }
    NoPair(c, "FEET", 1);
    NoPair(c, "ARMPITS", 1);
  }

  /** The exposed classes of the table other than feet and armpits are
      high. */
  lemma ExposedClassesAreHigh(c: string)
    requires c in {"BELLY_EXPOSED", "FEMALE_BREAST_EXPOSED", "FEMALE_GENITALIA_EXPOSED",
                   "MALE_GENITALIA_EXPOSED", "BUTTOCKS_EXPOSED", "ANUS_EXPOSED"}
    ensures GetSeverity(c) == High
  {
    if c == "BELLY_EXPOSED" {
      ExposedShape(c, "BELLY");
    } else if c == "FEMALE_BREAST_EXPOSED" {
      ExposedShape(c, "FEMALE_BREAST");
    } else if c == "FEMALE_GENITALIA_EXPOSED" {
      ExposedShape(c, "FEMALE_GENITALIA");
    } else if c == "MALE_GENITALIA_EXPOSED" {
      ExposedShape(c, "MALE_GENITALIA");
    } else if c == "BUTTOCKS_EXPOSED" {
      ExposedShape(c, "BUTTOCKS");
    } else {
      ExposedShape(c, "ANUS");
    }
  }

  /** Exposed feet and armpits are medium. */
  lemma FeetAndArmpitsAreMedium(c: string)
    requires c == "FEET_EXPOSED" || c == "ARMPITS_EXPOSED"
    ensures GetSeverity(c) == Medium
  {
    NoPair(c, "FACE", 0);
    IncludesAround(c, "", c, "");
    SeverityRules(c);
  }

  /** The covered classes of the table are low. */
  lemma CoveredClassesAreLow(c: string)
    requires c == "BELLY_COVERED" || c == "FEMALE_BREAST_COVERED" || c == "BUTTOCKS_COVERED" ||
             c == "FEET_COVERED" || c == "ARMPITS_COVERED" || c == "FEMALE_GENITALIA_COVERED"
    ensures GetSeverity(c) == Low
  {
    if c == "BELLY_COVERED" {
      CoveredStem(c, "BELLY");
    } else if c == "FEMALE_BREAST_COVERED" {
      CoveredStem(c, "FEMALE_BREAST");
    } else if c == "BUTTOCKS_COVERED" {
      CoveredStem(c, "BUTTOCKS");
    } else if c == "FEET_COVERED" {
      CoveredStem(c, "FEET");
    } else if c == "ARMPITS_COVERED" {
      CoveredStem(c, "ARMPITS");
    } else {
      CoveredStem(c, "FEMALE_GENITALIA");
    }
  }
}
