/** The offline rule-based posture corrector: from the first person of a
    keypoint file it picks the side facing the camera, checks that the five
    joints of that side are present, and classifies the neck, back and leg
    angles against a fixed table of comfortable ranges. */
module PostureCorrector {
  import opened Common

  /** One entry of a person's keypoint list; the confidence may be absent. */
  datatype Part = Part(name: string, x: real, y: real, confidence: Option<real>)

  datatype Person = Person(keypoints: seq<Part>)

  /** A keypoint file: unreadable (with the reason), or its persons list
      (empty when the list is missing, null or empty). */
  datatype FileContent = Unreadable(reason: string) | Parsed(persons: seq<Person>)

  datatype Point = Point(x: real, y: real)

  datatype Side = Left | Right
  datatype Joint = Ear | Shoulder | Hip | Knee | Ankle

  function SideName(s: Side): string {
    match s
    case Left => "left"
    case Right => "right"
  }

  function JointName(j: Joint): string {
    match j
    case Ear => "ear"
    case Shoulder => "shoulder"
    case Hip => "hip"
    case Knee => "knee"
    case Ankle => "ankle"
  }

  /** The keypoint file's part name of a joint, such as "left_knee"; the
      coordinates are keyed by the text after the underscore, the joint. */
  function PartName(s: Side, j: Joint): string {
    SideName(s) + "_" + JointName(j)
  }

  /** One ergonomic rule: the angle at the middle joint of three, and the
      comfortable range in degrees. */
  datatype Rule = Rule(region: string, first: Joint, vertex: Joint, last: Joint,
                       minAngle: int, maxAngle: int, lowSuggestion: string, highSuggestion: string)

  /** The rule table, in its iteration order. */
  const Rules: seq<Rule> := [
    Rule("neck", Hip, Shoulder, Ear, 145, 175,
         "FIX: Your neck is bent too far forward. Tuck your chin in.",
         "FIX: Avoid tilting your head too far back."),
    Rule("back", Knee, Hip, Shoulder, 90, 100,
         "FIX: You are slouching. Sit up straight and engage your core.",
         "FIX: You are leaning back too far. Bring your torso upright."),
    Rule("legs", Ankle, Knee, Hip, 82, 109,
         "FIX: Your knees are too bent. Lower your feet or raise your chair.",
         "FIX: Your legs are too extended. Place your feet flat on the floor.")]

  /** The joints of one side, in the order they are checked. */
  const Joints: seq<Joint> := [Ear, Shoulder, Hip, Knee, Ankle]

  /** Every range is non-empty, so the three outcomes of a rule never
      overlap. */
  lemma RulesWellFormed()
    ensures |Rules| == 3
    ensures forall k :: 0 <= k < |Rules| ==> Rules[k].minAngle < Rules[k].maxAngle
  {
  }

  // ---------------------------------------------------------------------
  // Keypoint lookup

  /** The part-name dictionary after the first n entries: a later entry with
      the same name replaces an earlier one. */
  function PartMap(parts: seq<Part>, n: nat): (m: map<string, Part>)
    requires n <= |parts|
    ensures forall i :: 0 <= i < n ==> parts[i].name in m
  {
    if n == 0 then map[]
    else PartMap(parts, n - 1)[parts[n - 1].name := parts[n - 1]]
  }

  /** Every key is the name of one of the first n entries. */
  lemma {:induction false} PartMapKeys(parts: seq<Part>, n: nat)
    requires n <= |parts|
    ensures forall name :: name in PartMap(parts, n) ==> exists i :: 0 <= i < n && parts[i].name == name
  {
    if n > 0 {
      PartMapKeys(parts, n - 1);
    }
  }

  /** Each name maps to its last entry. */
  lemma {:induction false} PartMapLast(parts: seq<Part>, n: nat)
    requires n <= |parts|
    ensures forall i :: 0 <= i < n && (forall j :: i < j < n ==> parts[j].name != parts[i].name) ==>
              PartMap(parts, n)[parts[i].name] == parts[i]
  {
    if n > 0 {
      PartMapLast(parts, n - 1);
      forall i | 0 <= i < n && (forall j :: i < j < n ==> parts[j].name != parts[i].name)
        ensures PartMap(parts, n)[parts[i].name] == parts[i]
      {
        if i < n - 1 {
          assert parts[n - 1].name != parts[i].name;
        }
      }
    }
  }

  /** The dictionary comprehension over the keypoint list. */
  method BuildPartMap(parts: seq<Part>) returns (m: map<string, Part>)
    ensures m == PartMap(parts, |parts|)
  {
    m := map[];
    var i := 0;
    while i < |parts|
      invariant 0 <= i <= |parts|
      invariant m == PartMap(parts, i)
    {
      m := m[parts[i].name := parts[i]];
      i := i + 1;
    }
  }

  /** A part's confidence, 0 when the part or its confidence is missing. */
  function Confidence(m: map<string, Part>, name: string): real {
    if name in m && m[name].confidence.Some? then m[name].confidence.value else 0.0
  }

  /** The side whose ear is seen with more confidence; right on a tie. */
  function ChooseSide(m: map<string, Part>): (side: Side)
    ensures side == Left <==> Confidence(m, "left_ear") > Confidence(m, "right_ear")
  {
    if Confidence(m, "left_ear") > Confidence(m, "right_ear") then Left else Right
  }

  /** With neither ear present (or neither carrying a confidence), the right
      side is chosen. */
  lemma NoEarsMeansRight(m: map<string, Part>)
    requires "left_ear" !in m || m["left_ear"].confidence.None?
    requires "right_ear" !in m || m["right_ear"].confidence.None?
    ensures ChooseSide(m) == Right
  {
  }

  /** The required part names of a side, in checking order. */
  function RequiredParts(side: Side): (r: seq<string>)
    ensures |r| == |Joints|
    ensures forall i :: 0 <= i < |r| ==> r[i] == PartName(side, Joints[i])
  {
    seq(|Joints|, i requires 0 <= i < |Joints| => PartName(side, Joints[i]))
  }

  /** The first of the required parts (from index n on) missing from m. */
  function FirstMissing(required: seq<string>, m: map<string, Part>, n: nat): Option<string>
    requires n <= |required|
    decreases |required| - n
  {
    if n == |required| then None
    else if required[n] !in m then Some(required[n])
    else FirstMissing(required, m, n + 1)
  }

  /** None iff every part from n on is present; otherwise the first missing
      one, every part before it being present. */
  lemma {:induction false} FirstMissingSpec(required: seq<string>, m: map<string, Part>, n: nat)
    requires n <= |required|
    decreases |required| - n
    ensures FirstMissing(required, m, n).None? <==> forall i :: n <= i < |required| ==> required[i] in m
    ensures FirstMissing(required, m, n).Some? ==>
              exists i :: n <= i < |required| && required[i] == FirstMissing(required, m, n).value &&
                required[i] !in m && forall j :: n <= j < i ==> required[j] in m
  {
    if n < |required| && required[n] in m {
      FirstMissingSpec(required, m, n + 1);
    }
  }

  /** The coordinates of the first n joints of the side, keyed by joint. */
  function Coords(m: map<string, Part>, side: Side, n: nat): map<Joint, Point>
    requires n <= |Joints|
    requires forall i :: 0 <= i < n ==> PartName(side, Joints[i]) in m
  {
    if n == 0 then map[]
    else
      var p := m[PartName(side, Joints[n - 1])];
      Coords(m, side, n - 1)[Joints[n - 1] := Point(p.x, p.y)]
  }

  /** Where joint j of the side is. */
  function JointPoint(m: map<string, Part>, side: Side, j: Joint): Point
    requires PartName(side, j) in m
  {
    Point(m[PartName(side, j)].x, m[PartName(side, j)].y)
  }

  /** Each of the first n joints is a key, holding the x and y of its part. */
  lemma {:induction false} CoordsSpec(m: map<string, Part>, side: Side, n: nat)
    requires n <= |Joints|
    requires forall i :: 0 <= i < n ==> PartName(side, Joints[i]) in m
    ensures forall i :: 0 <= i < n ==>
              Joints[i] in Coords(m, side, n) && Coords(m, side, n)[Joints[i]] == JointPoint(m, side, Joints[i])
  {
    if n > 0 {
      CoordsSpec(m, side, n - 1);
    }
  }

  /** The position of a joint in the checking order. */
  function JointIndex(j: Joint): (i: nat)
    ensures i < |Joints| && Joints[i] == j
  {
    match j
    case Ear => 0
    case Shoulder => 1
    case Hip => 2
    case Knee => 3
    case Ankle => 4
  }

  /** Once all five parts are present, every joint has its coordinates. */
  lemma CoordsComplete(m: map<string, Part>, side: Side)
    requires forall i :: 0 <= i < |Joints| ==> PartName(side, Joints[i]) in m
    ensures forall j: Joint :: PartName(side, j) in m
    ensures forall j: Joint :: j in Coords(m, side, |Joints|) && Coords(m, side, |Joints|)[j] == JointPoint(m, side, j)
  {
    CoordsSpec(m, side, |Joints|);
    forall j: Joint
      ensures PartName(side, j) in m && j in Coords(m, side, |Joints|) &&
              Coords(m, side, |Joints|)[j] == JointPoint(m, side, j)
    {
      var i := JointIndex(j);
    }
  }

  // ---------------------------------------------------------------------
  // Classification

  datatype Status = Good | TooBent | TooReclined
  {
    /** The status as the report writes it. */
    function Text(): string {
      match this
      case Good => "GOOD"
      case TooBent => "INCORRECT (Too Bent/Forward)"
      case TooReclined => "INCORRECT (Too Reclined/Extended)"
    }
  }

  const NoCorrection: string := "No correction needed."

  datatype Verdict = Verdict(status: Status, suggestion: string)

  /** Below the range is too bent, above it too reclined, and within it,
      bounds included, good; exactly one of the three holds. */
  function Classify(r: Rule, angle: real): (v: Verdict)
    ensures v.status == TooBent <==> angle < r.minAngle as real
    ensures v.status == TooReclined <==> r.minAngle as real <= angle && angle > r.maxAngle as real
    ensures v.status == Good <==> r.minAngle as real <= angle <= r.maxAngle as real
    ensures r.minAngle < r.maxAngle ==> (v.status == TooReclined <==> angle > r.maxAngle as real)
    ensures v.status == TooBent ==> v.suggestion == r.lowSuggestion
    ensures v.status == TooReclined ==> v.suggestion == r.highSuggestion
    ensures v.status == Good ==> v.suggestion == NoCorrection
  {
    if angle < r.minAngle as real then Verdict(TooBent, r.lowSuggestion)
    else if angle > r.maxAngle as real then Verdict(TooReclined, r.highSuggestion)
    else Verdict(Good, NoCorrection)
  }

  /** Python's `str.capitalize` on ASCII: first letter upper case, the rest
      lower case. */
  function Capitalize(s: string): (c: string)
    ensures |c| == |s|
    ensures |c| > 0 ==> !('a' <= c[0] <= 'z')
    ensures forall i :: 1 <= i < |c| ==> !('A' <= c[i] <= 'Z')
  {
    if s == [] then [] else [Upper(s[0])] + Lower(s[1..])
  }

  function Upper(ch: char): (u: char)
    ensures !('a' <= u <= 'z')
    ensures !('a' <= ch <= 'z') ==> u == ch
  {
    if 'a' <= ch <= 'z' then (ch as int - 32) as char else ch
  }

  function Lower(s: string): (l: string)
    ensures |l| == |s|
    ensures forall i :: 0 <= i < |l| ==> !('A' <= l[i] <= 'Z')
    ensures forall i :: 0 <= i < |l| && !('A' <= s[i] <= 'Z') ==> l[i] == s[i]
  {
    if s == [] then []
    else [if 'A' <= s[0] <= 'Z' then (s[0] as int + 32) as char else s[0]] + Lower(s[1..])
  }

  /** One line of the report. The angle is kept as a number (the report
      prints it with one decimal and a degree sign). */
  datatype Assessment = Assessment(region: string, angle: real, status: Status, suggestion: string)

  /** The result: a single message, or the three assessments. */
  datatype Analysis = Failure(message: string) | Report(results: seq<Assessment>)

  /** The assessment of one rule; `angleOf(a, b, c)` is the angle at b. */
  function Assess(r: Rule, coords: map<Joint, Point>, angleOf: (Point, Point, Point) -> real): (a: Assessment)
    requires r.first in coords && r.vertex in coords && r.last in coords
    ensures a.angle == angleOf(coords[r.first], coords[r.vertex], coords[r.last])
    ensures a.status == Good <==> r.minAngle as real <= a.angle <= r.maxAngle as real
    ensures a.status == Good ==> a.suggestion == NoCorrection
    ensures a.status != Good ==> a.suggestion == (if a.status == TooBent then r.lowSuggestion else r.highSuggestion)
    ensures |a.region| == |r.region|
  {
    var angle := angleOf(coords[r.first], coords[r.vertex], coords[r.last]);
    var v := Classify(r, angle);
    Assessment(Capitalize(r.region), angle, v.status, v.suggestion)
  }

  /** The assessments of the three rules, in table order. */
  function AssessAll(coords: map<Joint, Point>, angleOf: (Point, Point, Point) -> real): seq<Assessment>
    requires forall j: Joint :: j in coords
  {
    seq(|Rules|, k requires 0 <= k < |Rules| => Assess(Rules[k], coords, angleOf))
  }

  function MissingMessage(part: string): string {
    "Critical Error: Missing '" + part + "' keypoint."
  }

  /** The analysis once the side is chosen: the first missing part is
      reported, otherwise the three rules are assessed. */
  function AnalyzeSide(m: map<string, Part>, side: Side, angleOf: (Point, Point, Point) -> real): (a: Analysis)
    ensures a.Failure? <==> FirstMissing(RequiredParts(side), m, 0).Some?
    ensures a.Report? ==> |a.results| == |Rules|
  {
    match FirstMissing(RequiredParts(side), m, 0)
    case Some(part) => Failure(MissingMessage(part))
    case None =>
      FirstMissingSpec(RequiredParts(side), m, 0);
      CoordsComplete(m, side);
      Report(AssessAll(Coords(m, side, |Joints|), angleOf))
  }

  /** The analysis of the first person's keypoint list. */
  function AnalyzeParts(parts: seq<Part>, angleOf: (Point, Point, Point) -> real): Analysis {
    var m := PartMap(parts, |parts|);
    AnalyzeSide(m, ChooseSide(m), angleOf)
  }

  /** The whole analysis of a file: the two file-level failures come before
      any joint is looked at. */
  function Analyze(content: FileContent, angleOf: (Point, Point, Point) -> real): (a: Analysis)
    ensures content.Unreadable? ==> a == Failure("Error reading file: " + content.reason)
    ensures content.Parsed? && content.persons == [] ==> a == Failure("No person detected in file.")
    ensures content.Parsed? && content.persons != [] ==> a == AnalyzeParts(content.persons[0].keypoints, angleOf)
  {
    match content
    case Unreadable(reason) => Failure("Error reading file: " + reason)
    case Parsed(persons) =>
      if persons == [] then Failure("No person detected in file.")
      else AnalyzeParts(persons[0].keypoints, angleOf)
  }

  /** The analysis fails iff a joint of the side is missing, and then names
      the first missing one in the order ear, shoulder, hip, knee, ankle. */
  lemma MissingSpec(m: map<string, Part>, side: Side, angleOf: (Point, Point, Point) -> real)
    ensures var a := AnalyzeSide(m, side, angleOf);
      (a.Failure? <==> exists i :: 0 <= i < |Joints| && PartName(side, Joints[i]) !in m) &&
      (a.Failure? ==>
         exists i :: 0 <= i < |Joints| && PartName(side, Joints[i]) !in m &&
           a.message == MissingMessage(PartName(side, Joints[i])) &&
           forall j :: 0 <= j < i ==> PartName(side, Joints[j]) in m)
  {
    FirstMissingSpec(RequiredParts(side), m, 0);
  }

  /** The report's region names, capitalised from the table's keys. */
  lemma RegionNames()
    ensures Capitalize(Rules[0].region) == "Neck"
    ensures Capitalize(Rules[1].region) == "Back"
    ensures Capitalize(Rules[2].region) == "Legs"
  {
    assert Capitalize("neck") == "Neck";
    assert Capitalize("back") == "Back";
    assert Capitalize("legs") == "Legs";
  }

  /** A report has exactly three assessments, one per rule in table order
      (Neck, Back, Legs); each is the angle at the rule's middle joint of the
      side, classified against the rule's range. */
  lemma ReportSpec(m: map<string, Part>, side: Side, angleOf: (Point, Point, Point) -> real)
    ensures var a := AnalyzeSide(m, side, angleOf);
      a.Report? ==>
        |a.results| == 3 &&
        (forall j: Joint :: PartName(side, j) in m) &&
        forall k :: 0 <= k < 3 ==>
          a.results[k].region == Capitalize(Rules[k].region) &&
          a.results[k].angle == angleOf(JointPoint(m, side, Rules[k].first), JointPoint(m, side, Rules[k].vertex),
                                        JointPoint(m, side, Rules[k].last)) &&
          Verdict(a.results[k].status, a.results[k].suggestion) == Classify(Rules[k], a.results[k].angle)
  {
    var req := RequiredParts(side);
    FirstMissingSpec(req, m, 0);
    if FirstMissing(req, m, 0).None? {
      CoordsComplete(m, side);
    }
  }

  /** The loop over the required parts: stops at the first missing one,
      otherwise collects the joint coordinates. */
  method CollectCoords(m: map<string, Part>, side: Side) returns (missing: Option<string>, coords: map<Joint, Point>)
    ensures missing == FirstMissing(RequiredParts(side), m, 0)
    ensures missing.None? ==>
              (forall i :: 0 <= i < |Joints| ==> PartName(side, Joints[i]) in m) &&
              coords == Coords(m, side, |Joints|)
  {
    var required := RequiredParts(side);
    coords := map[];
    var i := 0;
    while i < |required|
      invariant 0 <= i <= |required|
      invariant forall j :: 0 <= j < i ==> required[j] in m
      invariant FirstMissing(required, m, 0) == FirstMissing(required, m, i)
      invariant coords == Coords(m, side, i)
    {
      var part := required[i];
      if part !in m {
        return Some(part), coords;
      }
      coords := coords[Joints[i] := Point(m[part].x, m[part].y)];
      i := i + 1;
    }
    return None, coords;
  }

  /** The loop over the rules, appending one assessment per rule. */
  method AssessRules(coords: map<Joint, Point>, angleOf: (Point, Point, Point) -> real) returns (results: seq<Assessment>)
    requires forall j: Joint :: j in coords
    ensures results == AssessAll(coords, angleOf)
  {
    RulesWellFormed();
    results := [];
    var k := 0;
    while k < |Rules|
      invariant 0 <= k <= |Rules|
      invariant |results| == k
      invariant forall j :: 0 <= j < k ==> results[j] == Assess(Rules[j], coords, angleOf)
    {
      results := results + [Assess(Rules[k], coords, angleOf)];
      k := k + 1;
    }
  }

  /** analyze_posture. */
  method AnalyzePosture(content: FileContent, angleOf: (Point, Point, Point) -> real) returns (a: Analysis)
    ensures a == Analyze(content, angleOf)
  {
    if content.Unreadable? {
      return Failure("Error reading file: " + content.reason);
    }
    if content.persons == [] {
      return Failure("No person detected in file.");
    }
    var parts := content.persons[0].keypoints;
    var m := BuildPartMap(parts);
    var side := ChooseSide(m);
    var missing, coords := CollectCoords(m, side);
    if missing.Some? {
      return Failure(MissingMessage(missing.value));
    }
    CoordsComplete(m, side);
    var results := AssessRules(coords, angleOf);
    return Report(results);
  }
}
