/**
 * The course knowledge base: the constant `COURSE_INFO` record, the
 * invariants its data keeps (grade weights, grade bands, assignment count)
 * and the text `get_course_context` renders from it. Python dictionaries
 * become sequences of key/value pairs in insertion order.
 */
module CourseData {
  import opened Wrappers
  import opened Text

  datatype Professor = Professor(name: string, email: string, office: string, officeHours: string)
  datatype Schedule = Schedule(lectureTimes: string, location: string, labSessions: string)
  datatype ImportantDates = ImportantDates(midtermExam: string, finalExam: string, projectProposalDue: string,
                                           finalProjectDue: string, lastDayToDrop: string)
  datatype Assignment = Assignment(name: string, dueDate: string, topics: string)
  datatype Textbook = Textbook(title: string, authors: string, edition: string, required: bool)

  datatype CourseInfo = CourseInfo(
    courseName: string, courseCode: string, semester: string,
    professor: Professor, courseDescription: string, schedule: Schedule, importantDates: ImportantDates,
    breakdown: seq<(string, string)>, gradingScale: seq<(string, Band)>,
    assignments: seq<Assignment>, topicsCovered: seq<string>, prerequisites: string,
    textbook: Textbook, policies: seq<(string, string)>, resources: seq<(string, string)>)

  const Info: CourseInfo := CourseInfo(
    courseName := CourseName,
    courseCode := CourseCode,
    semester := "Spring 2026",
    professor := Instructor,
    courseDescription :=
      "\n    This course provides a comprehensive introduction to the field of Artificial Intelligence (AI). "
      + "\n    Students will learn fundamental concepts including search algorithms, knowledge representation, "
      + "\n    machine learning, neural networks, natural language processing, and computer vision. "
      + "\n    The course combines theoretical foundations with practical applications through hands-on projects."
      + "\n    ",
    schedule := Schedule("Monday and Wednesday, 10:30 AM - 11:45 AM", "Engineering Building, Room 301",
                         "Fridays, 1:00 PM - 2:50 PM in Computer Lab B"),
    importantDates := ImportantDates("March 12, 2025", "May 15, 2025, 9:45 AM - 12:00 PM", "February 20, 2025",
                                     "May 8, 2025", "March 1, 2025"),
    breakdown := Breakdown,
    gradingScale := GradingScale,
    assignments := Assignments,
    topicsCovered := ["Introduction to AI and Intelligent Agents", "Problem Solving and Search Algorithms",
                      "Knowledge Representation and Reasoning", "Uncertainty and Probabilistic Reasoning",
                      "Machine Learning Fundamentals", "Neural Networks and Deep Learning",
                      "Natural Language Processing", "Computer Vision Basics", "Ethics in AI"],
    prerequisites := "CS 46B (Introduction to Data Structures) or equivalent",
    textbook := Textbook("Artificial Intelligence: A Modern Approach", "Stuart Russell and Peter Norvig",
                         "4th Edition", true),
    policies := Policies,
    resources := [
      ("canvas", "All materials, assignments, and grades posted on Canvas"),
      ("piazza", "Use Piazza for course-related questions and discussions"),
      ("tutoring", "Free tutoring available at the CS Learning Center, Monday-Friday 10 AM - 5 PM")])

  const CourseName := "Introduction to Artificial Intelligence"
  const CourseCode := "CS 151"

  /** `COURSE_INFO['professor']` */
  const Instructor := Professor("Advait Shinde", "advait.shinde@sjsu.edu", "MacQuarrie Hall, Room 408",
                                "Tuesdays and Thursdays, 2:00 PM - 4:00 PM, or by appointment")

  /** `COURSE_INFO['grading']['breakdown']` */
  const Breakdown: seq<(string, string)> :=
    [("Assignments (5 total)", "30%"), ("Midterm Exam", "20%"), ("Final Project", "25%"),
     ("Final Exam", "20%"), ("Class Participation", "5%")]

  /**
   * `COURSE_INFO['grading']['grading_scale']`, each range kept as the pair of
   * numbers (or the bound) its text states; `BandText` gives the text back.
   */
  const GradingScale: seq<(string, Band)> :=
    [("A", Range(93, 100)), ("A-", Range(90, 92)), ("B+", Range(87, 89)), ("B", Range(83, 86)),
     ("B-", Range(80, 82)), ("C+", Range(77, 79)), ("C", Range(73, 76)), ("C-", Range(70, 72)),
     ("D", Range(60, 69)), ("F", Below(60))]

  /** `COURSE_INFO['assignments']` */
  const Assignments: seq<Assignment> := [
      Assignment("Assignment 1: Search Algorithms", "February 5, 2025", "BFS, DFS, A* search"),
      Assignment("Assignment 2: Knowledge Representation", "February 26, 2025", "Propositional logic, first-order logic"),
      Assignment("Assignment 3: Machine Learning Basics", "March 19, 2025", "Linear regression, classification"),
      Assignment("Assignment 4: Neural Networks", "April 9, 2025", "Perceptrons, backpropagation"),
      Assignment("Assignment 5: NLP Application", "April 30, 2025", "Text processing, sentiment analysis")]

  /** `COURSE_INFO['policies']` */
  const Policies: seq<(string, string)> := [
      ("late_submission", "Late assignments accepted up to 48 hours after deadline with 20% penalty. No submissions accepted after 48 hours."),
      ("attendance", "Attendance is not mandatory but strongly encouraged. Class participation contributes to 5% of final grade."),
      ("academic_integrity", "All work must be your own. Collaboration is allowed on assignments but you must write your own code. Plagiarism will result in failure of the course."),
      ("makeup_exams", "Makeup exams only granted for documented emergencies. Must notify professor within 24 hours.")]

  // ----- Reading the numbers in the data -----

  predicate IsDigit(c: char) { '0' <= c <= '9' }

  /** A non-empty run of decimal digits, read as a number. */
  function ParseNat(s: string): (r: Option<nat>)
    ensures r.Some? ==> s != [] && forall i :: 0 <= i < |s| ==> IsDigit(s[i])
  {
    if s == [] || !IsDigit(s[|s| - 1]) then None
    else if |s| == 1 then Some(s[0] as int - '0' as int)
    else match ParseNat(s[..|s| - 1])
      case Some(n) => Some(10 * n + (s[|s| - 1] as int - '0' as int))
      case None => None
  }

  /** "30%" as 30. */
  function ParsePercent(s: string): Option<nat> {
    if EndsWith(s, "%") then ParseNat(s[..|s| - 1]) else None
  }

  /** The total of the breakdown's percentages; `None` when one of them is not a percentage. */
  function PercentTotal(entries: seq<(string, string)>): Option<nat> {
    if entries == [] then Some(0)
    else match (ParsePercent(entries[0].1), PercentTotal(entries[1..]))
      case (Some(p), Some(t)) => Some(p + t)
      case _ => None
  }

  /** The grading weights are all percentages and add up to 100. */
  lemma BreakdownTotals100()
    ensures PercentTotal(Breakdown) == Some(100)
  {
    assert "30%"[..2] == "30" && "30"[..1] == "3";
    assert "20%"[..2] == "20" && "20"[..1] == "2";
    assert "25%"[..2] == "25" && "25"[..1] == "2";
    assert "5%"[..1] == "5";
    assert ParsePercent("30%") == Some(30);
    assert ParsePercent("20%") == Some(20);
    assert ParsePercent("25%") == Some(25);
    assert ParsePercent("5%") == Some(5);
  }

  /** The assignment list has as many entries as the first weight's label announces. */
  lemma AssignmentCountAnnounced()
    ensures |Assignments| == 5
    ensures Breakdown[0].0 == "Assignments (5 total)"
  {
  }

  // ----- Grade bands -----

  /** A grading-scale range: "lo-hi" or "Below n". */
  datatype Band = Range(lo: nat, hi: nat) | Below(bound: nat)

  const DecimalDigits := "0123456789"

  /** `str(n)` */
  function NatText(n: nat): string
    decreases n
  {
    if n < 10 then [DecimalDigits[n]] else NatText(n / 10) + [DecimalDigits[n % 10]]
  }

  /** The text the source stores for a band: "93-100", "Below 60". */
  function BandText(b: Band): string {
    match b
    case Range(lo, hi) => NatText(lo) + "-" + NatText(hi)
    case Below(n) => "Below " + NatText(n)
  }

  /** The bands of a grading scale, in its order. */
  function Bands(scale: seq<(string, Band)>): (r: seq<Band>)
    ensures |r| == |scale| && forall i :: 0 <= i < |scale| ==> r[i] == scale[i].1
  {
    seq(|scale|, i requires 0 <= i < |scale| => scale[i].1)
  }

  predicate InBand(score: int, b: Band) {
    match b
    case Range(lo, hi) => lo <= score <= hi
    case Below(n) => score < n
  }

  /** Some band holds the score. */
  predicate Covered(score: int, bands: seq<Band>) {
    exists i :: 0 <= i < |bands| && InBand(score, bands[i])
  }

  /**
   * The bands run downwards without gap or overlap from `top`: each range
   * starts one below where the previous one ended, and a final "Below n"
   * takes everything under the last range.
   */
  predicate DescendingFrom(bands: seq<Band>, top: int)
    decreases |bands|
  {
    bands != [] &&
    match bands[0]
    case Range(lo, hi) => hi == top && lo <= hi && DescendingFrom(bands[1..], lo - 1)
    case Below(n) => n == top + 1 && |bands| == 1
  }

  /** Bands that descend from `top` give every score up to `top` exactly one band, and higher scores none. */
  lemma {:induction false} BandsPartition(bands: seq<Band>, top: int)
    requires DescendingFrom(bands, top)
    ensures forall score :: score <= top <==> Covered(score, bands)
    ensures forall score, i, j :: (0 <= i < |bands| && 0 <= j < |bands|
              && InBand(score, bands[i]) && InBand(score, bands[j])) ==> i == j
    decreases |bands|
  {
    match bands[0]
    case Below(n) =>
    case Range(lo, hi) =>
      var rest := bands[1..];
      BandsPartition(rest, lo - 1);
      forall score | score <= top
        ensures Covered(score, bands)
      {
        if score < lo {
          assert Covered(score, rest);
          var k :| 0 <= k < |rest| && InBand(score, rest[k]);
          assert InBand(score, bands[k + 1]);
        } else {
          assert InBand(score, bands[0]);
        }
      }
      forall score | Covered(score, bands)
        ensures score <= top
      {
        var i :| 0 <= i < |bands| && InBand(score, bands[i]);
        if i > 0 {
          assert InBand(score, rest[i - 1]);
          assert Covered(score, rest);
        }
      }
      forall score, i, j | 0 <= i < |bands| && 0 <= j < |bands| && InBand(score, bands[i]) && InBand(score, bands[j])
        ensures i == j
      {
        if i > 0 {
          assert InBand(score, rest[i - 1]);
          assert Covered(score, rest);
        }
        if j > 0 {
          assert InBand(score, rest[j - 1]);
          assert Covered(score, rest);
        }
        if i > 0 && j > 0 {
          assert i - 1 == j - 1;
        }
      }
  }

  /**
   * The bands descend from 100 to "Below 60" with no gap and no overlap:
   * each score from 0 to 100 has exactly one letter grade.
   */
  lemma GradingScaleIsPartition()
    ensures DescendingFrom(Bands(GradingScale), 100)
    ensures var bands := Bands(GradingScale);
            (forall score :: 0 <= score <= 100 ==> Covered(score, bands))
            && forall score, i, j :: (0 <= i < |bands| && 0 <= j < |bands|
                 && InBand(score, bands[i]) && InBand(score, bands[j])) ==> i == j
  {
    var bands := Bands(GradingScale);
    assert DescendingFrom(bands[9..], 59);
    assert DescendingFrom(bands[8..], 69);
    assert DescendingFrom(bands[7..], 72);
    assert DescendingFrom(bands[6..], 76);
    assert DescendingFrom(bands[5..], 79);
    assert DescendingFrom(bands[4..], 82);
    assert DescendingFrom(bands[3..], 86);
    assert DescendingFrom(bands[2..], 89);
    assert DescendingFrom(bands[1..], 92);
    BandsPartition(bands, 100);
  }

  // ----- Rendering -----

  /** The lines of a list, one per entry, in order. */
  function Lines<T>(xs: seq<T>, line: T -> string): string {
    if xs == [] then "" else Lines(xs[..|xs| - 1], line) + line(xs[|xs| - 1])
  }

  lemma {:induction false} LinesAppend<T>(a: seq<T>, b: seq<T>, line: T -> string)
    ensures Lines(a + b, line) == Lines(a, line) + Lines(b, line)
    decreases |b|
  {
    if b == [] {
      assert a + b == a;
    } else {
      var b' := b[..|b| - 1];
      assert (a + b)[..|a + b| - 1] == a + b';
      LinesAppend(a, b', line);
    }
  }

  /**
   * Whatever stands around an entry, its line stands between the lines of
   * the entries before it and those after it: one line per entry, in order.
   */
  lemma LinesSplit<T>(pre: seq<T>, x: T, post: seq<T>, line: T -> string)
    ensures Lines(pre + [x] + post, line) == Lines(pre, line) + line(x) + Lines(post, line)
  {
    LinesAppend(pre + [x], post, line);
    LinesAppend(pre, [x], line);
    assert [x][..0] == [];
  }

  const Indent := "        "

  /** `f"- {item}: {percentage}\n"` */
  function PairLine(entry: (string, string)): string {
    "- " + entry.0 + ": " + entry.1 + "\n"
  }

  /** `f"- {grade}: {range_val}\n"` */
  function ScaleLine(entry: (string, Band)): string {
    "- " + entry.0 + ": " + BandText(entry.1) + "\n"
  }

  function AssignmentLine(a: Assignment): string {
    "- " + a.name + " (Due: " + a.dueDate + "): " + a.topics + "\n"
  }

  /** A policy key as a heading: underscores become spaces, then title case. */
  function PolicyHeading(key: string): string {
    Title(ReplaceChar(key, '_', ' '))
  }

  /**
   * A policy heading keeps the key's length; each underscore becomes a
   * space, a letter at the start of a word is upper-cased and a letter
   * inside a word lower-cased.
   */
  lemma PolicyHeadingShape(key: string)
    ensures |PolicyHeading(key)| == |key|
    ensures forall i :: 0 <= i < |key| && key[i] == '_' ==> PolicyHeading(key)[i] == ' '
    ensures forall i :: 0 <= i < |key| && IsLetter(key[i]) && (i == 0 || !IsLetter(key[i - 1])) ==>
              PolicyHeading(key)[i] == UpperChar(key[i])
    ensures forall i :: 0 < i < |key| && IsLetter(key[i]) && IsLetter(key[i - 1]) ==>
              PolicyHeading(key)[i] == LowerChar(key[i])
  {
    var spaced := ReplaceChar(key, '_', ' ');
    assert PolicyHeading(key) == Title(spaced);
    forall i | 0 <= i < |key|
      ensures IsLetter(spaced[i]) == IsLetter(key[i])
      ensures key[i] == '_' ==> PolicyHeading(key)[i] == ' '
    {
      if key[i] == '_' {
        assert spaced[i] == ' ';
        assert Title(spaced)[i] == TitleChar(' ', i > 0 && IsLetter(spaced[i - 1]));
      }
    }
  }

  function PolicyLine(entry: (string, string)): string {
    "- " + PolicyHeading(entry.0) + ": " + entry.1 + "\n"
  }

  function TextbookLine(t: Textbook): string {
    "- " + t.title + " by " + t.authors + ", " + t.edition + "\n"
  }

  /** The opening f-string, indentation included, up to the GRADING heading. */
  function Opening(info: CourseInfo): string {
    "\n" + Indent + "COURSE INFORMATION:\n\n"
    + Indent + "Course: " + info.courseCode + " - " + info.courseName + "\n"
    + Indent + "Semester: " + info.semester + "\n\n"
    + Indent + "PROFESSOR:\n"
    + Indent + "Name: " + info.professor.name + "\n"
    + Indent + "Email: " + info.professor.email + "\n"
    + Indent + "Office: " + info.professor.office + "\n"
    + Indent + "Office Hours: " + info.professor.officeHours + "\n\n"
    + Indent + "DESCRIPTION:\n"
    + Indent + info.courseDescription + "\n\n"
    + Indent + "SCHEDULE:\n"
    + Indent + "Lectures: " + info.schedule.lectureTimes + "\n"
    + Indent + "Location: " + info.schedule.location + "\n"
    + Indent + "Lab: " + info.schedule.labSessions + "\n\n"
    + Indent + "IMPORTANT DATES:\n"
    + Indent + "- Midterm Exam: " + info.importantDates.midtermExam + "\n"
    + Indent + "- Final Exam: " + info.importantDates.finalExam + "\n"
    + Indent + "- Project Proposal Due: " + info.importantDates.projectProposalDue + "\n"
    + Indent + "- Final Project Due: " + info.importantDates.finalProjectDue + "\n"
    + Indent + "- Last Day to Drop: " + info.importantDates.lastDayToDrop + "\n\n"
    + Indent
  }

  const GradingHeading := "GRADING:\n"
  const ScaleHeading := "\nGRADING SCALE:\n"
  const AssignmentsHeading := "\nASSIGNMENTS:\n"
  const PrerequisitesHeading := "\nPREREQUISITES: "
  const TextbookHeading := "\nTEXTBOOK:\n"
  const PoliciesHeading := "\nPOLICIES:\n"

  /** A titled block of the context: its heading, then its lines. */
  datatype Section = Section(heading: string, body: string)

  /** The sections one after another, each heading directly followed by its body. */
  function Stack(secs: seq<Section>): string {
    if secs == [] then "" else secs[0].heading + (secs[0].body + Stack(secs[1..]))
  }

  /**
   * The six sections after the opening. The opening f-string ends with the
   * indentation of its last line, so the first breakdown line is indented
   * and the others are not.
   */
  function Sections(info: CourseInfo): seq<Section> {
    [Section(GradingHeading + Indent, Lines(info.breakdown, PairLine)),
     Section(ScaleHeading, Lines(info.gradingScale, ScaleLine)),
     Section(AssignmentsHeading, Lines(info.assignments, AssignmentLine)),
     Section(PrerequisitesHeading, info.prerequisites + "\n"),
     Section(TextbookHeading, TextbookLine(info.textbook)),
     Section(PoliciesHeading, Lines(info.policies, PolicyLine))]
  }

  /** The text `get_course_context` returns for a course record. */
  function Render(info: CourseInfo): string {
    Opening(info) + Stack(Sections(info))
  }

  /** One `for` loop of `get_course_context`: `context += line(x)` for each entry x, in order. */
  method AppendLines<T>(context0: string, xs: seq<T>, line: T -> string) returns (context: string)
    ensures context == context0 + Lines(xs, line)
  {
    context := context0;
    var i := 0;
    while i < |xs|
      invariant 0 <= i <= |xs|
      invariant context == context0 + Lines(xs[..i], line)
    {
      context := context + line(xs[i]);
      assert xs[..i + 1][..i] == xs[..i];
      i := i + 1;
    }
    assert xs[..i] == xs;
  }

  /** Text c followed by sections k.. is x: then so is c with section k appended, followed by sections k+1.. */
  lemma Advance(c: string, secs: seq<Section>, k: nat, x: string)
    requires k < |secs| && c + Stack(secs[k..]) == x
    ensures ((c + secs[k].heading) + secs[k].body) + Stack(secs[k + 1..]) == x
  {
    assert secs[k..][1..] == secs[k + 1..];
    Assoc(c, secs[k].heading, secs[k].body + Stack(secs[k + 1..]));
    Assoc(c + secs[k].heading, secs[k].body, Stack(secs[k + 1..]));
  }

  /**
   * `get_course_context`: the opening f-string, then the sections. The
   * function reads the module constant: callers pass `Info`.
   */
  method GetCourseContext(info: CourseInfo) returns (context: string)
    ensures context == Render(info)
  {
    context := Opening(info);
    context := AppendGrading(context, info);
    context := AppendCourseWork(context, info);
    context := AppendClosing(context, info);
  }

  /** The loops over the breakdown and the scale, each after its heading: sections 0 and 1. */
  method AppendGrading(context0: string, info: CourseInfo) returns (context: string)
    ensures context + Stack(Sections(info)[2..]) == context0 + Stack(Sections(info))
  {
    ghost var secs := Sections(info);
    ghost var x := context0 + Stack(secs);
    context := context0;
    Begin(context, secs, x);
    Advance(context, secs, 0, x);
    Assoc(context, GradingHeading, Indent);
    context := context + GradingHeading + Indent;
    context := AppendLines(context, info.breakdown, PairLine);
    Advance(context, secs, 1, x);
    context := context + ScaleHeading;
    context := AppendLines(context, info.gradingScale, ScaleLine);
  }

  /** The loop over the assignments after its heading, then the prerequisites: sections 2 and 3. */
  method AppendCourseWork(context0: string, info: CourseInfo) returns (context: string)
    ensures context + Stack(Sections(info)[4..]) == context0 + Stack(Sections(info)[2..])
  {
    ghost var secs := Sections(info);
    ghost var x := context0 + Stack(secs[2..]);
    context := context0;
    Advance(context, secs, 2, x);
    context := context + AssignmentsHeading;
    context := AppendLines(context, info.assignments, AssignmentLine);
    Advance(context, secs, 3, x);
    Assoc(context + PrerequisitesHeading, info.prerequisites, "\n");
    context := context + PrerequisitesHeading + info.prerequisites + "\n";
  }

  /** The textbook and the loop over the policies: sections 4 and 5. */
  method AppendClosing(context0: string, info: CourseInfo) returns (context: string)
    ensures context == context0 + Stack(Sections(info)[4..])
  {
    ghost var secs := Sections(info);
    ghost var x := context0 + Stack(secs[4..]);
    context := context0;
    Advance(context, secs, 4, x);
    context := context + TextbookHeading;
    context := context + TextbookLine(info.textbook);
    Advance(context, secs, 5, x);
    context := context + PoliciesHeading;
    context := AppendLines(context, info.policies, PolicyLine);
    Finish(context, secs, x);
  }

  lemma Begin(c: string, secs: seq<Section>, x: string)
    requires x == c + Stack(secs)
    ensures c + Stack(secs[0..]) == x
  {
    assert secs[0..] == secs;
  }

  lemma Finish(c: string, secs: seq<Section>, x: string)
    requires c + Stack(secs[|secs|..]) == x
    ensures c == x
  {
    assert secs[|secs|..] == [];
    assert c + "" == c;
  }

  lemma Assoc(a: string, b: string, c: string)
    ensures (a + b) + c == a + (b + c)
  {
  }

  /** Where section i starts in the stack. */
  function Start(secs: seq<Section>, i: nat): nat
    requires i <= |secs|
  {
    if i == 0 then 0 else Start(secs, i - 1) + |secs[i - 1].heading| + |secs[i - 1].body|
  }

  /** Section i stands at offset k of x: its heading, then its body. */
  predicate Placed(x: string, sec: Section, k: int) {
    0 <= k && k + |sec.heading| + |sec.body| <= |x|
    && x[k..k + |sec.heading|] == sec.heading
    && x[k + |sec.heading|..k + |sec.heading| + |sec.body|] == sec.body
  }

  lemma {:induction false} StartStep(secs: seq<Section>, i: nat)
    requires 0 < i <= |secs|
    ensures Start(secs, i) == |secs[0].heading| + |secs[0].body| + Start(secs[1..], i - 1)
  {
    if i > 1 {
      StartStep(secs, i - 1);
      assert secs[1..][i - 2] == secs[i - 1];
    }
  }

  /** After any prefix, each section of a stack is placed at its start. */
  lemma {:induction false} StackLayout(pre: string, secs: seq<Section>, i: nat)
    requires i < |secs|
    ensures Placed(pre + Stack(secs), secs[i], |pre| + Start(secs, i))
    decreases |secs|
  {
    if i == 0 {
      PlacedFirst(pre, secs[0], Stack(secs[1..]));
    } else {
      StackLayout(pre + secs[0].heading + secs[0].body, secs[1..], i - 1);
      PlacedLater(pre, secs, i);
    }
  }

  /** Section i of a stack is section i - 1 of the stack after the first section. */
  lemma PlacedLater(pre: string, secs: seq<Section>, i: nat)
    requires 0 < i < |secs|
    requires var pre' := pre + secs[0].heading + secs[0].body;
             Placed(pre' + Stack(secs[1..]), secs[1..][i - 1], |pre'| + Start(secs[1..], i - 1))
    ensures Placed(pre + Stack(secs), secs[i], |pre| + Start(secs, i))
  {
    var h, b, rest := secs[0].heading, secs[0].body, Stack(secs[1..]);
    var pre' := pre + h + b;
    Assoc(pre, h, b + rest);
    Assoc(pre + h, b, rest);
    StartStep(secs, i);
    PlacedSame(pre' + rest, secs[1..][i - 1], |pre'| + Start(secs[1..], i - 1),
               pre + Stack(secs), secs[i], |pre| + Start(secs, i));
  }

  lemma PlacedFirst(pre: string, sec: Section, rest: string)
    ensures Placed(pre + (sec.heading + (sec.body + rest)), sec, |pre|)
  {
    var x := pre + (sec.heading + (sec.body + rest));
    assert x[|pre|..|pre| + |sec.heading|] == sec.heading;
    assert x[|pre| + |sec.heading|..|pre| + |sec.heading| + |sec.body|] == sec.body;
  }

  lemma PlacedSame(x: string, sec: Section, k: int, x': string, sec': Section, k': int)
    requires Placed(x, sec, k) && x == x' && sec == sec' && k == k'
    ensures Placed(x', sec', k')
  {
  }

  /** `Start` under a name of its own, for the quantifiers below to trigger on. */
  function Offset(secs: seq<Section>, i: nat): nat
    requires i <= |secs|
  {
    Start(secs, i)
  }

  /**
   * From offset k on, x holds the sections one after another at their
   * starts, in order, and the last one runs to the end of x.
   */
  predicate InOrder(x: string, k: int, secs: seq<Section>) {
    (forall i {:trigger Offset(secs, i)} :: 0 <= i < |secs| ==> Placed(x, secs[i], k + Offset(secs, i)))
    && (forall i, j {:trigger Offset(secs, i), Offset(secs, j)} :: 0 <= i < j <= |secs| ==> Offset(secs, i) < Offset(secs, j))
    && k + Offset(secs, |secs|) == |x|
  }

  /** After any prefix, a stack of sections with non-empty headings is in order. */
  lemma StackFacts(pre: string, secs: seq<Section>)
    requires forall k :: 0 <= k < |secs| ==> secs[k].heading != ""
    ensures InOrder(pre + Stack(secs), |pre|, secs)
  {
    AllPlaced(pre, secs);
    StartIncreasing(secs);
    StackLength(secs);
  }

  lemma AllPlaced(pre: string, secs: seq<Section>)
    ensures forall i {:trigger Offset(secs, i)} :: 0 <= i < |secs| ==> Placed(pre + Stack(secs), secs[i], |pre| + Offset(secs, i))
  {
    forall i {:trigger Offset(secs, i)} | 0 <= i < |secs|
      ensures Placed(pre + Stack(secs), secs[i], |pre| + Offset(secs, i))
    {
      StackLayout(pre, secs, i);
    }
  }

  lemma StartIncreasing(secs: seq<Section>)
    requires forall k :: 0 <= k < |secs| ==> secs[k].heading != ""
    ensures forall i, j {:trigger Offset(secs, i), Offset(secs, j)} :: 0 <= i < j <= |secs| ==> Offset(secs, i) < Offset(secs, j)
  {
    forall i, j {:trigger Offset(secs, i), Offset(secs, j)} | 0 <= i < j <= |secs|
      ensures Offset(secs, i) < Offset(secs, j)
    {
      StartGrows(secs, i, j);
    }
  }

  lemma {:induction false} StartGrows(secs: seq<Section>, i: nat, j: nat)
    requires i < j <= |secs|
    requires forall k :: 0 <= k < |secs| ==> secs[k].heading != ""
    ensures Start(secs, i) < Start(secs, j)
  {
    if i < j - 1 {
      StartGrows(secs, i, j - 1);
    }
  }

  /**
   * The section headings appear in the order GRADING, GRADING SCALE,
   * ASSIGNMENTS, PREREQUISITES, TEXTBOOK, POLICIES, each directly followed by
   * that section's lines, and the policies run to the end of the text.
   */
  lemma SectionsInOrder(info: CourseInfo)
    ensures |Sections(info)| == 6
    ensures InOrder(Render(info), |Opening(info)|, Sections(info))
  {
    HeadingsNonEmpty(info);
    StackFacts(Opening(info), Sections(info));
  }

  lemma HeadingsNonEmpty(info: CourseInfo)
    ensures forall k :: 0 <= k < |Sections(info)| ==> Sections(info)[k].heading != ""
  {
    assert Sections(info)[0].heading[0] == GradingHeading[0];
  }

  lemma {:induction false} StackLength(secs: seq<Section>)
    ensures |Stack(secs)| == Start(secs, |secs|)
  {
    if secs != [] {
      StackLength(secs[1..]);
      StartStep(secs, |secs|);
    }
  }
}
