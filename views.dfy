/** What the two dashboards display, as values rather than markup: the lesson
    cards of the student view, the roster rows of the teacher view with their
    colour tiers, and the role label and button caption. */
module Views {
  import opened Catalog
  import opened Progress

  // ---------------------------------------------------------------------
  // Student view: the lesson list

  const CompletedLabel: string := "COMPLETED"
  const StartLabel: string := "START LESSON"

  /** One card of the lesson list: the lesson, whether it is drawn as
      completed (card colour, check icon), and its trailing label. */
  datatype LessonCard = LessonCard(id: int, title: string, kind: string, completed: bool, status: string)

  /** The card drawn for a lesson under a completion map. */
  function CardFor(lesson: Lesson, m: CompletionMap): (card: LessonCard)
    ensures card.id == lesson.id && card.title == lesson.title && card.kind == lesson.kind
    ensures card.completed <==> lesson.id in m && m[lesson.id]
    ensures card.status == CompletedLabel <==> card.completed
    ensures card.status == StartLabel <==> !card.completed
  {
    var done := IsCompleted(m, lesson.id);
    LessonCard(lesson.id, lesson.title, lesson.kind, done, if done then CompletedLabel else StartLabel)
  }

  /** The cards show the lessons in order, each under the map `m`. */
  ghost predicate ShowsProgress(cards: seq<LessonCard>, lessons: seq<Lesson>, m: CompletionMap) {
    |cards| == |lessons| && forall i :: 0 <= i < |lessons| ==> cards[i] == CardFor(lessons[i], m)
  }

  /** The list is rebuilt from scratch: one card per lesson, in catalog
      order, each reporting that lesson's completed flag. */
  method RenderLessonList(lessons: seq<Lesson>, m: CompletionMap) returns (cards: seq<LessonCard>)
    ensures |cards| == |lessons|
    ensures forall i :: 0 <= i < |lessons| ==>
      cards[i].id == lessons[i].id && (cards[i].completed <==> IsCompleted(m, lessons[i].id))
    ensures ShowsProgress(cards, lessons, m)
  {
    cards := [];
    for i := 0 to |lessons|
      invariant |cards| == i
      invariant forall j :: 0 <= j < i ==> cards[j] == CardFor(lessons[j], m)
    {
      cards := cards + [CardFor(lessons[i], m)];
    }
  }

  /** The number of cards drawn as completed. */
  function CompletedCards(cards: seq<LessonCard>): nat
    decreases |cards|
  {
    if cards == [] then 0 else (if cards[0].completed then 1 else 0) + CompletedCards(cards[1..])
  }

  /** Over lessons with distinct ids, the completed cards are exactly the
      completed entries of the map whose key is one of those lessons. */
  lemma {:induction false} CompletedCardsCount(cards: seq<LessonCard>, lessons: seq<Lesson>, m: CompletionMap)
    requires ShowsProgress(cards, lessons, m)
    requires DistinctIds(lessons)
    ensures CompletedCards(cards) == |CompletedIds(m) * IdsOf(lessons)|
    decreases |lessons|
  {
    if lessons != [] {
      var rest := lessons[1..];
      DistinctTail(lessons);
      ShowsTail(cards, lessons, m);
      CompletedCardsCount(cards[1..], rest, m);
      SplitCompleted(m, lessons[0].id, IdsOf(rest));
    }
  }

  lemma DistinctTail(lessons: seq<Lesson>)
    requires lessons != [] && DistinctIds(lessons)
    ensures DistinctIds(lessons[1..])
    ensures lessons[0].id !in IdsOf(lessons[1..])
  {
  }

  lemma ShowsTail(cards: seq<LessonCard>, lessons: seq<Lesson>, m: CompletionMap)
    requires lessons != [] && ShowsProgress(cards, lessons, m)
    ensures ShowsProgress(cards[1..], lessons[1..], m)
    ensures cards[0].completed == IsCompleted(m, lessons[0].id)
  {
  }

  /** Adding one key outside `ids` grows the completed keys within `ids` by
      that key exactly when it is completed. */
  lemma SplitCompleted(m: CompletionMap, id: int, ids: set<int>)
    requires id !in ids
    ensures |CompletedIds(m) * ({id} + ids)| ==
            (if IsCompleted(m, id) then 1 else 0) + |CompletedIds(m) * ids|
  {
    var done := CompletedIds(m);
    if IsCompleted(m, id) {
      assert done * ({id} + ids) == (done * ids) + {id};
    } else {
      assert done * ({id} + ids) == done * ids;
    }
  }

  /** While every key of the map is the id of a listed lesson, the number of
      cards labelled "COMPLETED" equals the completed count shown beside the
      progress ring. */
  lemma CardsAgreeWithCount(cards: seq<LessonCard>, lessons: seq<Lesson>, m: CompletionMap)
    requires ShowsProgress(cards, lessons, m)
    requires DistinctIds(lessons)
    requires m.Keys <= IdsOf(lessons)
    ensures CompletedCards(cards) == CompletedCount(m)
  {
    CompletedCardsCount(cards, lessons, m);
    var done := CompletedIds(m);
    assert done * IdsOf(lessons) == done;
  }

  // ---------------------------------------------------------------------
  // Teacher view: the roster table

  /** Colour of the progress cell: red, orange or green. */
  datatype ProgressTier = Low | Mid | High

  /** Colour of the score badge: red, or the default blue. */
  datatype ScoreTier = Failing | Passing

  function ProgressTierOf(progress: int): (t: ProgressTier)
    ensures t == Low <==> progress < 50
    ensures t == Mid <==> 50 <= progress < 80
    ensures t == High <==> 80 <= progress
  {
    if progress < 50 then Low else if progress < 80 then Mid else High
  }

  function ScoreTierOf(score: int): (t: ScoreTier)
    ensures t == Failing <==> score < 60
  {
    if score < 60 then Failing else Passing
  }

  function TierRank(t: ProgressTier): nat {
    match t
    case Low => 0
    case Mid => 1
    case High => 2
  }

  /** A higher progress never gets a lower colour tier, nor a higher score a
      red badge where a lower one got blue. */
  lemma TiersMonotone(p1: int, p2: int)
    requires p1 <= p2
    ensures TierRank(ProgressTierOf(p1)) <= TierRank(ProgressTierOf(p2))
    ensures ScoreTierOf(p1) == Passing ==> ScoreTierOf(p2) == Passing
  {
  }

  /** One row of the roster table. */
  datatype RosterRow = RosterRow(name: string, progress: int, score: int, lastActive: string,
                                 progressTier: ProgressTier, scoreTier: ScoreTier)

  /** The row drawn for one student. */
  function RowFor(s: StudentRecord): RosterRow {
    RosterRow(s.name, s.progress, s.score, s.lastActive, ProgressTierOf(s.progress), ScoreTierOf(s.score))
  }

  /** The table is accumulated row by row, one row per student in roster
      order, each with the tiers of that student's progress and score. */
  method RenderTeacherDashboard(students: seq<StudentRecord>) returns (rows: seq<RosterRow>)
    ensures |rows| == |students|
    ensures forall i :: 0 <= i < |students| ==> rows[i] == RowFor(students[i])
    ensures forall i :: 0 <= i < |students| ==>
      (rows[i].progressTier == Low <==> students[i].progress < 50) &&
      (rows[i].progressTier == High <==> students[i].progress >= 80) &&
      (rows[i].scoreTier == Failing <==> students[i].score < 60)
  {
    rows := [];
    for i := 0 to |students|
      invariant |rows| == i
      invariant forall j :: 0 <= j < i ==> rows[j] == RowFor(students[j])
    {
      rows := rows + [RowFor(students[i])];
    }
  }

  /** The seed roster: Priya (60) orange, Amit (100) and Sunil (80) green,
      Reema (20) red; only Reema's score of 55 gets the red badge. */
  lemma SeedRosterTiers()
    ensures ProgressTierOf(Roster[0].progress) == Mid && ProgressTierOf(Roster[1].progress) == High
    ensures ProgressTierOf(Roster[2].progress) == Low && ProgressTierOf(Roster[3].progress) == High
    ensures forall i :: 0 <= i < |Roster| ==> (ScoreTierOf(Roster[i].score) == Failing <==> i == 2)
  {
  }

  // ---------------------------------------------------------------------
  // Role switch

  /** What the role switch shows: which dashboard is visible, the role label
      and the caption of the switch button, which names the other view. */
  datatype RoleView = RoleView(studentVisible: bool, teacherVisible: bool, roleLabel: string, caption: string)

  function RoleViewFor(isTeacher: bool): (v: RoleView)
    ensures v.teacherVisible == isTeacher && v.studentVisible == !isTeacher
    ensures v.roleLabel == "Teacher" <==> isTeacher
    ensures v.roleLabel == "Student" <==> !isTeacher
    ensures v.caption == (if isTeacher then "Switch to Student View" else "Switch to Teacher View")
  {
    if isTeacher then RoleView(false, true, "Teacher", "Switch to Student View")
    else RoleView(true, false, "Student", "Switch to Teacher View")
  }
}
