/** The static data of the dashboard: the lesson catalog, the teacher's
    roster of student summaries. None of it changes
    while the page is open. */
module Catalog {

  /** A lesson descriptor: its id, its title and a free-form type label. */
  datatype Lesson = Lesson(id: int, title: string, kind: string)

  /** A roster row of the teacher view: progress and score are percentages. */
  datatype StudentRecord = StudentRecord(name: string, progress: int, lastActive: string, score: int)

  /** The fixed lesson count the percentage is computed against. */
  const TotalLessons: nat := 5

  const Lessons: seq<Lesson> := [
    Lesson(1, "Introduction to Force and Motion", "Video Lesson"),
    Lesson(2, "Lever: The Simplest Machine", "Interactive Quiz"),
    Lesson(3, "Pulley Systems: Lifting Heavy Loads", "Simulation (Lite)"),
    Lesson(4, "The Inclined Plane and Wedge", "Reading Material"),
    Lesson(5, "Module Test: Simple Machines", "Assessment")
  ]

  const Roster: seq<StudentRecord> := [
    StudentRecord("Priya Sharma", 60, "Today", 78),
    StudentRecord("Amit Kumar", 100, "Yesterday", 92),
    StudentRecord("Reema Singh", 20, "3 Days Ago", 55),
    StudentRecord("Sunil Yadav", 80, "Today", 85)
  ]

  /** The ids of a list of lessons. */
  function IdsOf(lessons: seq<Lesson>): (ids: set<int>)
    ensures forall i :: 0 <= i < |lessons| ==> lessons[i].id in ids
    ensures forall k :: k in ids ==> exists i :: 0 <= i < |lessons| && lessons[i].id == k
  {
    if lessons == [] then {} else {lessons[0].id} + IdsOf(lessons[1..])
  }

  /** No two lessons of the list share an id. */
  predicate DistinctIds(lessons: seq<Lesson>) {
    forall i, j :: 0 <= i < j < |lessons| ==> lessons[i].id != lessons[j].id
  }

  /** The ids a lesson card can report when it is clicked; `CatalogIds`
      proves that these are the ids of `Lessons`. */
  function LessonIds(): set<int> {
    {1, 2, 3, 4, 5}
  }

  /** The catalog holds the ids 1, 2, 3, 4 and 5. */
  lemma CatalogIds()
    ensures IdsOf(Lessons) == LessonIds()
  {
  }

  /** The catalog ids are exactly 1..TotalLessons, so there are exactly
      TotalLessons of them, one per lesson. */
  lemma LessonIdsAreOneToTotal()
    ensures forall k :: k in LessonIds() <==> 1 <= k <= TotalLessons
    ensures |LessonIds()| == TotalLessons == |Lessons|
  {
  }

  /** No two catalog lessons share an id. */
  lemma CatalogDistinct()
    ensures DistinctIds(Lessons)
  {
  }
}
