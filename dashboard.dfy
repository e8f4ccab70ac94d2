/** The page's mutable state and its event handlers: start-up loading, the
    lesson click with its save and display update, the theme switch and the
    role switch. Durable storage is the pair of fields `storedProgress` and
    `storedTheme`; the operating system's dark-scheme signal is a start-up
    argument. */
module App {
  import opened Wrappers
  import opened Catalog
  import opened Progress
  import opened Theme
  import opened Views

  class Dashboard {
    /** The in-memory completion map. */
    var progress: CompletionMap
    /** The record under the storage key "edtech_progress_user_priya_sharma_123"
        (the progress key of the synthetic logged-in user); None when nothing
        was ever saved. */
    var storedProgress: Option<CompletionMap>
    /** The theme applied to the document root. */
    var theme: Theme
    /** The value under the storage key "theme-preference". */
    var storedTheme: Option<string>
    /** Which icon of the theme switch is hidden. */
    var icons: Icons
    /** The teacher view is shown instead of the student view. */
    var isTeacher: bool
    /** The contents of the lesson list. */
    var cards: seq<LessonCard>
    /** The completed-lessons counter and the percentage in the ring. */
    var shownCount: nat
    var shownPercent: nat
    /** The rows of the roster table. */
    var rows: seq<RosterRow>

    /** What holds between events: reloading the stored record gives the
        in-memory map, the stored theme is the applied one, and the list,
        counter and percentage all show the current map. */
    ghost predicate Valid()
      reads this
    {
      && LoadProgress(storedProgress) == progress
      && storedTheme == Some(ThemeName(theme))
      && icons == IconsFor(theme)
      && ShowsProgress(cards, Lessons, progress)
      && shownCount == CompletedCount(progress)
      && shownPercent == Percent(shownCount, TotalLessons)
    }

    /** Start-up: load the stored progress (an empty map when there is none),
        resolve and apply the theme, render the list, the counters and the
        roster. Nothing is written to the progress key yet. */
    constructor (saved: Option<CompletionMap>, savedTheme: Option<string>, prefersDark: bool)
      ensures Valid()
      ensures storedProgress == saved && progress == LoadProgress(saved)
      ensures theme == InitialTheme(savedTheme, prefersDark)
      ensures !isTeacher
      ensures |rows| == |Roster| && forall i :: 0 <= i < |Roster| ==> rows[i] == RowFor(Roster[i])
    {
      progress := LoadProgress(saved);
      storedProgress := saved;
      storedTheme := savedTheme;
      isTeacher := false;
      theme, icons := Light, IconsFor(Light);
      cards, rows := [], [];
      shownCount, shownPercent := 0, 0;
      new;
      if savedTheme.Some? && savedTheme.value != "" {
        SetTheme(savedTheme.value);
      } else if prefersDark {
        SetTheme("dark");
      } else {
        SetTheme("light");
      }
      cards := RenderLessonList(Lessons, progress);
      UpdateProgressDisplay();
      rows := RenderTeacherDashboard(Roster);
    }

    /** Apply a theme and persist it: exactly "dark" selects the dark theme
        and stores "dark"; any other value selects and stores "light". */
    method SetTheme(value: string)
      modifies this`theme, this`storedTheme, this`icons
      ensures theme == Dark <==> value == "dark"
      ensures storedTheme == Some(if value == "dark" then "dark" else "light")
      ensures storedTheme == Some(ThemeName(theme)) && icons == IconsFor(theme)
    {
      if value == "dark" {
        theme := Dark;
        icons := Icons(true, false);
        storedTheme := Some("dark");
      } else {
        theme := Light;
        icons := Icons(false, true);
        storedTheme := Some("light");
      }
    }

    /** The theme switch: apply and persist the other theme. */
    method ToggleTheme()
      requires Valid()
      modifies this`theme, this`storedTheme, this`icons
      ensures Valid()
      ensures theme == Flipped(old(theme))
      ensures storedTheme == Some(ThemeName(theme))
    {
      var next := if theme == Dark then "light" else "dark";
      SetTheme(next);
    }

    /** Recompute the counter and the percentage from the map; the
        percentage is Math.round of the exact share of TotalLessons. */
    method UpdateProgressDisplay()
      modifies this`shownCount, this`shownPercent
      ensures shownCount == CompletedCount(progress)
      ensures shownPercent == Percent(shownCount, TotalLessons)
      ensures shownPercent == MathRound(shownCount as real / TotalLessons as real * 100.0)
    {
      shownCount := CompletedCount(progress);
      shownPercent := Percent(shownCount, TotalLessons);
      PercentIsMathRound(shownCount, TotalLessons);
    }

    /** Write the whole map to storage, then refresh the counters. */
    method SaveProgress()
      modifies this`storedProgress, this`shownCount, this`shownPercent
      ensures storedProgress == Some(progress)
      ensures shownCount == CompletedCount(progress)
      ensures shownPercent == Percent(shownCount, TotalLessons)
    {
      storedProgress := Some(progress);
      UpdateProgressDisplay();
    }

    /** A click on the card of lesson `id`: flip its entry, re-render the
        list, save the whole map and refresh the counters. */
    method HandleLessonClick(id: int)
      requires Valid()
      modifies this`progress, this`cards, this`storedProgress, this`shownCount, this`shownPercent
      ensures Valid()
      ensures progress == Toggle(old(progress), id)
      ensures IsCompleted(progress, id) == !IsCompleted(old(progress), id)
      ensures forall k :: k != id && k in old(progress) ==> k in progress && progress[k] == old(progress)[k]
      ensures storedProgress == Some(progress)
      ensures shownCount == if IsCompleted(old(progress), id) then old(shownCount) - 1 else old(shownCount) + 1
      ensures old(progress).Keys <= LessonIds() && id in LessonIds() ==>
        progress.Keys <= LessonIds() && shownCount <= TotalLessons && shownPercent <= 100
    {
      ghost var before := progress;
      var wasCompleted := IsCompleted(progress, id);
      progress := progress[id := !wasCompleted];
      cards := RenderLessonList(Lessons, progress);
      SaveProgress();
      ToggleCount(before, id);
      if before.Keys <= LessonIds() && id in LessonIds() {
        CountBounded(progress);
        PercentRange(shownCount, TotalLessons);
      }
    }

    /** While the map holds only catalog ids, the completed-lessons counter
        equals the number of cards labelled "COMPLETED". */
    lemma CounterMatchesCards()
      requires Valid()
      requires progress.Keys <= LessonIds()
      ensures CompletedCards(cards) == shownCount
    {
      CatalogIds();
      CatalogDistinct();
      CardsAgreeWithCount(cards, Lessons, progress);
    }

    /** The role switch: show the other dashboard, with its label and the
        caption naming the view one can switch back to. */
    method ToggleRole() returns (view: RoleView)
      requires Valid()
      modifies this`isTeacher
      ensures Valid()
      ensures isTeacher == !old(isTeacher)
      ensures view == RoleViewFor(isTeacher)
      ensures view.teacherVisible != view.studentVisible
      ensures progress == old(progress) && storedProgress == old(storedProgress)
      ensures shownCount == old(shownCount) && shownPercent == old(shownPercent)
    {
      isTeacher := !isTeacher;
      if isTeacher {
        view := RoleView(false, true, "Teacher", "Switch to Student View");
      } else {
        view := RoleView(true, false, "Student", "Switch to Teacher View");
      }
    }
  }

  /** A page reload: a new dashboard started from what `d` persisted shows
      the same map, counter, percentage and theme, whatever the system's
      dark-scheme signal now says. */
  method Reload(d: Dashboard, prefersDark: bool) returns (e: Dashboard)
    requires d.Valid()
    ensures e.Valid()
    ensures e.progress == d.progress
    ensures e.shownCount == d.shownCount && e.shownPercent == d.shownPercent
    ensures e.theme == d.theme
  {
    e := new Dashboard(d.storedProgress, d.storedTheme, prefersDark);
    ReloadKeepsTheme(d.theme, prefersDark);
  }

  /** A first visit with nothing stored: the ring starts at 0 percent;
      clicking lessons 1 and 3 completes two lessons and shows 40 percent;
      switching roles there and back and toggling the theme twice change
      neither the progress nor the theme. */
  method FirstVisit(prefersDark: bool) returns (d: Dashboard)
    ensures d.Valid()
    ensures d.progress == map[1 := true, 3 := true]
    ensures d.shownCount == 2 && d.shownPercent == 40
    ensures d.theme == (if prefersDark then Dark else Light) && !d.isTeacher
  {
    d := new Dashboard(None, None, prefersDark);
    assert d.shownCount == 0 && d.shownPercent == 0;
    d.HandleLessonClick(1);
    d.HandleLessonClick(3);
    assert d.progress == map[1 := true, 3 := true];
    var view := d.ToggleRole();
    view := d.ToggleRole();
    d.ToggleTheme();
    d.ToggleTheme();
  }
}
