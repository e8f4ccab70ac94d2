# Lesson dashboard: completion store, progress display, theme and role switches

This project models the logic of a single-page educational dashboard
(`script.js`). The page has two views:

- a **student view**: a checklist of five lessons, a completed-lessons
  counter and a circular progress ring showing the completion percentage;
- a **teacher view**: a static roster table.

A completion map, from lesson id to a boolean, is kept in memory. Every
click on a lesson writes the whole map to browser storage. The display
theme (dark or light) is stored too. A role switch chooses which view is
shown.

The model is written in Dafny and has six modules:

- `Wrappers`: `Option`, used for a storage read that finds no record.
- `Catalog`: the fixed lesson list, the roster and the lesson count (5)
  used for the percentage.
- `Progress`: pure logic of the completion map:
  - the completed flag (absent counts as false);
  - the click toggle, the completed count and the start-up load;
  - `Math.round(count / 5 * 100)`, computed exactly as
    `(200 * count + 5) / 10` and proved equal to `floor(x + 1/2)` over the
    reals.
- `Theme`: how `setTheme` applies and persists a value, the start-up
  order (stored value, then the system's dark-scheme signal, then light),
  the toggle, and which switch icon is hidden.
- `Views`: what is displayed, as values rather than markup:
  - the lesson cards with their completed flag and "COMPLETED" /
    "START LESSON" label;
  - the roster rows with their progress tier (below 50, 50 to 79, 80 and
    above) and score tier (below 60, or not);
  - the role label and the switch caption.

  The two render loops are methods proved against per-item functions.
- `App`: the class `Dashboard`, which holds the state the page changes in
  place. That state is:
  - the in-memory map and the stored copy;
  - the applied theme and the stored theme;
  - the role flag;
  - the rendered cards, the counter, the percentage and the roster rows.

  Its invariant `Valid` says four things. Reloading the stored record
  gives the in-memory map. The stored theme is the applied one. The icons
  match the theme. The cards, counter and percentage all show the current
  map. Each event handler keeps `Valid` and says exactly how the state
  changes.

Storage is modelled as two fields of the class. The operating system's
dark-scheme query is a boolean given to the constructor.

The code accepts any non-empty stored theme string at start-up. It applies
the light theme for every value other than `"dark"`, then overwrites the
stored value with `"light"` (`Dashboard.constructor`, `Dashboard.SetTheme`).

## Model

| member | source | states |
|---|---|---|
| Catalog.CatalogIds | script.js:9-15 | The catalog lessons carry exactly the ids 1, 2, 3, 4 and 5. |
| Catalog.LessonIdsAreOneToTotal | script.js:6-15 | The click ids are exactly 1..totalLessons, and there are as many of them as lessons. |
| Catalog.CatalogDistinct | script.js:9-15 | No two catalog lessons share an id. |
| Progress.Toggle | script.js:98-102 | A click adds the key if it was absent and stores the negation of the old flag (absent read as false); every other key keeps its value. |
| Progress.ToggleFlips | script.js:99-115 | After a click, the clicked lesson's completed flag is negated and every other lesson's flag is unchanged. The flag is `IsCompleted`: the key is present and true, so an absent key counts as false (`progress[id] \|\| false`). |
| Progress.ToggleTwice | script.js:99-102 | Two clicks on one lesson restore its flag and the count. A present key gets its map back exactly. An absent key ends present with the value false. |
| Progress.ToggleCount | script.js:85-102 | The completed count is the size of `CompletedIds`, the keys whose value is true. A click lowers it by one if the lesson was completed and raises it by one otherwise. |
| Progress.ClicksStayInCatalog | script.js:114-136 | Any sequence of clicks on catalog ids keeps every key of the map a catalog id. |
| Progress.CountBounded | script.js:85 | While every key is a catalog id, at most 5 lessons count as completed. |
| Progress.Percent | script.js:86 | The percentage p is the integer nearest to 100*count/total, with halves rounding up: 2*total*p <= 200*count + total < 2*total*p + 2*total. |
| Progress.PercentIsMathRound | script.js:86 | The integer formula equals floor(100*count/total + 1/2), which is `Math.round` of the exact quotient. |
| Progress.PercentMonotone | script.js:86 | A larger completed count never gives a smaller percentage. |
| Progress.PercentRange | script.js:86 | For a count within 0..total the percentage lies in 0..100. It is 0 for no lesson and 100 for all. |
| Progress.PercentTable | script.js:86 | The five lessons give 0, 20, 40, 60, 80 and 100 percent for counts 0 to 5. |
| Progress.FromEmptyBounded | script.js:25-136 | Starting from an empty store, any sequence of catalog clicks keeps the count at most 5 and the percentage at most 100. |
| Progress.TwoClicksScenario | script.js:85-102 | From the empty map, clicking lessons 1 and 3 gives count 2 and 40 percent. |
| Theme.ThemeName | script.js:49-54 | The persisted literal is "dark" exactly for the dark theme and "light" exactly for the light one. |
| Theme.Applied | script.js:44-55 | `setTheme` applies the dark theme exactly when the value is the string "dark". |
| Theme.PersistedValue | script.js:44-56 | `setTheme` persists "dark" only for exactly "dark", and "light" for any other value. |
| Theme.NameRoundTrip | script.js:49-61 | Applying a persisted theme literal gives back the theme that was persisted. |
| Theme.InitialTheme | script.js:59-66 | At start-up a non-empty stored value decides, with dark exactly for "dark". Otherwise the theme is dark exactly when the system asks for a dark scheme. |
| Theme.ReloadKeepsTheme | script.js:59-61 | A stored theme wins over the system signal on the next start-up. |
| Theme.Flipped | script.js:70 | The toggle always asks for the other theme. |
| Theme.FlipTwice | script.js:69-72 | Toggling twice returns to the original theme. |
| Theme.IconsFor | script.js:45-55 | The moon icon is hidden exactly in the dark theme and the sun icon exactly in the light one. Exactly one of them is hidden. |
| Views.CardFor | script.js:115-133 | A card has its lesson's id, title and type. It is drawn completed exactly when the map holds true for that id. Its label is "COMPLETED" exactly when completed, otherwise "START LESSON". |
| Views.RenderLessonList | script.js:112-139 | The rebuilt list has one card per lesson, in catalog order. Card i shows lesson i's id and completed flag. |
| Views.CompletedCardsCount | script.js:85-133 | Over lessons with distinct ids, the completed cards are exactly the completed map keys that belong to some listed lesson. |
| Views.CardsAgreeWithCount | script.js:85-133 | While every key belongs to a listed lesson, the number of "COMPLETED" cards equals the completed count. |
| Views.ProgressTierOf | script.js:159 | The progress tier is low exactly below 50, mid exactly for 50..79, and high exactly from 80. |
| Views.ScoreTierOf | script.js:160 | The score badge is the failing one exactly when the score is below 60. |
| Views.TiersMonotone | script.js:159-160 | A higher progress never gets a lower tier, and a higher score never loses a passing badge. |
| Views.RenderTeacherDashboard | script.js:144-181 | The table has one row per student, in roster order. Row i is `RowFor` of student i: that student's name, progress, score and last-active label, with the progress tier (low below 50, high from 80) and the score tier (failing below 60). |
| Views.SeedRosterTiers | script.js:17-22 | The seed roster's tiers: Priya mid; Amit and Sunil high; Reema low, and Reema is the only one with a failing score. |
| Views.RoleViewFor | script.js:185-199 | Exactly one dashboard is shown. The label is "Teacher" exactly for the teacher view. The caption names the other view. |
| App.Dashboard.constructor | script.js:25-66 | Start-up loads the stored map through `LoadProgress`: no stored record gives the empty map, a stored one is taken as it is. The stored record is left untouched. It applies the theme chosen by the start-up order and persists it. It starts in the student view, with the cards, counter, percentage and roster rendered. |
| App.Dashboard.SetTheme | script.js:44-56 | Exactly "dark" selects and stores dark. Any other value selects and stores light. The icons follow the theme. |
| App.Dashboard.ToggleTheme | script.js:69-72 | Applies and persists the other theme. The stored value equals the applied theme. All progress state is unchanged. |
| App.Dashboard.UpdateProgressDisplay | script.js:84-89 | The counter becomes the number of true entries. The percentage becomes `Math.round` of count/5*100. |
| App.Dashboard.SaveProgress | script.js:78-81 | Storage receives the whole in-memory map, then the counters are refreshed. |
| App.Dashboard.HandleLessonClick | script.js:98-109 | The map is the old map toggled at the id, and no other key changes. The stored copy equals the new map. The counter moves by one. Keys stay catalog ids when the id is one, and then the count is at most 5 and the percentage at most 100. `Valid` is kept. |
| App.Dashboard.CounterMatchesCards | script.js:85-133 | While the keys are catalog ids, the counter equals the number of cards labelled "COMPLETED". |
| App.Dashboard.ToggleRole | script.js:185-199 | `isTeacher` is negated and the shown view is the one for the new role. The map, stored copy, counter and percentage are unchanged. |
| App.Reload | script.js:25-66 | A dashboard started again from what was persisted shows the same map, count, percentage and theme, whatever the system signal now says. `Valid` gives `LoadProgress` of the stored record equal to the in-memory map, so the save/load round trip holds. |
| App.FirstVisit | script.js:25-205 | From empty storage, clicking lessons 1 and 3 gives count 2 and 40 percent. Toggling the role twice and the theme twice changes neither the progress nor the theme. |

## Left out

- HTML and DOM work is not modelled: markup strings, SVG icons, CSS class
  names, `createElement`, appending to the page and wiring the event
  listeners. Only the flags and labels that drive those edits are
  modelled. The page markup (`index.html`) is not part of this model.
  Because of that, the role display before the first switch is not
  modelled either.
- The progress ring's `strokeDashoffset`
  (`282.7 - percentage / 100 * 282.7`) is left out. It is floating-point
  arithmetic that only drives the drawing.
- `Progress.Percent` computes `(count / 5) * 100` in exact rational
  arithmetic, not in IEEE doubles. For the counts 0..5 the two give the
  same rounded result.
- `localStorage` and the JSON round trip are modelled as two `Option`
  fields of the dashboard:
  - a stored record that is not valid JSON makes `JSON.parse` throw at
    start-up; that path is not modelled;
  - a stored JSON value that is not an object of booleans (for example
    `null` or non-boolean values) is not representable;
  - keys are lesson ids as integers, while JavaScript stores them as
    strings;
  - a failed storage write is not modelled.
- The count and percentage bounds are stated only while every key is a
  catalog id. A stored record with other ids is counted as it is, which
  can give more than 5 lessons and more than 100 percent. The source does
  the same, since it never checks stored ids.
- `window.matchMedia` is a boolean argument of the constructor.
- Two tabs writing the same storage concurrently is not modelled. The
  page itself is single-threaded.
